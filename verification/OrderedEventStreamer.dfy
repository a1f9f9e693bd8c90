/** The paged reader of the commit store that a stream processor uses to catch up. */
module OrderedEventStreamer {
  import opened Prelude
  import opened CommitStore

  /** How many commits the source fetches at a time; what is proved holds for every page size from 1 on. */
  const PAGE_SIZE: nat := 512

  datatype Streamer = Streamer(queue: seq<OrderedCommit>, previous: int, finished: bool)

  function Page(store: seq<Commit>, c: int, pageSize: nat): seq<Commit>
    requires IsStore(store)
  {
    var rest := GetFrom(store, c);
    if |rest| <= pageSize then rest else rest[..pageSize]
  }

  /** FetchNextPage. */
  function Fetch(st: Streamer, store: seq<Commit>, pageSize: nat): Streamer
    requires IsStore(store)
  {
    var page := Page(store, st.previous, pageSize);
    var queue := st.queue + Chain(st.previous, page);
    Streamer(queue, EndOf(st.previous, page), queue == [])
  }

  function Start(c: int, store: seq<Commit>, pageSize: nat): Streamer
    requires IsStore(store)
  {
    Fetch(Streamer([], c, false), store, pageSize)
  }

  function Peeked(st: Streamer, store: seq<Commit>, pageSize: nat): Streamer
    requires IsStore(store)
  {
    if st.queue == [] then Fetch(st, store, pageSize) else st
  }

  function Nexted(st: Streamer, store: seq<Commit>, pageSize: nat): Streamer
    requires IsStore(store) && st.queue != []
  {
    Peeked(st.(queue := st.queue[1..]), store, pageSize)
  }

  // ------------------------------------------------------------------ paging refines reading the store

  /** What has come out, followed by what is queued, is the store read in order from just after c. */
  ghost predicate Streamed(store: seq<Commit>, c: int, out: seq<OrderedCommit>, st: Streamer)
    requires IsStore(store)
  {
    StreamedFrom(store, Position(store, c), c, out, st)
  }

  ghost predicate StreamedFrom(store: seq<Commit>, b: nat, c: int, out: seq<OrderedCommit>, st: Streamer) {
    var e := b + |out| + |st.queue|;
    && e <= |store|
    && out + st.queue == Chain(c, store[b..e])
    && st.previous == EndOf(c, store[b..e])
  }

  lemma StreamedUpTo(store: seq<Commit>, b: nat, c: int, e: nat, out: seq<OrderedCommit>, st: Streamer)
    requires b <= e <= |store|
    requires out + st.queue == Chain(c, store[b..e])
    requires st.previous == EndOf(c, store[b..e])
    ensures StreamedFrom(store, b, c, out, st)
  {
    assert |out + st.queue| == e - b;
  }

  lemma StreamedEnd(store: seq<Commit>, c: int, out: seq<OrderedCommit>, st: Streamer)
    requires IsStore(store) && Streamed(store, c, out, st)
    ensures Position(store, st.previous) == Position(store, c) + |out| + |st.queue|
  {
    var b := Position(store, c);
    var e := b + |out| + |st.queue|;
    if b < e {
      assert store[b..e][e - b - 1] == store[e - 1];
      PositionOfToken(store, e - 1);
    }
  }

  lemma PageIsSlice(store: seq<Commit>, c: int, pageSize: nat)
    requires IsStore(store)
    ensures var n := Position(store, c); var page := Page(store, c, pageSize);
      && n + |page| <= |store|
      && page == store[n..n + |page|]
      && (0 < pageSize && page == [] ==> n == |store|)
  {
  }

  lemma PageAppended(c: int, read: seq<Commit>, page: seq<Commit>, out: seq<OrderedCommit>, queue: seq<OrderedCommit>)
    requires out + queue == Chain(c, read)
    ensures out + (queue + Chain(EndOf(c, read), page)) == Chain(c, read + page)
    ensures EndOf(c, read + page) == EndOf(EndOf(c, read), page)
  {
    ChainAppend(c, read, page);
    Associative(out, queue, Chain(EndOf(c, read), page));
  }

  lemma QueuePage(store: seq<Commit>, b: nat, c: int, out: seq<OrderedCommit>, st: Streamer,
    page: seq<Commit>, st': Streamer)
    requires StreamedFrom(store, b, c, out, st)
    requires var e := b + |out| + |st.queue|; e + |page| <= |store| && page == store[e..e + |page|]
    requires st'.queue == st.queue + Chain(st.previous, page) && st'.previous == EndOf(st.previous, page)
    ensures StreamedFrom(store, b, c, out, st')
  {
    var e := b + |out| + |st.queue|;
    PageAppended(c, store[b..e], page, out, st.queue);
    assert store[b..e + |page|] == store[b..e] + page;
    StreamedUpTo(store, b, c, e + |page|, out, st');
  }

  lemma FetchStreams(store: seq<Commit>, c: int, out: seq<OrderedCommit>, st: Streamer, pageSize: nat)
    requires IsStore(store) && Streamed(store, c, out, st)
    ensures Streamed(store, c, out, Fetch(st, store, pageSize))
    ensures 0 < pageSize && Fetch(st, store, pageSize).queue == [] ==> Position(store, c) + |out| == |store|
  {
    StreamedEnd(store, c, out, st);
    PageIsSlice(store, st.previous, pageSize);
    QueuePage(store, Position(store, c), c, out, st, Page(store, st.previous, pageSize), Fetch(st, store, pageSize));
  }

  lemma HandedOut(store: seq<Commit>, c: int, out: seq<OrderedCommit>, st: Streamer, st': Streamer)
    requires IsStore(store) && Streamed(store, c, out, st) && st.queue != []
    requires st'.queue == st.queue[1..] && st'.previous == st.previous
    ensures Streamed(store, c, out + [st.queue[0]], st')
  {
    assert (out + [st.queue[0]]) + st'.queue == out + st.queue;
  }

  lemma NextStreams(store: seq<Commit>, c: int, out: seq<OrderedCommit>, st: Streamer, pageSize: nat)
    requires IsStore(store) && Streamed(store, c, out, st) && st.queue != []
    ensures Streamed(store, c, out + [st.queue[0]], Nexted(st, store, pageSize))
    ensures 0 < pageSize && Nexted(st, store, pageSize).queue == [] ==>
      Position(store, c) + |out| + 1 == |store|
  {
    var st' := st.(queue := st.queue[1..]);
    HandedOut(store, c, out, st, st');
    if st'.queue == [] {
      FetchStreams(store, c, out + [st.queue[0]], st', pageSize);
    }
  }

  lemma StreamedGrows(s: seq<Commit>, s': seq<Commit>, c: int, out: seq<OrderedCommit>, st: Streamer)
    requires Grows(s, s') && Streamed(s, c, out, st)
    ensures Streamed(s', c, out, st)
  {
    var b := Position(s, c);
    var e := b + |out| + |st.queue|;
    if b < |s| {
      assert s'[b] == s[b] && (0 < b ==> s'[b - 1] == s[b - 1]);
      PositionIs(s', c, b);
      assert s'[b..e] == s[b..e];
    }
  }

  /** A call made on the streamer, with the store as it is at that time. */
  datatype Call = Peek(store: seq<Commit>) | Next(store: seq<Commit>)

  ghost predicate GrowingStores(first: seq<Commit>, calls: seq<Call>) {
    && IsStore(first)
    && (forall i :: 0 <= i < |calls| ==> Grows(first, calls[i].store))
    && forall i, j :: 0 <= i < j < |calls| ==> Grows(calls[i].store, calls[j].store)
  }

  function LastStore(first: seq<Commit>, calls: seq<Call>): seq<Commit> {
    if calls == [] then first else calls[|calls| - 1].store
  }

  datatype Pulled = Pulled(out: seq<OrderedCommit>, st: Streamer)

  /** The pairs that Next has returned, and the streamer left behind. Next is not called on an empty queue. */
  ghost function Pull(c: int, first: seq<Commit>, calls: seq<Call>, pageSize: nat): Pulled
    requires GrowingStores(first, calls)
    decreases |calls|
  {
    if calls == [] then Pulled([], Start(c, first, pageSize))
    else
      Called(Pull(c, first, calls[..|calls| - 1], pageSize), calls[|calls| - 1], pageSize)
  }

  function Called(p: Pulled, call: Call, pageSize: nat): Pulled
    requires IsStore(call.store)
  {
    match call
    case Peek(store) => p.(st := Peeked(p.st, store, pageSize))
    case Next(store) =>
      if p.st.queue == [] then p
      else Pulled(p.out + [p.st.queue[0]], Nexted(p.st, store, pageSize))
  }

  /** What holds after any calls: the output and the queue read the store, and finished means nothing queued. */
  ghost predicate PulledOk(store: seq<Commit>, c: int, p: Pulled)
    requires IsStore(store)
  {
    Streamed(store, c, p.out, p.st) && p.st.finished == (p.st.queue == [])
  }

  lemma CalledStreams(c: int, before: seq<Commit>, p: Pulled, call: Call, pageSize: nat)
    requires Grows(before, call.store) && PulledOk(before, c, p)
    ensures PulledOk(call.store, c, Called(p, call, pageSize))
  {
    StreamedGrows(before, call.store, c, p.out, p.st);
    if p.st.queue == [] {
      FetchStreams(call.store, c, p.out, p.st, pageSize);
    } else if call.Next? {
      NextStreams(call.store, c, p.out, p.st, pageSize);
    }
  }

  lemma {:induction false} PullStreams(c: int, first: seq<Commit>, calls: seq<Call>, pageSize: nat)
    requires GrowingStores(first, calls)
    ensures PulledOk(LastStore(first, calls), c, Pull(c, first, calls, pageSize))
    decreases |calls|
  {
    if calls == [] {
      FetchStreams(first, c, [], Streamer([], c, false), pageSize);
    } else {
      var n := |calls| - 1;
      var before := calls[..n];
      PullStreams(c, first, before, pageSize);
      assert Grows(LastStore(first, before), calls[n].store);
      CalledStreams(c, LastStore(first, before), Pull(c, first, before, pageSize), calls[n], pageSize);
    }
  }

  lemma OutIsPrefix(store: seq<Commit>, c: int, out: seq<OrderedCommit>, st: Streamer)
    requires IsStore(store) && Streamed(store, c, out, st)
    ensures out <= Chain(c, GetFrom(store, c))
  {
    var b := Position(store, c);
    var read := Chain(c, GetFrom(store, c));
    var got := Chain(c, store[b..b + |out| + |st.queue|]);
    forall i | 0 <= i < |out| ensures out[i] == read[i] {
      assert out[i] == got[i];
    }
  }

  /** Whatever the page size and however the store grows between calls, the pairs returned by Next are the
      store read in order from just after the starting checkpoint, each with the checkpoint before it; and
      the streamer is finished exactly when nothing is queued. */
  lemma PagingReadsInOrder(c: int, first: seq<Commit>, calls: seq<Call>, pageSize: nat)
    requires GrowingStores(first, calls)
    ensures var p := Pull(c, first, calls, pageSize); var store := LastStore(first, calls);
      && p.out <= Chain(c, GetFrom(store, c))
      && p.st.finished == (p.st.queue == [])
  {
    PullStreams(c, first, calls, pageSize);
    var p := Pull(c, first, calls, pageSize);
    OutIsPrefix(LastStore(first, calls), c, p.out, p.st);
  }

  function NextCalls(store: seq<Commit>, n: nat): (calls: seq<Call>)
    requires IsStore(store)
    ensures |calls| == n && GrowingStores(store, calls) && LastStore(store, calls) == store
  {
    seq(n, i => Next(store))
  }

  /** Draining a store that no longer grows returns all of it: n calls to Next give min(n, all) pairs. */
  lemma {:induction false} FullDrain(c: int, store: seq<Commit>, n: nat, pageSize: nat)
    requires IsStore(store) && 0 < pageSize
    ensures var p := Pull(c, store, NextCalls(store, n), pageSize); var all := Chain(c, GetFrom(store, c));
      && p.out == (if n < |all| then all[..n] else all)
      && (p.st.finished <==> |all| <= n)
    decreases n
  {
    var calls := NextCalls(store, n);
    PullStreams(c, store, calls, pageSize);
    var p := Pull(c, store, calls, pageSize);
    DrainCounts(c, store, n, pageSize);
    PagingReadsInOrder(c, store, calls, pageSize);
  }

  lemma {:induction false} DrainCounts(c: int, store: seq<Commit>, n: nat, pageSize: nat)
    requires IsStore(store) && 0 < pageSize
    ensures var p := Pull(c, store, NextCalls(store, n), pageSize); var all := |GetFrom(store, c)|;
      && |p.out| == (if n < all then n else all)
      && (p.st.queue == [] <==> all <= n)
    decreases n
  {
    if n == 0 {
      FetchStreams(store, c, [], Streamer([], c, false), pageSize);
    } else {
      var before := NextCalls(store, n - 1);
      assert NextCalls(store, n)[..n - 1] == before;
      DrainCounts(c, store, n - 1, pageSize);
      PullStreams(c, store, before, pageSize);
      var p := Pull(c, store, before, pageSize);
      if p.st.queue != [] {
        NextStreams(store, c, p.out, p.st, pageSize);
      }
    }
  }

  // ------------------------------------------------------------------ what is read, and when

  /** A fetch queues a full page, or all that is left of the store. */
  lemma FetchTakesOnePage(st: Streamer, store: seq<Commit>, pageSize: nat)
    requires IsStore(store)
    ensures var left := |GetFrom(store, st.previous)|;
      |Fetch(st, store, pageSize).queue| == |st.queue| + (if left < pageSize then left else pageSize)
  {
  }

  /** The store is read only when nothing is queued; so there is never more than one page in the queue. */
  lemma ReadsOnlyWhenEmpty(st: Streamer, store: seq<Commit>, pageSize: nat)
    requires IsStore(store)
    ensures st.queue != [] ==> Peeked(st, store, pageSize) == st
    ensures 1 < |st.queue| ==> Nexted(st, store, pageSize) == st.(queue := st.queue[1..])
    ensures st.queue == [] ==> Peeked(st, store, pageSize) == Fetch(st, store, pageSize)
    ensures |st.queue| == 1 ==> Nexted(st, store, pageSize) == Fetch(st.(queue := []), store, pageSize)
  {
    if |st.queue| == 1 {
      assert st.queue[1..] == [];
    }
  }

  lemma {:induction false} AtMostOnePage(c: int, first: seq<Commit>, calls: seq<Call>, pageSize: nat)
    requires GrowingStores(first, calls)
    ensures |Pull(c, first, calls, pageSize).st.queue| <= pageSize
    decreases |calls|
  {
    if calls == [] {
      FetchTakesOnePage(Streamer([], c, false), first, pageSize);
    } else {
      var n := |calls| - 1;
      AtMostOnePage(c, first, calls[..n], pageSize);
      StaysOnePage(Pull(c, first, calls[..n], pageSize), calls[n], pageSize);
    }
  }

  lemma StaysOnePage(p: Pulled, call: Call, pageSize: nat)
    requires IsStore(call.store) && |p.st.queue| <= pageSize
    ensures |Called(p, call, pageSize).st.queue| <= pageSize
  {
    var st := if p.st.queue == [] then p.st else p.st.(queue := p.st.queue[1..]);
    FetchTakesOnePage(st, call.store, pageSize);
  }

  /** A reader with the default page size starts with up to 512 commits, and drains the store. */
  lemma DefaultReader(c: int, store: seq<Commit>, n: nat)
    requires IsStore(store)
    ensures var all := Chain(c, GetFrom(store, c));
      && Start(c, store, PAGE_SIZE).queue == (if |all| < 512 then all else all[..512])
      && Pull(c, store, NextCalls(store, n), PAGE_SIZE).out == (if n < |all| then all[..n] else all)
  {
    FullDrain(c, store, n, PAGE_SIZE);
    var all := Chain(c, GetFrom(store, c));
    var queue := Start(c, store, PAGE_SIZE).queue;
    assert queue == Chain(c, Page(store, c, PAGE_SIZE));
    assert forall i :: 0 <= i < |queue| ==> queue[i] == all[i];
  }

  // ------------------------------------------------------------------ what a catching-up processor relies on

  /** The queue is a linked run of truthful pairs that ends at the streamer's own checkpoint. */
  ghost predicate StreamerOk(store: seq<Commit>, st: Streamer) {
    && st.finished == (st.queue == [])
    && Linked(st.queue) && AllTruthful(store, st.queue)
    && IsCheckpoint(store, st.previous)
    && (st.queue != [] ==> st.queue[|st.queue| - 1].commit.token == st.previous)
  }

  /** The commits of the store that the streamer has not handed out yet. */
  ghost function Remaining(store: seq<Commit>, st: Streamer): nat
    requires IsStore(store)
  {
    |st.queue| + |GetFrom(store, st.previous)|
  }

  lemma PageIsLinked(store: seq<Commit>, c: int, pageSize: nat)
    requires IsStore(store)
    ensures var page := Page(store, c, pageSize); Linked(Chain(c, page)) && AllTruthful(store, Chain(c, page))
  {
    var page := Page(store, c, pageSize);
    var read := Chain(c, GetFrom(store, c));
    ReadingIsLinked(store, c);
    assert forall i :: 0 <= i < |page| ==> Chain(c, page)[i] == read[i];
  }

  lemma PageEnds(store: seq<Commit>, c: int, pageSize: nat)
    requires IsStore(store) && IsCheckpoint(store, c)
    ensures var page := Page(store, c, pageSize);
      && IsCheckpoint(store, EndOf(c, page))
      && |page| + |GetFrom(store, EndOf(c, page))| == |GetFrom(store, c)|
  {
    var page := Page(store, c, pageSize);
    if page != [] {
      var last := Position(store, c) + |page| - 1;
      assert page[|page| - 1] == store[last];
      PositionOfToken(store, last);
    }
  }

  lemma PageFacts(store: seq<Commit>, c: int, pageSize: nat)
    requires IsStore(store) && IsCheckpoint(store, c)
    ensures var page := Page(store, c, pageSize);
      && Linked(Chain(c, page)) && AllTruthful(store, Chain(c, page))
      && IsCheckpoint(store, EndOf(c, page))
      && |page| + |GetFrom(store, EndOf(c, page))| == |GetFrom(store, c)|
      && (0 < pageSize && page == [] ==> Head(store) <= c)
  {
    PageIsLinked(store, c, pageSize);
    PageEnds(store, c, pageSize);
  }

  /** A fresh streamer starts with a pair that follows its checkpoint, or has nothing to stream. */
  lemma StartOk(store: seq<Commit>, c: int, pageSize: nat)
    requires IsStore(store) && IsCheckpoint(store, c) && 0 < pageSize
    ensures var st := Start(c, store, pageSize);
      && StreamerOk(store, st)
      && (st.queue != [] ==> st.queue[0].previous == c)
      && (st.queue == [] ==> Head(store) <= c)
  {
    PageFacts(store, c, pageSize);
    assert [] + Chain(c, Page(store, c, pageSize)) == Chain(c, Page(store, c, pageSize));
  }

  lemma HandedOutOk(store: seq<Commit>, st: Streamer, rest: seq<OrderedCommit>)
    requires StreamerOk(store, st) && st.queue != [] && rest == st.queue[1..]
    ensures Linked(rest) && AllTruthful(store, rest) && Truthful(store, st.queue[0])
    ensures rest != [] ==> rest[0].previous == st.queue[0].commit.token
    ensures rest != [] ==> rest[|rest| - 1].commit.token == st.previous
    ensures rest == [] ==> st.queue[0].commit.token == st.previous
  {
    assert forall i :: 0 <= i < |rest| ==> rest[i] == st.queue[i + 1];
  }

  /** Next hands out one commit, and leaves a pair that follows it, or nothing when it was the store's last. */
  lemma NextOk(store: seq<Commit>, st: Streamer, pageSize: nat)
    requires IsStore(store) && StreamerOk(store, st) && st.queue != [] && 0 < pageSize
    ensures var st' := Nexted(st, store, pageSize); var o := st.queue[0];
      && StreamerOk(store, st')
      && Truthful(store, o)
      && Remaining(store, st') == Remaining(store, st) - 1
      && (st'.queue != [] ==> st'.queue[0].previous == o.commit.token)
      && (st'.queue == [] ==> Head(store) <= o.commit.token)
  {
    var rest := st.queue[1..];
    HandedOutOk(store, st, rest);
    if rest == [] {
      PageFacts(store, st.previous, pageSize);
      assert [] + Chain(st.previous, Page(store, st.previous, pageSize))
          == Chain(st.previous, Page(store, st.previous, pageSize));
    }
  }

  lemma StreamerOkGrows(s: seq<Commit>, s': seq<Commit>, st: Streamer)
    requires Grows(s, s') && StreamerOk(s, st)
    ensures StreamerOk(s', st)
  {
    AllTruthfulGrows(s, s', st.queue);
    CheckpointGrows(s, s', st.previous);
  }

  // ------------------------------------------------------------------ the reader itself

  class EventStreamer {
    const pageSize: nat
    var previousCheckpoint: int
    var queue: seq<OrderedCommit>
    var isFinished: bool

    ghost function State(): Streamer
      reads this
    {
      Streamer(queue, previousCheckpoint, isFinished)
    }

    constructor (startingCheckpoint: int, store: seq<Commit>, pageSize: nat := PAGE_SIZE)
      requires IsStore(store)
      ensures State() == Start(startingCheckpoint, store, pageSize)
      ensures this.pageSize == pageSize
    {
      this.pageSize := pageSize;
      previousCheckpoint := startingCheckpoint;
      queue := [];
      isFinished := false;
      new;
      FetchNextPage(store);
    }

    method FetchNextPage(store: seq<Commit>)
      requires IsStore(store)
      modifies this
      ensures State() == Fetch(old(State()), store, pageSize)
    {
      ghost var start := State();
      var commits := Page(store, previousCheckpoint, pageSize);
      for i := 0 to |commits|
        invariant queue == start.queue + Chain(start.previous, commits[..i])
        invariant previousCheckpoint == EndOf(start.previous, commits[..i])
      {
        assert commits[..i + 1] == commits[..i] + [commits[i]];
        ChainAppend(start.previous, commits[..i], [commits[i]]);
        queue := queue + [OrderedCommit(commits[i], previousCheckpoint)];
        previousCheckpoint := commits[i].token;
      }
      assert commits[..|commits|] == commits;
      isFinished := queue == [];
    }

    method Peek(store: seq<Commit>) returns (next: Option<OrderedCommit>)
      requires IsStore(store)
      modifies this
      ensures State() == Peeked(old(State()), store, pageSize)
      ensures next == if queue == [] then None else Some(queue[0])
    {
      if queue == [] {
        FetchNextPage(store);
      }
      if queue == [] {
        next := None;
      } else {
        next := Some(queue[0]);
      }
    }

    /** Dequeue throws on an empty queue, so callers check IsFinished first. */
    method Next(store: seq<Commit>) returns (nextCommit: OrderedCommit)
      requires IsStore(store) && queue != []
      modifies this
      ensures nextCommit == old(queue)[0]
      ensures State() == Nexted(old(State()), store, pageSize)
    {
      nextCommit := queue[0];
      queue := queue[1..];
      if queue == [] {
        FetchNextPage(store);
      }
    }
  }
}
