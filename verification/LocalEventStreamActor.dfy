/** The actor that turns one node's unordered commit notifications into an ordered local stream. */
module LocalEventStreamActor {
  import opened Prelude
  import opened CommitStore
  import opened InMemoryCommitSerialiserCache

  /** What the actor asks a new poller for. */
  datatype Request = SendHeadCommit | SendCommitsAfter(checkpoint: int)

  /** The actor's state, with the pairs it has published and the pollers it has started. */
  datatype Node = Node(
    last: Option<int>,
    cache: map<int, Commit>,
    published: seq<OrderedCommit>,
    requests: seq<Request>)

  function StreamAll(n: Node, run: seq<OrderedCommit>): Node {
    if run == [] then n
    else n.(last := Some(run[|run| - 1].commit.token), published := n.published + run)
  }

  /** A CommitNotification: cache, then stream from the cache, or go to the store. */
  function OnNotification(n: Node, commit: Commit, capacity: nat): Node
    requires WellKeyed(n.cache)
  {
    var cached := n.(cache := CacheStep(n.cache, commit, capacity));
    match n.last
    case None => cached.(requests := n.requests + [SendHeadCommit])
    case Some(last) =>
      var run := Run(cached.cache, last);
      if run != [] then StreamAll(cached, run)
      else cached.(requests := n.requests + [SendCommitsAfter(last)])
  }

  /** An OrderedCommitNotification sent by a poller: the first one is streamed, later ones only if they follow. */
  function OnOrdered(n: Node, o: OrderedCommit, capacity: nat): Node {
    match n.last
    case None => StreamAll(n.(cache := CacheStep(n.cache, o.commit, capacity)), [o])
    case Some(last) => if last == o.previous then StreamAll(n, [o]) else n
  }

  /** Before anything is streamed a notification publishes nothing; the commit is cached and the head asked for. */
  lemma NotifiedBeforeStreaming(n: Node, commit: Commit, capacity: nat, all: map<int, Commit>)
    requires WellKeyed(n.cache) && n.last.None? && IsTopK(n.cache, all, capacity)
    ensures var n' := OnNotification(n, commit, capacity);
      && n'.last.None? && n'.published == n.published && n'.requests == n.requests + [SendHeadCommit]
      && IsTopK(n'.cache, all[commit.token := commit], capacity)
  {
    CacheStepTopK(n.cache, all, commit, capacity);
  }

  /** A reply changes nothing unless it is the first thing streamed or follows what was streamed last. */
  lemma ReplyIgnoredExactly(n: Node, o: OrderedCommit, capacity: nat)
    ensures OnOrdered(n, o, capacity) == n <==> n.last.Some? && n.last.value != o.previous
    ensures OnOrdered(n, o, capacity).published == n.published + (if OnOrdered(n, o, capacity) == n then [] else [o])
    ensures OnOrdered(n, o, capacity).requests == n.requests
  {
    var n' := OnOrdered(n, o, capacity);
    if !(n.last.Some? && n.last.value != o.previous) {
      assert |n'.published| == |n.published| + 1;
    }
  }

  /** After a notification the cache never holds a commit that could still be streamed from it. */
  lemma NotificationDrainsCache(n: Node, commit: Commit, capacity: nat)
    requires WellKeyed(n.cache) && n.last.Some?
    ensures var n' := OnNotification(n, commit, capacity);
      && n'.last.Some?
      && n'.last.value + 1 !in n'.cache
      && n'.last.value - n.last.value == |n'.published| - |n.published| <= capacity
      && (n'.published == n.published <==> n'.requests == n.requests + [SendCommitsAfter(n.last.value)])
  {
    CacheStepContents(n.cache, commit, capacity);
    var cache := CacheStep(n.cache, commit, capacity);
    MaximalRun(cache, n.last.value);
    var run := Run(cache, n.last.value);
    if run != [] {
      assert run[|run| - 1].commit == cache[n.last.value + (|run| - 1) + 1];
    }
  }

  /** The actor delivering poll replies one after another. */
  function DeliverAll(n: Node, replies: seq<OrderedCommit>, capacity: nat): Node
    decreases |replies|
  {
    if replies == [] then n else DeliverAll(OnOrdered(n, replies[0], capacity), replies[1..], capacity)
  }

  lemma {:induction false} DeliverLinked(n: Node, replies: seq<OrderedCommit>, capacity: nat)
    requires Linked(replies) && n.last.Some? && (replies != [] ==> replies[0].previous == n.last.value)
    ensures DeliverAll(n, replies, capacity) == StreamAll(n, replies)
    decreases |replies|
  {
    if replies != [] {
      DeliverLinked(OnOrdered(n, replies[0], capacity), replies[1..], capacity);
      assert replies == [replies[0]] + replies[1..];
    }
  }

  /** The fast path refines the slow one: streaming from the cache publishes exactly what the first replies
      of a poll from the same checkpoint would have made the actor publish. */
  lemma FastPathRefinesPoll(n: Node, commit: Commit, capacity: nat, store: seq<Commit>)
    requires IsStore(store) && CachedFrom(n.cache, store) && commit in store && n.last.Some?
    ensures var run := Run(CacheStep(n.cache, commit, capacity), n.last.value);
      var replies := Chain(n.last.value, GetFrom(store, n.last.value));
      && |run| <= |replies|
      && OnNotification(n, commit, capacity).published == DeliverAll(n, replies[..|run|], capacity).published
      && OnNotification(n, commit, capacity).last == DeliverAll(n, replies[..|run|], capacity).last
  {
    CacheStepContents(n.cache, commit, capacity);
    var cache := CacheStep(n.cache, commit, capacity);
    var run := Run(cache, n.last.value);
    var replies := Chain(n.last.value, GetFrom(store, n.last.value));
    CacheAgreesWithStore(cache, store, n.last.value);
    assert replies[..|run|] == run;
    ReadingIsLinked(store, n.last.value);
    assert forall i :: 0 <= i < |run| ==> run[i] == replies[i];
    DeliverLinked(n, run, capacity);
  }

  class StreamActor {
    const cache: CommitCache
    var lastStreamedCheckpoint: Option<int>
    var eventStream: seq<OrderedCommit>
    var pollers: seq<Request>

    ghost predicate Valid()
      reads this, cache
    {
      WellKeyed(cache.commits)
    }

    ghost function State(): Node
      reads this, cache
    {
      Node(lastStreamedCheckpoint, cache.commits, eventStream, pollers)
    }

    /** Creation and PreStart, which asks a poller for the head commit. */
    constructor (cache: CommitCache)
      requires cache.commits == map[]
      ensures Valid() && this.cache == cache
      ensures State() == Node(None, map[], [], [SendHeadCommit])
    {
      this.cache := cache;
      lastStreamedCheckpoint := None;
      eventStream := [];
      pollers := [SendHeadCommit];
    }

    method ReceivedCommitNotification(commit: Commit)
      requires Valid()
      modifies this, cache
      ensures Valid()
      ensures State() == OnNotification(old(State()), commit, cache.maxNumberOfCommitsToCache)
    {
      CacheStepContents(cache.commits, commit, cache.maxNumberOfCommitsToCache);
      cache.Cache(commit);
      match lastStreamedCheckpoint
      case None =>
        pollers := pollers + [SendHeadCommit];
      case Some(last) =>
        var cachedCommits := cache.GetCommitsAfter(last);
        if 0 < |cachedCommits| {
          ghost var before := State();
          for i := 0 to |cachedCommits|
            invariant State() == StreamAll(before, cachedCommits[..i])
            invariant cache.commits == before.cache
          {
            assert cachedCommits[..i + 1] == cachedCommits[..i] + [cachedCommits[i]];
            StreamCommit(cachedCommits[i]);
          }
          assert cachedCommits[..|cachedCommits|] == cachedCommits;
        } else {
          pollers := pollers + [SendCommitsAfter(last)];
        }
    }

    method ReceivedOrderedCommitNotification(msg: OrderedCommit)
      requires Valid()
      modifies this, cache
      ensures Valid()
      ensures State() == OnOrdered(old(State()), msg, cache.maxNumberOfCommitsToCache)
    {
      if lastStreamedCheckpoint.None? {
        CacheStepContents(cache.commits, msg.commit, cache.maxNumberOfCommitsToCache);
        cache.Cache(msg.commit);
        StreamCommit(msg);
      } else if lastStreamedCheckpoint.value == msg.previous {
        StreamCommit(msg);
      }
    }

    method StreamCommit(msg: OrderedCommit)
      modifies this
      ensures State() == StreamAll(old(State()), [msg])
    {
      lastStreamedCheckpoint := Some(msg.commit.token);
      eventStream := eventStream + [msg];
    }
  }
}
