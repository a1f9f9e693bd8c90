/** One node's ordering protocol over whole runs: the stream actor, any number of pollers at work at the
    same time, notifications that are lost, repeated or late, and a store that grows meanwhile. */
module LocalOrdering {
  import opened Prelude
  import opened CommitStore
  import opened InMemoryCommitSerialiserCache
  import opened EventStorePollerActor
  import opened LocalEventStreamActor

  /** A poller's replies that are still on their way, and the last checkpoint it read. */
  datatype Poll = Poll(remaining: seq<OrderedCommit>, readUpTo: int, ofHead: bool)

  datatype Sys = Sys(store: seq<Commit>, node: Node, polls: seq<Poll>)

  datatype Step =
    | Append(commit: Commit)
    | Notify(commit: Commit)                            // any commit of the store, at any time, any number of times
    | RunHeadPoller(request: nat, raced: seq<Commit>)   // raced: appended between the poller's two reads
    | RunPoller(request: nat)
    | DropRequest(request: nat)                         // the poller died before replying
    | Deliver(poll: nat)
    | AbandonPoll(poll: nat)                            // its remaining replies are lost

  function Init(store: seq<Commit>): Sys {
    Sys(store, Node(None, map[], [], [SendHeadCommit]), [])
  }

  function RequestAt(sys: Sys, i: nat): Option<Request> {
    if i < |sys.node.requests| then Some(sys.node.requests[i]) else None
  }

  function Forget(n: Node, i: nat): Node
    requires i < |n.requests|
  {
    n.(requests := RemoveAt(n.requests, i))
  }

  function AfterPoll(store: seq<Commit>, checkpoint: int): Poll
    requires IsStore(store)
  {
    Poll(Chain(checkpoint, GetFrom(store, checkpoint)), Max(checkpoint, Head(store)), false)
  }

  /** One step; a step that is not possible changes nothing. */
  ghost function Apply(sys: Sys, capacity: nat, step: Step): Sys
    requires IsStore(sys.store) && WellKeyed(sys.node.cache)
  {
    match step
    case Append(commit) =>
      if Head(sys.store) < commit.token then sys.(store := sys.store + [commit]) else sys
    case Notify(commit) =>
      if commit in sys.store then sys.(node := OnNotification(sys.node, commit, capacity)) else sys
    case RunHeadPoller(i, raced) =>
      if RequestAt(sys, i) == Some(SendHeadCommit) && IsStore(sys.store + raced) then
        var loaded := sys.store + raced;
        match HeadReply(sys.store, loaded)
        case None => sys.(store := loaded, node := Forget(sys.node, i))
        case Some(o) =>
          sys.(store := loaded, node := Forget(sys.node, i), polls := sys.polls + [Poll([o], o.commit.token, true)])
      else sys
    case RunPoller(i) =>
      if i < |sys.node.requests| && sys.node.requests[i].SendCommitsAfter? then
        var poll := AfterPoll(sys.store, sys.node.requests[i].checkpoint);
        sys.(node := Forget(sys.node, i), polls := sys.polls + [poll])
      else sys
    case DropRequest(i) =>
      if i < |sys.node.requests| then sys.(node := Forget(sys.node, i)) else sys
    case Deliver(p) =>
      if p < |sys.polls| && sys.polls[p].remaining != [] then
        var poll := sys.polls[p];
        sys.(node := OnOrdered(sys.node, poll.remaining[0], capacity),
             polls := sys.polls[p := poll.(remaining := poll.remaining[1..])])
      else sys
    case AbandonPoll(p) =>
      if p < |sys.polls| then sys.(polls := RemoveAt(sys.polls, p)) else sys
  }

  // ------------------------------------------------------------------ the invariant

  /** Every pair starts from a checkpoint: none before the beginning of the store. */
  ghost predicate FromCheckpoints(os: seq<OrderedCommit>) {
    forall i :: 0 <= i < |os| ==> 0 <= os[i].previous
  }

  ghost predicate NodeOk(store: seq<Commit>, n: Node) {
    && CachedFrom(n.cache, store)
    && Linked(n.published) && AllTruthful(store, n.published) && FromCheckpoints(n.published)
    && (n.last.None? <==> n.published == [])
    && (n.last.Some? ==> n.last.value == n.published[|n.published| - 1].commit.token)
  }

  ghost predicate Reached(last: Option<int>, checkpoint: int) {
    last.Some? && checkpoint <= last.value
  }

  /** A poll is only ever started from a checkpoint that has been streamed. */
  ghost predicate RequestOk(last: Option<int>, r: Request) {
    r.SendCommitsAfter? ==> 0 <= r.checkpoint && Reached(last, r.checkpoint)
  }

  /** Whatever a poll still has to deliver, the stream has already reached the checkpoint before it. */
  ghost predicate PollOk(store: seq<Commit>, last: Option<int>, p: Poll) {
    && Linked(p.remaining) && AllTruthful(store, p.remaining) && FromCheckpoints(p.remaining)
    && (!p.ofHead && p.remaining == [] ==> Reached(last, p.readUpTo))
    && (!p.ofHead && p.remaining != [] ==>
        && Reached(last, p.remaining[0].previous)
        && p.remaining[|p.remaining| - 1].commit.token == p.readUpTo)
  }

  ghost predicate Inv(sys: Sys) {
    && IsStore(sys.store)
    && NodeOk(sys.store, sys.node)
    && (forall i :: 0 <= i < |sys.node.requests| ==> RequestOk(sys.node.last, sys.node.requests[i]))
    && (forall p :: 0 <= p < |sys.polls| ==> PollOk(sys.store, sys.node.last, sys.polls[p]))
  }

  // ------------------------------------------------------------------ what the steps keep

  ghost predicate Advances(a: Option<int>, b: Option<int>) {
    a.Some? ==> b.Some? && a.value <= b.value
  }

  lemma PollOkGrows(s: seq<Commit>, s': seq<Commit>, a: Option<int>, b: Option<int>, p: Poll)
    requires Grows(s, s') && Advances(a, b) && PollOk(s, a, p)
    ensures PollOk(s', b, p)
  {
    AllTruthfulGrows(s, s', p.remaining);
  }

  lemma NodeOkGrows(s: seq<Commit>, s': seq<Commit>, n: Node)
    requires Grows(s, s') && NodeOk(s, n)
    ensures NodeOk(s', n)
  {
    AllTruthfulGrows(s, s', n.published);
    forall t | t in n.cache ensures n.cache[t] in s' {
      assert n.cache[t] in s;
    }
  }

  lemma CacheStepFrom(m: map<int, Commit>, c: Commit, capacity: nat, store: seq<Commit>)
    requires CachedFrom(m, store) && c in store
    ensures CachedFrom(CacheStep(m, c, capacity), store)
  {
    CacheStepContents(m, c, capacity);
  }

  /** Streaming a linked, truthful run that follows the last streamed checkpoint (or is the first one). */
  lemma StreamKeepsOk(store: seq<Commit>, n: Node, run: seq<OrderedCommit>)
    requires IsStore(store) && NodeOk(store, n) && run != []
    requires Linked(run) && AllTruthful(store, run) && FromCheckpoints(run)
    requires n.last.Some? ==> run[0].previous == n.last.value
    ensures NodeOk(store, StreamAll(n, run))
    ensures Advances(n.last, StreamAll(n, run).last)
    ensures Reached(StreamAll(n, run).last, run[0].commit.token)
  {
    LinkedRises(store, run);
  }

  lemma LinkedRises(store: seq<Commit>, run: seq<OrderedCommit>)
    requires IsStore(store) && run != [] && Linked(run) && AllTruthful(store, run)
    ensures run[0].previous < run[0].commit.token <= run[|run| - 1].commit.token
    decreases |run|
  {
    if 1 < |run| {
      LinkedRises(store, run[1..]);
      assert run[1..][|run| - 2] == run[|run| - 1];
    }
  }

  lemma LastIsToken(store: seq<Commit>, n: Node)
    requires IsStore(store) && NodeOk(store, n) && n.last.Some?
    ensures IsCheckpoint(store, n.last.value) && 0 < n.last.value <= Head(store)
  {
    var lastPair := n.published[|n.published| - 1];
    assert Truthful(store, lastPair);
    TokenIsCheckpoint(store, lastPair.commit);
  }

  lemma NotificationKeepsOk(store: seq<Commit>, n: Node, commit: Commit, capacity: nat)
    requires IsStore(store) && NodeOk(store, n) && commit in store
    ensures var n' := OnNotification(n, commit, capacity);
      && NodeOk(store, n') && Advances(n.last, n'.last)
      && forall r :: r in n'.requests ==> r in n.requests || RequestOk(n'.last, r)
  {
    CacheStepFrom(n.cache, commit, capacity, store);
    if n.last.Some? {
      var cache := CacheStep(n.cache, commit, capacity);
      var run := Run(cache, n.last.value);
      LastIsToken(store, n);
      CacheAgreesWithStore(cache, store, n.last.value);
      ReadingIsLinked(store, n.last.value);
      var read := Chain(n.last.value, GetFrom(store, n.last.value));
      assert forall i :: 0 <= i < |run| ==> run[i] == read[i];
      if run != [] {
        StreamKeepsOk(store, n.(cache := cache), run);
      }
    }
  }

  /** Handling a truthful reply keeps the stream in order. If the stream had reached the checkpoint before
      the reply, it has reached the reply's commit afterwards, whether the reply was streamed or ignored. */
  lemma ReplyKeepsOk(store: seq<Commit>, n: Node, o: OrderedCommit, capacity: nat)
    requires IsStore(store) && NodeOk(store, n) && Truthful(store, o) && 0 <= o.previous
    ensures var n' := OnOrdered(n, o, capacity);
      && NodeOk(store, n') && Advances(n.last, n'.last) && n'.requests == n.requests
      && (Reached(n.last, o.previous) ==> Reached(n'.last, o.commit.token))
  {
    if n.last.None? {
      CacheStepFrom(n.cache, o.commit, capacity, store);
      StreamKeepsOk(store, n.(cache := CacheStep(n.cache, o.commit, capacity)), [o]);
    } else if n.last.value == o.previous {
      StreamKeepsOk(store, n, [o]);
    } else if o.previous < n.last.value {
      LastIsToken(store, n);
      PastPreviousReachesCommit(store, o, n.last.value);
    }
  }

  /** A reply to SendHeadCommit has no such guarantee: it is of use exactly when nothing has been streamed
      yet or the stream has already reached the checkpoint before the head. */
  lemma HeadReplyReachesHead(store: seq<Commit>, n: Node, o: OrderedCommit, capacity: nat)
    requires IsStore(store) && NodeOk(store, n) && Truthful(store, o) && 0 <= o.previous
    ensures Reached(OnOrdered(n, o, capacity).last, o.commit.token) <==> n.last.None? || Reached(n.last, o.previous)
  {
    ReplyKeepsOk(store, n, o, capacity);
  }

  /** What every step does: the invariant holds again, nothing streamed is taken back, the store only grows. */
  ghost predicate Keeps(sys: Sys, sys': Sys) {
    Inv(sys') && Grows(sys.store, sys'.store) && Advances(sys.node.last, sys'.node.last)
  }

  lemma StepKeepsInv(sys: Sys, capacity: nat, step: Step)
    requires Inv(sys)
    ensures Keeps(sys, Apply(sys, capacity, step))
  {
    match step {
      case Append(commit) =>
        if Head(sys.store) < commit.token {
          AppendGrows(sys.store, commit);
          SameNodeLaterStore(sys, sys.store + [commit]);
        }
      case Notify(commit) =>
        if commit in sys.store {
          NotificationKeepsOk(sys.store, sys.node, commit, capacity);
          LaterNode(sys, OnNotification(sys.node, commit, capacity));
        }
      case RunHeadPoller(i, raced) => RunHeadPollerKeepsInv(sys, capacity, i, raced);
      case RunPoller(i) => RunPollerKeepsInv(sys, capacity, i);
      case DropRequest(i) =>
        if i < |sys.node.requests| {
          LaterNode(sys, Forget(sys.node, i));
        }
      case Deliver(p) => DeliverKeepsInv(sys, capacity, p);
      case AbandonPoll(p) =>
    }
  }

  lemma HeadPollOk(queried: seq<Commit>, loaded: seq<Commit>, last: Option<int>, o: OrderedCommit)
    requires Grows(queried, loaded) && HeadReply(queried, loaded) == Some(o)
    ensures PollOk(loaded, last, Poll([o], o.commit.token, true))
  {
    HeadReplyIsTruthful(queried, loaded);
    AtMostHead(queried, o.previous);
  }

  lemma RunHeadPollerKeepsInv(sys: Sys, capacity: nat, i: nat, raced: seq<Commit>)
    requires Inv(sys)
    ensures Keeps(sys, Apply(sys, capacity, RunHeadPoller(i, raced)))
  {
    if RequestAt(sys, i) == Some(SendHeadCommit) && IsStore(sys.store + raced) {
      var loaded := sys.store + raced;
      SameNodeLaterStore(sys, loaded);
      var later := sys.(store := loaded);
      LaterNode(later, Forget(later.node, i));
      if HeadReply(sys.store, loaded).Some? {
        var o := HeadReply(sys.store, loaded).value;
        HeadPollOk(sys.store, loaded, sys.node.last, o);
        PollStarted(later.(node := Forget(later.node, i)), Poll([o], o.commit.token, true));
      }
    }
  }

  lemma RunPollerKeepsInv(sys: Sys, capacity: nat, i: nat)
    requires Inv(sys)
    ensures Keeps(sys, Apply(sys, capacity, RunPoller(i)))
  {
    if i < |sys.node.requests| && sys.node.requests[i].SendCommitsAfter? {
      NewPollOk(sys.store, sys.node, sys.node.requests[i].checkpoint);
      LaterNode(sys, Forget(sys.node, i));
      PollStarted(sys.(node := Forget(sys.node, i)), AfterPoll(sys.store, sys.node.requests[i].checkpoint));
    }
  }

  lemma PollStarted(sys: Sys, poll: Poll)
    requires Inv(sys) && PollOk(sys.store, sys.node.last, poll)
    ensures Inv(sys.(polls := sys.polls + [poll]))
  {
  }

  lemma DeliverKeepsInv(sys: Sys, capacity: nat, p: nat)
    requires Inv(sys)
    ensures Keeps(sys, Apply(sys, capacity, Deliver(p)))
  {
    if p < |sys.polls| && sys.polls[p].remaining != [] {
      ReplyKeepsOk(sys.store, sys.node, sys.polls[p].remaining[0], capacity);
      LaterNode(sys, OnOrdered(sys.node, sys.polls[p].remaining[0], capacity));
      DeliveredPollOk(sys.store, sys.node, sys.polls[p], capacity);
    }
  }

  lemma SameNodeLaterStore(sys: Sys, store: seq<Commit>)
    requires Inv(sys) && Grows(sys.store, store)
    ensures Inv(sys.(store := store))
  {
    NodeOkGrows(sys.store, store, sys.node);
    forall p | 0 <= p < |sys.polls| ensures PollOk(store, sys.node.last, sys.polls[p]) {
      PollOkGrows(sys.store, store, sys.node.last, sys.node.last, sys.polls[p]);
    }
  }

  lemma LaterNode(sys: Sys, n: Node)
    requires Inv(sys) && NodeOk(sys.store, n) && Advances(sys.node.last, n.last)
    requires forall r :: r in n.requests ==> r in sys.node.requests || RequestOk(n.last, r)
    ensures Inv(sys.(node := n))
  {
    forall p | 0 <= p < |sys.polls| ensures PollOk(sys.store, n.last, sys.polls[p]) {
      PollOkGrows(sys.store, sys.store, sys.node.last, n.last, sys.polls[p]);
    }
    forall i | 0 <= i < |n.requests| ensures RequestOk(n.last, n.requests[i]) {
      assert n.requests[i] in n.requests;
    }
  }

  lemma NewPollOk(store: seq<Commit>, n: Node, checkpoint: int)
    requires IsStore(store) && NodeOk(store, n) && 0 <= checkpoint && Reached(n.last, checkpoint)
    ensures PollOk(store, n.last, AfterPoll(store, checkpoint))
  {
    ReadingIsLinked(store, checkpoint);
    LastIsToken(store, n);
  }

  lemma DeliveredPollOk(store: seq<Commit>, n: Node, p: Poll, capacity: nat)
    requires IsStore(store) && NodeOk(store, n) && PollOk(store, n.last, p) && p.remaining != []
    ensures PollOk(store, OnOrdered(n, p.remaining[0], capacity).last, p.(remaining := p.remaining[1..]))
  {
    ReplyKeepsOk(store, n, p.remaining[0], capacity);
    var rest := p.remaining[1..];
    assert forall i :: 0 <= i < |rest| ==> rest[i] == p.remaining[i + 1];
    if rest != [] {
      assert p.remaining[1].previous == p.remaining[0].commit.token;
    }
  }

  // ------------------------------------------------------------------ what becomes of a notified commit

  /** A poll was just requested that will read up to the commit. */
  ghost predicate CoveredByPoll(store: seq<Commit>, n: Node, n': Node, c: Commit)
    requires IsStore(store)
  {
    && n.last.Some?
    && n'.requests == n.requests + [SendCommitsAfter(n.last.value)]
    && c.token <= AfterPoll(store, n.last.value).readUpTo
  }

  /** The cache can go on from the last streamed checkpoint, but has a gap at or before the commit. */
  predicate StopsShort(cache: map<int, Commit>, last: int, c: Commit) {
    last + 1 in cache && exists t :: last < t <= c.token && t !in cache
  }

  /** Once something has been streamed, a notified commit has been streamed afterwards, or a poll that reads it
      has been requested, with one exception: the commits cached after the last streamed one are streamed as far
      as they go, and if that is not far enough no poll is requested. */
  lemma NotifiedUnlessStopsShort(store: seq<Commit>, n: Node, c: Commit, capacity: nat)
    requires IsStore(store) && NodeOk(store, n) && c in store && n.last.Some?
    ensures var n' := OnNotification(n, c, capacity);
      (Reached(n'.last, c.token) || CoveredByPoll(store, n, n', c))
      <==> !StopsShort(CacheStep(n.cache, c, capacity), n.last.value, c)
  {
    var last := n.last.value;
    var cache := CacheStep(n.cache, c, capacity);
    var run := Run(cache, last);
    TokenIsCheckpoint(store, c);
    CacheStepFrom(n.cache, c, capacity, store);
    MaximalRun(cache, last);
    if last + 1 in cache {
      RunReaches(cache, last, c.token);
    } else {
      assert run == [];
    }
  }

  /** The run after a checkpoint gets to a token exactly when there is no gap before it. */
  lemma RunReaches(m: map<int, Commit>, last: int, token: int)
    requires WellKeyed(m) && last + 1 in m
    ensures Run(m, last) != []
    ensures Run(m, last)[|Run(m, last)| - 1].commit.token == last + |Run(m, last)|
    ensures token <= last + |Run(m, last)| <==> !exists t :: last < t <= token && t !in m
  {
    MaximalRun(m, last);
    var run := Run(m, last);
    var n := |run|;
    assert run[n - 1].commit == m[last + (n - 1) + 1];
    forall t | last < t <= last + n ensures t in m {
      assert last + (t - last - 1) + 1 == t && run[t - last - 1].commit == m[t];
    }
  }

  // ------------------------------------------------------------------ whole runs

  /** The state after any sequence of steps from any initial store. */
  ghost function Execute(store: seq<Commit>, capacity: nat, steps: seq<Step>): (sys: Sys)
    requires IsStore(store)
    ensures Inv(sys)
    decreases |steps|
  {
    if steps == [] then Init(store)
    else
      var sys := Execute(store, capacity, steps[..|steps| - 1]);
      StepKeepsInv(sys, capacity, steps[|steps| - 1]);
      Apply(sys, capacity, steps[|steps| - 1])
  }

  /** Ordering safety: in every run the published stream is a contiguous slice of the store, read in order,
      each pair truthful and pointing back to the one published before it. */
  lemma PublishedStreamIsOrdered(store: seq<Commit>, capacity: nat, steps: seq<Step>)
    requires IsStore(store)
    ensures var sys := Execute(store, capacity, steps); var published := sys.node.published;
      && AllTruthful(sys.store, published)
      && (forall i, j :: 0 <= i < j < |published| ==> published[i].commit.token < published[j].commit.token)
      && (published != [] ==>
          && sys.node.last == Some(published[|published| - 1].commit.token)
          && published
             == Chain(published[0].previous, Slice(sys.store, published[0].previous, sys.node.last.value)))
  {
    var sys := Execute(store, capacity, steps);
    var published := sys.node.published;
    if published != [] {
      LinkedIsSlice(sys.store, published);
      forall i, j | 0 <= i < j < |published| ensures published[i].commit.token < published[j].commit.token {
        LinkedAt(sys.store, published, i);
        LinkedAt(sys.store, published, j);
      }
    }
  }

  /** Poll completeness: in every run, once all replies of a poll have been handled, in whatever way they
      were interleaved with notifications and other polls, the stream has reached everything it read. */
  lemma PollsComplete(store: seq<Commit>, capacity: nat, steps: seq<Step>, p: nat)
    requires IsStore(store)
    requires p < |Execute(store, capacity, steps).polls|
    ensures var sys := Execute(store, capacity, steps); var poll := sys.polls[p];
      !poll.ofHead && poll.remaining == [] ==> sys.node.last.Some? && poll.readUpTo <= sys.node.last.value
  {
    var sys := Execute(store, capacity, steps);
    assert PollOk(sys.store, sys.node.last, sys.polls[p]);
  }

  lemma PublishedFromCheckpoints(store: seq<Commit>, capacity: nat, steps: seq<Step>, i: nat)
    requires IsStore(store) && i < |Execute(store, capacity, steps).node.published|
    ensures var sys := Execute(store, capacity, steps);
      Truthful(sys.store, sys.node.published[i]) && 0 <= sys.node.published[i].previous
  {
    var sys := Execute(store, capacity, steps);
    assert NodeOk(sys.store, sys.node);
  }

  // ------------------------------------------------------------------ the node's cache over whole runs

  /** The commit that a step makes the node cache: every notified one, and the first one streamed. */
  ghost function Hears(sys: Sys, step: Step): seq<Commit> {
    match step
    case Notify(commit) => if commit in sys.store then [commit] else []
    case Deliver(p) =>
      if p < |sys.polls| && sys.polls[p].remaining != [] && sys.node.last.None? then [sys.polls[p].remaining[0].commit]
      else []
    case _ => []
  }

  /** All commits a run has made the node cache, oldest first. */
  ghost function Heard(store: seq<Commit>, capacity: nat, steps: seq<Step>): seq<Commit>
    requires IsStore(store)
    decreases |steps|
  {
    if steps == [] then []
    else
      var n := |steps| - 1;
      Heard(store, capacity, steps[..n]) + Hears(Execute(store, capacity, steps[..n]), steps[n])
  }

  lemma StepCaches(sys: Sys, capacity: nat, step: Step)
    requires Inv(sys)
    ensures var heard := Hears(sys, step); var cache := Apply(sys, capacity, step).node.cache;
      cache == if heard == [] then sys.node.cache else CacheStep(sys.node.cache, heard[0], capacity)
    ensures |Hears(sys, step)| <= 1
  {
  }

  lemma CachesOneMore(history: seq<Commit>, heard: seq<Commit>, cache: map<int, Commit>, cache': map<int, Commit>,
    capacity: nat)
    requires |heard| <= 1 && cache == CacheAll(history, capacity)
    requires cache' == if heard == [] then cache else CacheStep(cache, heard[0], capacity)
    ensures cache' == CacheAll(history + heard, capacity)
  {
    if heard == [] {
      assert history + heard == history;
    } else {
      assert (history + heard)[..|history|] == history;
    }
  }

  lemma {:induction false} CacheIsOfHeard(store: seq<Commit>, capacity: nat, steps: seq<Step>)
    requires IsStore(store)
    ensures Execute(store, capacity, steps).node.cache == CacheAll(Heard(store, capacity, steps), capacity)
    decreases |steps|
  {
    if steps != [] {
      var n := |steps| - 1;
      var sys := Execute(store, capacity, steps[..n]);
      CacheIsOfHeard(store, capacity, steps[..n]);
      StepCaches(sys, capacity, steps[n]);
      CachesOneMore(Heard(store, capacity, steps[..n]), Hears(sys, steps[n]), sys.node.cache,
        Apply(sys, capacity, steps[n]).node.cache, capacity);
    }
  }

  /** In every run the node's cache holds exactly the largest tokens of all commits notified, before and after the
      first one streamed, and of that first one. */
  lemma CacheHoldsTopOfHeard(store: seq<Commit>, capacity: nat, steps: seq<Step>)
    requires IsStore(store)
    ensures IsTopK(Execute(store, capacity, steps).node.cache, Latest(Heard(store, capacity, steps)), capacity)
  {
    CacheIsOfHeard(store, capacity, steps);
    OnlineTopK(Heard(store, capacity, steps), capacity);
  }

  // ------------------------------------------------------------------ notified commits over whole runs

  /** A poll is lost before or while it replies. */
  predicate LosesPoll(step: Step) {
    step.DropRequest? || step.AbandonPoll?
  }

  /** The token has been streamed, or a poll that reads it has been requested or is under way. */
  ghost predicate OnItsWay(sys: Sys, token: int) {
    && token <= Head(sys.store)
    && (|| Reached(sys.node.last, token)
        || (exists r :: r in sys.node.requests && r.SendCommitsAfter?)
        || PollReads(sys.polls, token))
  }

  ghost predicate PollReads(polls: seq<Poll>, token: int) {
    exists p :: 0 <= p < |polls| && !polls[p].ofHead && token <= polls[p].readUpTo
  }

  /** Every poll from a checkpoint has been run and all its replies handled. */
  ghost predicate AllHandled(sys: Sys) {
    && (forall r :: r in sys.node.requests ==> r.SendHeadCommit?)
    && forall p :: 0 <= p < |sys.polls| && !sys.polls[p].ofHead ==> sys.polls[p].remaining == []
  }

  lemma HandledIsReached(sys: Sys, token: int)
    requires Inv(sys) && OnItsWay(sys, token) && AllHandled(sys)
    ensures Reached(sys.node.last, token)
  {
    if PollReads(sys.polls, token) {
      var p :| 0 <= p < |sys.polls| && !sys.polls[p].ofHead && token <= sys.polls[p].readUpTo;
      assert PollOk(sys.store, sys.node.last, sys.polls[p]);
    }
  }

  lemma StillReads(polls: seq<Poll>, polls': seq<Poll>, token: int)
    requires PollReads(polls, token) && |polls| <= |polls'|
    requires forall p :: 0 <= p < |polls| ==>
      polls'[p].ofHead == polls[p].ofHead && polls'[p].readUpTo == polls[p].readUpTo
    ensures PollReads(polls', token)
  {
    var p :| 0 <= p < |polls| && !polls[p].ofHead && token <= polls[p].readUpTo;
    assert !polls'[p].ofHead && token <= polls'[p].readUpTo;
  }

  lemma OtherRequestsStay(requests: seq<Request>, i: nat, r: Request)
    requires i < |requests| && r in requests && r != requests[i]
    ensures r in RemoveAt(requests, i)
  {
    var k :| 0 <= k < |requests| && requests[k] == r;
    assert RemoveAt(requests, i)[if k < i then k else k - 1] == r;
  }

  lemma RunHeadPollerKeepsOnItsWay(sys: Sys, capacity: nat, i: nat, raced: seq<Commit>, token: int)
    requires Inv(sys) && OnItsWay(sys, token)
    ensures OnItsWay(Apply(sys, capacity, RunHeadPoller(i, raced)), token)
  {
    if RequestAt(sys, i) == Some(SendHeadCommit) && IsStore(sys.store + raced) {
      var sys' := Apply(sys, capacity, RunHeadPoller(i, raced));
      HeadGrows(sys.store, sys.store + raced);
      if r :| r in sys.node.requests && r.SendCommitsAfter? {
        OtherRequestsStay(sys.node.requests, i, r);
      } else if PollReads(sys.polls, token) {
        StillReads(sys.polls, sys'.polls, token);
      }
    }
  }

  lemma RunPollerKeepsOnItsWay(sys: Sys, capacity: nat, i: nat, token: int)
    requires Inv(sys) && OnItsWay(sys, token)
    ensures OnItsWay(Apply(sys, capacity, RunPoller(i)), token)
  {
    if i < |sys.node.requests| && sys.node.requests[i].SendCommitsAfter? {
      var sys' := Apply(sys, capacity, RunPoller(i));
      var p := |sys.polls|;
      assert !sys'.polls[p].ofHead && token <= sys'.polls[p].readUpTo;
    }
  }

  lemma DeliverKeepsOnItsWay(sys: Sys, capacity: nat, p: nat, token: int)
    requires Inv(sys) && OnItsWay(sys, token)
    ensures OnItsWay(Apply(sys, capacity, Deliver(p)), token)
  {
    if p < |sys.polls| && sys.polls[p].remaining != [] {
      var o := sys.polls[p].remaining[0];
      ReplyKeepsOk(sys.store, sys.node, o, capacity);
      if PollReads(sys.polls, token) {
        StillReads(sys.polls, Apply(sys, capacity, Deliver(p)).polls, token);
      }
    }
  }

  lemma StepKeepsOnItsWay(sys: Sys, capacity: nat, step: Step, token: int)
    requires Inv(sys) && OnItsWay(sys, token) && !LosesPoll(step)
    ensures OnItsWay(Apply(sys, capacity, step), token)
  {
    match step
    case Append(commit) =>
    case Notify(commit) =>
      if commit in sys.store {
        NotificationKeepsOk(sys.store, sys.node, commit, capacity);
        RequestsStay(sys.node, commit, capacity);
      }
    case RunHeadPoller(i, raced) => RunHeadPollerKeepsOnItsWay(sys, capacity, i, raced, token);
    case RunPoller(i) => RunPollerKeepsOnItsWay(sys, capacity, i, token);
    case Deliver(p) => DeliverKeepsOnItsWay(sys, capacity, p, token);
  }

  lemma RequestsStay(n: Node, commit: Commit, capacity: nat)
    requires WellKeyed(n.cache)
    ensures forall r :: r in n.requests ==> r in OnNotification(n, commit, capacity).requests
  {
  }

  predicate LosesNoPoll(steps: seq<Step>) {
    steps == [] || (LosesNoPoll(steps[..|steps| - 1]) && !LosesPoll(steps[|steps| - 1]))
  }

  lemma OneMore(store: seq<Commit>, capacity: nat, steps: seq<Step>, step: Step)
    requires IsStore(store)
    ensures Execute(store, capacity, steps + [step]) == Apply(Execute(store, capacity, steps), capacity, step)
  {
    assert (steps + [step])[..|steps|] == steps;
  }

  lemma OneMoreOnItsWay(store: seq<Commit>, capacity: nat, steps: seq<Step>, step: Step, token: int)
    requires IsStore(store) && OnItsWay(Execute(store, capacity, steps), token) && !LosesPoll(step)
    ensures OnItsWay(Execute(store, capacity, steps + [step]), token)
  {
    OneMore(store, capacity, steps, step);
    StepKeepsOnItsWay(Execute(store, capacity, steps), capacity, step, token);
  }

  lemma {:induction false} StaysOnItsWay(store: seq<Commit>, capacity: nat, before: seq<Step>, after: seq<Step>,
    token: int)
    requires IsStore(store) && OnItsWay(Execute(store, capacity, before), token) && LosesNoPoll(after)
    ensures OnItsWay(Execute(store, capacity, before + after), token)
    decreases |after|
  {
    if after == [] {
      assert before + after == before;
    } else {
      var n := |after| - 1;
      StaysOnItsWay(store, capacity, before, after[..n], token);
      LastApart(before, after);
      OneMoreOnItsWay(store, capacity, before + after[..n], after[n], token);
    }
  }

  lemma NotifiedIsOnItsWay(sys: Sys, capacity: nat, c: Commit)
    requires Inv(sys) && c in sys.store && sys.node.last.Some?
    requires !StopsShort(CacheStep(sys.node.cache, c, capacity), sys.node.last.value, c)
    ensures OnItsWay(Apply(sys, capacity, Notify(c)), c.token)
  {
    NotifiedUnlessStopsShort(sys.store, sys.node, c, capacity);
    TokenIsCheckpoint(sys.store, c);
    var sys' := Apply(sys, capacity, Notify(c));
    if !Reached(sys'.node.last, c.token) {
      assert SendCommitsAfter(sys.node.last.value) in sys'.node.requests;
    }
  }

  /** In every run in which a commit is notified after something was streamed, without stopping short of it, and
      no poll is lost from then on: once all polls are handled, the stream has reached the commit. */
  lemma NotifiedIsStreamed(store: seq<Commit>, capacity: nat, before: seq<Step>, c: Commit, after: seq<Step>)
    requires IsStore(store) && LosesNoPoll(after)
    requires var sys := Execute(store, capacity, before);
      && c in sys.store && sys.node.last.Some?
      && !StopsShort(CacheStep(sys.node.cache, c, capacity), sys.node.last.value, c)
    requires AllHandled(Execute(store, capacity, before + [Notify(c)] + after))
    ensures Reached(Execute(store, capacity, before + [Notify(c)] + after).node.last, c.token)
  {
    OneMore(store, capacity, before, Notify(c));
    NotifiedIsOnItsWay(Execute(store, capacity, before), capacity, c);
    StaysOnItsWay(store, capacity, before + [Notify(c)], after, c.token);
    HandledIsReached(Execute(store, capacity, before + [Notify(c)] + after), c.token);
  }
}
