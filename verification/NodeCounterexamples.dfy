/** Concrete runs of one node's ordering protocol that show which of its guarantees need their conditions. */
module NodeCounterexamples {
  import opened Prelude
  import opened CommitStore
  import opened InMemoryCommitSerialiserCache
  import opened EventStorePollerActor
  import opened LocalEventStreamActor
  import opened LocalOrdering

  const C1 := Commit(1, 0, [])
  const C2 := Commit(2, 0, [])
  const C3 := Commit(3, 0, [])
  const C4 := Commit(4, 0, [])
  const C5 := Commit(5, 0, [])
  const C6 := Commit(6, 0, [])
  const P2 := OrderedCommit(C2, 1)
  const P3 := OrderedCommit(C3, 2)
  const P4 := OrderedCommit(C4, 3)
  const TWO: seq<Commit> := [C1, C2]
  const THREE: seq<Commit> := [C1, C2, C3]
  const FOUR: seq<Commit> := [C1, C2, C3, C4]
  const FIVE: seq<Commit> := [C1, C2, C3, C4, C5]
  const SIX: seq<Commit> := [C1, C2, C3, C4, C5, C6]

  ghost predicate Moves(sys: Sys, step: Step, sys': Sys, capacity: nat) {
    && IsStore(sys.store) && WellKeyed(sys.node.cache)
    && Apply(sys, capacity, step) == sys'
  }

  ghost predicate Walk(states: seq<Sys>, steps: seq<Step>, capacity: nat) {
    && |states| == |steps| + 1
    && forall i, j :: 0 <= i < j < |states| && j == i + 1 ==> Moves(states[i], steps[i], states[j], capacity)
  }

  /** What a walk says about a run: after some steps that end in its first state it ends in its last one. */
  lemma {:induction false} Walked(store: seq<Commit>, capacity: nat, before: seq<Step>, states: seq<Sys>,
    steps: seq<Step>)
    requires IsStore(store) && Walk(states, steps, capacity) && Execute(store, capacity, before) == states[0]
    ensures Execute(store, capacity, before + steps) == states[|steps|]
    decreases |steps|
  {
    if steps == [] {
      assert before + steps == before;
    } else {
      var n := |steps| - 1;
      WalkFront(states, steps, capacity);
      Walked(store, capacity, before, states[..n + 1], steps[..n]);
      assert (before + steps)[..|before + steps| - 1] == before + steps[..n];
      assert Moves(states[n], steps[n], states[n + 1], capacity);
    }
  }

  lemma WalkedTwice(store: seq<Commit>, capacity: nat, states: seq<Sys>, steps: seq<Step>,
    states': seq<Sys>, steps': seq<Step>)
    requires IsStore(store) && Walk(states, steps, capacity) && Walk(states', steps', capacity)
    requires states[0] == Init(store) && states'[0] == states[|steps|]
    ensures Execute(store, capacity, steps + steps') == states'[|steps'|]
  {
    Walked(store, capacity, [], states, steps);
    assert [] + steps == steps;
    Walked(store, capacity, steps, states', steps');
  }

  lemma WalkFront(states: seq<Sys>, steps: seq<Step>, capacity: nat)
    requires Walk(states, steps, capacity) && steps != []
    ensures Walk(states[..|steps|], steps[..|steps| - 1], capacity)
  {
  }

  lemma Delivers(sys: Sys, p: nat, rest: seq<OrderedCommit>, polls: seq<Poll>, n: Node, capacity: nat)
    requires IsStore(sys.store) && WellKeyed(sys.node.cache) && p < |sys.polls|
    requires sys.polls[p].remaining != [] && sys.polls[p].remaining[1..] == rest
    requires polls == sys.polls[p := sys.polls[p].(remaining := rest)]
    requires n == OnOrdered(sys.node, sys.polls[p].remaining[0], capacity)
    ensures Moves(sys, Deliver(p), Sys(sys.store, n, polls), capacity)
  {
  }

  lemma AppendMoves(sys: Sys, c: Commit, sys': Sys, capacity: nat)
    requires IsStore(sys.store) && WellKeyed(sys.node.cache) && Head(sys.store) < c.token
    requires sys'.store == sys.store + [c] && sys'.node == sys.node && sys'.polls == sys.polls
    ensures Moves(sys, Append(c), sys', capacity)
  {
  }

  /** The poller runs on the first request, for the head, and nothing is appended meanwhile. */
  lemma HeadPollMoves(sys: Sys, o: OrderedCommit, sys': Sys, capacity: nat)
    requires IsStore(sys.store) && WellKeyed(sys.node.cache) && HeadReply(sys.store, sys.store) == Some(o)
    requires sys.node.requests != [] && sys.node.requests[0] == SendHeadCommit
    requires sys'.store == sys.store && sys'.node == sys.node.(requests := sys.node.requests[1..])
    requires sys'.polls == sys.polls + [Poll([o], o.commit.token, true)]
    ensures Moves(sys, RunHeadPoller(0, []), sys', capacity)
  {
    assert sys.store + [] == sys.store;
    assert RemoveAt(sys.node.requests, 0) == sys.node.requests[1..];
  }

  lemma Stores()
    ensures IsStore(TWO) && IsStore(THREE) && IsStore(FOUR) && IsStore(FIVE) && IsStore(SIX)
    ensures TWO + [C3] == THREE && THREE + [C4] == FOUR && FOUR + [C5] == FIVE && FIVE + [C6] == SIX
  {
    Appends(TWO, C3, THREE);
    Appends(THREE, C4, FOUR);
    Appends(FOUR, C5, FIVE);
    Appends(FIVE, C6, SIX);
  }

  lemma Appends(s: seq<Commit>, c: Commit, s': seq<Commit>)
    requires IsStore(s) && Head(s) < c.token && s' == s + [c]
    ensures IsStore(s')
  {
    AppendGrows(s, c);
  }

  lemma HeadReplies()
    ensures IsStore(TWO) && HeadReply(TWO, TWO) == Some(P2) && TWO + [] == TWO
    ensures IsStore(FOUR) && HeadReply(FOUR, FOUR) == Some(P4) && FOUR + [] == FOUR
  {
    Stores();
    HeadReplyIsTruthful(TWO, TWO);
    HeadReplyIsTruthful(FOUR, FOUR);
  }

  // ------------------------------------------------------------------ a head poll that is ignored

  /** A second request for the head is made before the first is answered. */
  lemma UntilStreamed(capacity: nat) returns (states: seq<Sys>, steps: seq<Step>, cache: map<int, Commit>)
    ensures Walk(states, steps, capacity) && |steps| == 3 && states[0] == Init(TWO)
    ensures WellKeyed(cache)
    ensures states[3] == Sys(TWO, Node(Some(2), cache, [P2], [SendHeadCommit]), [Poll([], 2, true)])
  {
    HeadReplies();
    assert TWO[0] in TWO;
    var noted := CacheStep(map[], C1, capacity);
    cache := CacheStep(noted, C2, capacity);
    assert RemoveAt([SendHeadCommit, SendHeadCommit], 0) == [SendHeadCommit];
    states := [
      Init(TWO),
      Sys(TWO, Node(None, noted, [], [SendHeadCommit, SendHeadCommit]), []),
      Sys(TWO, Node(None, noted, [], [SendHeadCommit]), [Poll([P2], 2, true)]),
      Sys(TWO, Node(Some(2), cache, [P2], [SendHeadCommit]), [Poll([], 2, true)])];
    steps := [Notify(C1), RunHeadPoller(0, []), Deliver(0)];
    assert Moves(states[0], steps[0], states[1], capacity);
    assert Moves(states[1], steps[1], states[2], capacity);
    assert [] + [P2] == [P2];
    Delivers(states[2], 0, [], [Poll([], 2, true)], states[3].node, capacity);
  }

  /** It is answered only after two more commits. */
  lemma UntilIgnored(cache: map<int, Commit>, capacity: nat) returns (states: seq<Sys>, steps: seq<Step>)
    requires WellKeyed(cache)
    ensures Walk(states, steps, capacity) && |steps| == 4
    ensures states[0] == Sys(TWO, Node(Some(2), cache, [P2], [SendHeadCommit]), [Poll([], 2, true)])
    ensures states[4] == Sys(FOUR, Node(Some(2), cache, [P2], []), [Poll([], 2, true), Poll([], 4, true)])
  {
    HeadReplies();
    Stores();
    var n := Node(Some(2), cache, [P2], [SendHeadCommit]);
    states := [
      Sys(TWO, n, [Poll([], 2, true)]),
      Sys(THREE, n, [Poll([], 2, true)]),
      Sys(FOUR, n, [Poll([], 2, true)]),
      Sys(FOUR, n.(requests := []), [Poll([], 2, true), Poll([P4], 4, true)]),
      Sys(FOUR, n.(requests := []), [Poll([], 2, true), Poll([], 4, true)])];
    steps := [Append(C3), Append(C4), RunHeadPoller(0, []), Deliver(1)];
    AppendMoves(states[0], C3, states[1], capacity);
    AppendMoves(states[1], C4, states[2], capacity);
    HeadPollMoves(states[2], P4, states[3], capacity);
    Delivers(states[3], 1, [], states[4].polls, states[4].node, capacity);
  }

  /** For every cache there is a run in which a head poll read commit 4 but the stream is left at 2, with nothing
      else under way. */
  lemma HeadPollWithoutEffect(capacity: nat) returns (steps: seq<Step>)
    ensures IsStore(TWO)
    ensures var sys := Execute(TWO, capacity, steps);
      && sys.node.last == Some(2) && sys.node.requests == []
      && sys.polls == [Poll([], 2, true), Poll([], 4, true)]
  {
    Stores();
    var states, first, cache := UntilStreamed(capacity);
    var states', second := UntilIgnored(cache, capacity);
    WalkedTwice(TWO, capacity, states, first, states', second);
    steps := first + second;
  }

  // ------------------------------------------------------------------ a notification that stops short

  lemma SmallCache(m: map<int, Commit>, c: Commit, capacity: nat)
    requires |m| < capacity
    ensures CacheStep(m, c, capacity) == m[c.token := c]
  {
    assert m[c.token := c].Keys <= m.Keys + {c.token};
    SubsetSize(m[c.token := c].Keys, m.Keys + {c.token});
  }

  const CACHE_2: map<int, Commit> := map[2 := C2]
  const CACHE_4: map<int, Commit> := map[2 := C2, 4 := C4]
  const CACHE_6: map<int, Commit> := map[2 := C2, 4 := C4, 6 := C6]

  lemma Caches(capacity: nat)
    requires 3 <= capacity
    ensures WellKeyed(CACHE_2) && WellKeyed(CACHE_4) && WellKeyed(CACHE_6)
    ensures CacheStep(map[], C2, capacity) == CACHE_2
    ensures CacheStep(CACHE_2, C4, capacity) == CACHE_4
    ensures CacheStep(CACHE_4, C6, capacity) == CACHE_6
    ensures Run(CACHE_4, 2) == [] && Run(CACHE_6, 3) == [P4]
  {
    SmallCache(map[], C2, capacity);
    SmallCache(CACHE_2, C4, capacity);
    SmallCache(CACHE_4, C6, capacity);
    assert map[][2 := C2] == CACHE_2 && CACHE_2[4 := C4] == CACHE_4 && CACHE_4[6 := C6] == CACHE_6;
    assert Run(CACHE_6, 4) == [];
  }

  const HEAD_POLL: Poll := Poll([], 2, true)

  /** The head, commit 2, is streamed. */
  lemma UntilHeadStreamed(capacity: nat) returns (states: seq<Sys>, steps: seq<Step>)
    requires 3 <= capacity
    ensures Walk(states, steps, capacity) && |steps| == 4 && states[0] == Init(TWO)
    ensures steps == [RunHeadPoller(0, []), Deliver(0), Append(C3), Append(C4)]
    ensures states[4] == Sys(FOUR, Node(Some(2), CACHE_2, [P2], []), [HEAD_POLL])
  {
    HeadReplies();
    Stores();
    Caches(capacity);
    assert [] + [P2] == [P2];
    states := [
      Init(TWO),
      Sys(TWO, Node(None, map[], [], []), [Poll([P2], 2, true)]),
      Sys(TWO, Node(Some(2), CACHE_2, [P2], []), [HEAD_POLL]),
      Sys(THREE, Node(Some(2), CACHE_2, [P2], []), [HEAD_POLL]),
      Sys(FOUR, Node(Some(2), CACHE_2, [P2], []), [HEAD_POLL])];
    steps := [RunHeadPoller(0, []), Deliver(0), Append(C3), Append(C4)];
    HeadPollMoves(states[0], P2, states[1], capacity);
    Delivers(states[1], 0, [], [HEAD_POLL], states[2].node, capacity);
    AppendMoves(states[2], C3, states[3], capacity);
    AppendMoves(states[3], C4, states[4], capacity);
  }

  /** Commit 4 is notified, and a poll requested that reads 3 and 4. */
  lemma UntilPolled(capacity: nat) returns (states: seq<Sys>, steps: seq<Step>)
    requires 3 <= capacity
    ensures Walk(states, steps, capacity) && |steps| == 2
    ensures steps == [Notify(C4), RunPoller(0)]
    ensures states[0] == Sys(FOUR, Node(Some(2), CACHE_2, [P2], []), [HEAD_POLL])
    ensures states[2] == Sys(FOUR, Node(Some(2), CACHE_4, [P2], []), [HEAD_POLL, Poll([P3, P4], 4, false)])
  {
    Caches(capacity);
    AfterTwo();
    assert RemoveAt([SendCommitsAfter(2)], 0) == [] && FOUR[3] in FOUR;
    states := [
      Sys(FOUR, Node(Some(2), CACHE_2, [P2], []), [HEAD_POLL]),
      Sys(FOUR, Node(Some(2), CACHE_4, [P2], [SendCommitsAfter(2)]), [HEAD_POLL]),
      Sys(FOUR, Node(Some(2), CACHE_4, [P2], []), [HEAD_POLL, Poll([P3, P4], 4, false)])];
    steps := [Notify(C4), RunPoller(0)];
    assert Moves(states[0], steps[0], states[1], capacity);
    assert Moves(states[1], steps[1], states[2], capacity);
  }

  lemma AfterTwo()
    ensures IsStore(FOUR) && GetFrom(FOUR, 2) == [C3, C4] && Chain(2, [C3, C4]) == [P3, P4]
  {
    Stores();
    PositionIs(FOUR, 2, 2);
  }

  /** Between the poll's replies commit 6 is notified: the cache goes on to 4, and no further. */
  lemma UntilShort(capacity: nat) returns (states: seq<Sys>, steps: seq<Step>)
    requires 3 <= capacity
    ensures Walk(states, steps, capacity) && |steps| == 5
    ensures steps == [Deliver(1), Append(C5), Append(C6), Notify(C6), Deliver(1)]
    ensures states[0] == Sys(FOUR, Node(Some(2), CACHE_4, [P2], []), [HEAD_POLL, Poll([P3, P4], 4, false)])
    ensures states[5] == Sys(SIX, Node(Some(4), CACHE_6, [P2, P3, P4], []), [HEAD_POLL, Poll([], 4, false)])
  {
    Stores();
    Caches(capacity);
    assert SIX[5] in SIX && [P2] + [P3] == [P2, P3] && [P2, P3] + [P4] == [P2, P3, P4];
    var n := Node(Some(3), CACHE_4, [P2, P3], []);
    states := [
      Sys(FOUR, Node(Some(2), CACHE_4, [P2], []), [HEAD_POLL, Poll([P3, P4], 4, false)]),
      Sys(FOUR, n, [HEAD_POLL, Poll([P4], 4, false)]),
      Sys(FIVE, n, [HEAD_POLL, Poll([P4], 4, false)]),
      Sys(SIX, n, [HEAD_POLL, Poll([P4], 4, false)]),
      Sys(SIX, Node(Some(4), CACHE_6, [P2, P3, P4], []), [HEAD_POLL, Poll([P4], 4, false)]),
      Sys(SIX, Node(Some(4), CACHE_6, [P2, P3, P4], []), [HEAD_POLL, Poll([], 4, false)])];
    steps := [Deliver(1), Append(C5), Append(C6), Notify(C6), Deliver(1)];
    Delivers(states[0], 1, [P4], states[1].polls, states[1].node, capacity);
    AppendMoves(states[1], C5, states[2], capacity);
    AppendMoves(states[2], C6, states[3], capacity);
    assert Moves(states[3], steps[3], states[4], capacity);
    Delivers(states[4], 1, [], states[5].polls, states[5].node, capacity);
  }

  const SHORT_RUN: seq<Step> := [RunHeadPoller(0, []), Deliver(0), Append(C3), Append(C4), Notify(C4), RunPoller(0),
    Deliver(1), Append(C5), Append(C6), Notify(C6), Deliver(1)]

  lemma {:induction false} ShortRunLosesNoPoll(n: nat)
    requires n <= |SHORT_RUN|
    ensures LosesNoPoll(SHORT_RUN[..n])
  {
    if 0 < n {
      ShortRunLosesNoPoll(n - 1);
      assert SHORT_RUN[..n][..n - 1] == SHORT_RUN[..n - 1];
    }
  }

  lemma PollSplits(first: seq<Step>, second: seq<Step>)
    requires first == [RunHeadPoller(0, []), Deliver(0), Append(C3), Append(C4)] && second == [Notify(C4), RunPoller(0)]
    ensures SHORT_RUN[..6] == first + second
  {
  }

  lemma ReachesPoll(capacity: nat) returns (sys: Sys)
    requires 3 <= capacity
    ensures IsStore(TWO) && sys == Execute(TWO, capacity, SHORT_RUN[..6])
    ensures sys == Sys(FOUR, Node(Some(2), CACHE_4, [P2], []), [HEAD_POLL, Poll([P3, P4], 4, false)])
  {
    Stores();
    var states, first := UntilHeadStreamed(capacity);
    var states', second := UntilPolled(capacity);
    PollSplits(first, second);
    WalkedTwice(TWO, capacity, states, first, states', second);
    sys := states'[2];
  }

  lemma ShortRunEnds(capacity: nat)
    requires 3 <= capacity
    ensures IsStore(TWO)
    ensures Execute(TWO, capacity, SHORT_RUN)
      == Sys(SIX, Node(Some(4), CACHE_6, [P2, P3, P4], []), [HEAD_POLL, Poll([], 4, false)])
  {
    var sys := ReachesPoll(capacity);
    var states, third := UntilShort(capacity);
    ShortRunSplits(third);
    WalkedOn(TWO, capacity, SHORT_RUN[..6], states, third, SHORT_RUN);
  }

  lemma ShortRunSplits(third: seq<Step>)
    requires third == [Deliver(1), Append(C5), Append(C6), Notify(C6), Deliver(1)]
    ensures SHORT_RUN == SHORT_RUN[..6] + third
  {
  }

  lemma WalkedOn(store: seq<Commit>, capacity: nat, before: seq<Step>, states: seq<Sys>, steps: seq<Step>,
    all: seq<Step>)
    requires IsStore(store) && Walk(states, steps, capacity) && Execute(store, capacity, before) == states[0]
    requires all == before + steps
    ensures Execute(store, capacity, all) == states[|steps|]
  {
    Walked(store, capacity, before, states, steps);
  }

  /** For every cache of at least three commits there is a run that loses no poll, in which commit 6 is notified
      and the stream is left at 4, with nothing under way: the condition of NotifiedIsStreamed is needed. */
  lemma NotifiedButNotStreamed(capacity: nat)
    requires 3 <= capacity
    ensures IsStore(TWO) && LosesNoPoll(SHORT_RUN) && SHORT_RUN[9] == Notify(C6)
    ensures var sys := Execute(TWO, capacity, SHORT_RUN);
      sys.node.last == Some(4) && sys.node.requests == [] && AllHandled(sys) && C6 in sys.store
  {
    ShortRunEnds(capacity);
    ShortRunIsComplete();
    EndsShort(Execute(TWO, capacity, SHORT_RUN));
  }

  lemma ShortRunIsComplete()
    ensures LosesNoPoll(SHORT_RUN)
  {
    ShortRunLosesNoPoll(|SHORT_RUN|);
    assert SHORT_RUN[..|SHORT_RUN|] == SHORT_RUN;
  }

  lemma EndsShort(sys: Sys)
    requires sys == Sys(SIX, Node(Some(4), CACHE_6, [P2, P3, P4], []), [HEAD_POLL, Poll([], 4, false)])
    ensures AllHandled(sys) && C6 in sys.store
  {
    assert SIX[5] == C6;
  }
}
