/** Concrete runs of two processors that show which documented guarantees need their conditions. */
module Counterexamples {
  import opened Prelude
  import opened CommitStore
  import opened OrderedEventStreamer
  import opened StreamProcessor
  import opened ProcessorGraph
  import NoStall
  import NoStallRuns
  import Announcements
  import GraphProgress
  import Sequencing
  import CrashRecovery

  const C1 := Commit(1, 0, [])
  const C2 := Commit(2, 0, [])
  const P1 := OrderedCommit(C1, 0)
  const P2 := OrderedCommit(C2, 1)
  const LIVE_1: Msg := Ordered(P1, false)
  const LIVE_2: Msg := Ordered(P2, false)
  const SELF_1: Msg := Ordered(P1, true)
  const SELF_2: Msg := Ordered(P2, true)
  const HANDLE: Action := HandleNext(Completes(false))

  // ------------------------------------------------------------------ runs of two processors

  /** Processor 0 leads; processor 1 is proceeded by it. */
  function Config(): map<nat, Setup> {
    map[0 := Setup(0, {}), 1 := Setup(0, {0})]
  }

  lemma ConfigIsSequenced()
    ensures Sequencing.StartsSequenced(Config()) && GraphProgress.Acyclic(Config(), id => id)
  {
  }

  /** A run from the empty store, and the states its two processors have come to. */
  datatype Run = Run(
    config: map<nat, Setup>,
    pageSize: nat,
    allowed: (Commit, Fate) -> bool,   // how the leader may end a commit
    steps: seq<Step>,
    store: seq<Commit>,
    leader: Tracked,
    follower: Tracked)

  /** Executing the steps of the run does end in its store and states. */
  ghost predicate Valid(r: Run) {
    && SetupOk(r.config, []) && r.config.Keys == {0, 1} && 0 < r.pageSize
    && IsStore(r.store) && Shape(r.leader.p) && Shape(r.follower.p)
    && NoStallRuns.KeepsMail(r.steps, 0) && NoStallRuns.KeepsMail(r.steps, 1)
    && CrashRecovery.FateRun(r.config, [], r.steps, r.pageSize, 0, r.allowed)
    && Both(End(r), r.store, r.leader, r.follower)
  }

  ghost predicate Both(g: Graph, store: seq<Commit>, leader: Tracked, follower: Tracked) {
    && g.store == store && g.nodes.Keys == {0, 1}
    && g.nodes[0] == leader && g.nodes[1] == follower
  }

  ghost function End(r: Run): Graph
    requires SetupOk(r.config, []) && 0 < r.pageSize
  {
    Execute(r.config, [], r.steps, r.pageSize)
  }

  lemma OneMore(r: Run, step: Step, g: Graph)
    requires Valid(r) && g == Apply(End(r), step, r.pageSize)
    requires !NoStallRuns.Loses(step, 0) && !NoStallRuns.Loses(step, 1)
    requires CrashRecovery.FateStep(r.leader.p, step, 0, r.allowed)
    ensures var r' := r.(steps := r.steps + [step]);
      && End(r') == g
      && NoStallRuns.KeepsMail(r'.steps, 0) && NoStallRuns.KeepsMail(r'.steps, 1)
      && CrashRecovery.FateRun(r.config, [], r'.steps, r.pageSize, 0, r.allowed)
  {
    assert (r.steps + [step])[..|r.steps|] == r.steps;
  }

  /** A step of the leader: a live commit reaches it, it handles a message, or it is restarted. */
  ghost predicate LeaderStep(t: Tracked, action: Action, t': Tracked, r: Run) {
    && IsStore(r.store) && 0 < r.pageSize && Shape(t.p)
    && (match action
        case Enqueue(m) => m.Ordered? && !m.toSelf && Truthful(r.store, m.note) && 0 <= m.note.previous
        case Lose(_) => false
        case HandleNext(fate) => Accepts(t.p) ==> r.allowed(t.p.mailbox[0].note.commit, fate)
        case Restart => true)
    && Act(t, action, r.store, r.pageSize) == t'
  }

  /** A step of the follower: a live commit or news of the leader reaches it, or it handles a message. */
  ghost predicate FollowerStep(t: Tracked, action: Action, t': Tracked, r: Run) {
    && IsStore(r.store) && 0 < r.pageSize && Shape(t.p)
    && (match action
        case Enqueue(m) =>
          if m.CurrentCheckpoint? then m.source == 0 && m.checkpoint in r.leader.p.published
          else m.Ordered? && !m.toSelf && Truthful(r.store, m.note) && 0 <= m.note.previous
        case HandleNext(_) => true
        case _ => false)
    && Act(t, action, r.store, r.pageSize) == t'
  }

  ghost predicate LeaderWalk(ts: seq<Tracked>, actions: seq<Action>, r: Run) {
    && |ts| == |actions| + 1
    && forall i, j :: 0 <= i < j < |ts| && j == i + 1 ==> LeaderStep(ts[i], actions[i], ts[j], r)
  }

  ghost predicate FollowerWalk(ts: seq<Tracked>, actions: seq<Action>, r: Run) {
    && |ts| == |actions| + 1
    && forall i, j :: 0 <= i < j < |ts| && j == i + 1 ==> FollowerStep(ts[i], actions[i], ts[j], r)
  }

  lemma Applied(g: Graph, id: nat, action: Action, t': Tracked, pageSize: nat)
    requires GraphOk(g) && 0 < pageSize && Possible(g, At(id, action))
    requires Act(g.nodes[id], action, g.store, pageSize) == t'
    ensures Apply(g, At(id, action), pageSize) == g.(nodes := g.nodes[id := t'])
  {
  }

  lemma Changed(g: Graph, g': Graph, store: seq<Commit>, leader: Tracked, follower: Tracked, t': Tracked)
    requires Both(g, store, leader, follower)
    ensures g' == g.(nodes := g.nodes[0 := t']) ==> Both(g', store, t', follower)
    ensures g' == g.(nodes := g.nodes[1 := t']) ==> Both(g', store, leader, t')
  {
  }

  lemma Lead(r: Run, action: Action, t': Tracked) returns (r': Run)
    requires Valid(r) && LeaderStep(r.leader, action, t', r)
    ensures Valid(r') && r' == r.(steps := r'.steps, leader := t')
  {
    var g := End(r);
    Applied(g, 0, action, t', r.pageSize);
    ApplyOk(g, At(0, action), r.pageSize);
    var g' := Apply(g, At(0, action), r.pageSize);
    Changed(g, g', r.store, r.leader, r.follower, t');
    OneMore(r, At(0, action), g');
    r' := r.(steps := r.steps + [At(0, action)], leader := t');
    assert TrackedOk(r.store, g'.nodes[0]);
  }

  lemma Follow(r: Run, action: Action, t': Tracked) returns (r': Run)
    requires Valid(r) && FollowerStep(r.follower, action, t', r)
    ensures Valid(r') && r' == r.(steps := r'.steps, follower := t')
  {
    var g := End(r);
    Applied(g, 1, action, t', r.pageSize);
    ApplyOk(g, At(1, action), r.pageSize);
    var g' := Apply(g, At(1, action), r.pageSize);
    Changed(g, g', r.store, r.leader, r.follower, t');
    OneMore(r, At(1, action), g');
    r' := r.(steps := r.steps + [At(1, action)], follower := t');
    assert TrackedOk(r.store, g'.nodes[1]);
  }

  lemma LeaderWalkTail(ts: seq<Tracked>, actions: seq<Action>, r: Run, r': Run)
    requires LeaderWalk(ts, actions, r) && actions != []
    requires r'.store == r.store && r'.pageSize == r.pageSize && r'.allowed == r.allowed
    ensures LeaderWalk(ts[1..], actions[1..], r')
  {
    forall i, j | 0 <= i < j < |ts| - 1 && j == i + 1
      ensures LeaderStep(ts[1..][i], actions[1..][i], ts[1..][j], r')
    {
      assert LeaderStep(ts[i + 1], actions[i + 1], ts[j + 1], r);
    }
  }

  lemma LeadFirst(r: Run, ts: seq<Tracked>, actions: seq<Action>) returns (r': Run)
    requires Valid(r) && LeaderWalk(ts, actions, r) && ts[0] == r.leader && actions != []
    ensures Valid(r') && r' == r.(steps := r'.steps, leader := ts[1])
    ensures LeaderWalk(ts[1..], actions[1..], r')
  {
    r' := Lead(r, actions[0], ts[1]);
    LeaderWalkTail(ts, actions, r, r');
  }

  lemma {:induction false} Leads(r: Run, ts: seq<Tracked>, actions: seq<Action>) returns (r': Run)
    requires Valid(r) && LeaderWalk(ts, actions, r) && ts[0] == r.leader
    ensures Valid(r') && r' == r.(steps := r'.steps, leader := ts[|actions|])
    decreases |actions|
  {
    r' := r;
    if actions != [] {
      r' := LeadFirst(r, ts, actions);
      r' := Leads(r', ts[1..], actions[1..]);
    }
  }

  lemma FollowerWalkTail(ts: seq<Tracked>, actions: seq<Action>, r: Run, r': Run)
    requires FollowerWalk(ts, actions, r) && actions != []
    requires r'.store == r.store && r'.pageSize == r.pageSize && r'.leader == r.leader
    ensures FollowerWalk(ts[1..], actions[1..], r')
  {
    forall i, j | 0 <= i < j < |ts| - 1 && j == i + 1
      ensures FollowerStep(ts[1..][i], actions[1..][i], ts[1..][j], r')
    {
      assert FollowerStep(ts[i + 1], actions[i + 1], ts[j + 1], r);
    }
  }

  lemma FollowFirst(r: Run, ts: seq<Tracked>, actions: seq<Action>) returns (r': Run)
    requires Valid(r) && FollowerWalk(ts, actions, r) && ts[0] == r.follower && actions != []
    ensures Valid(r') && r' == r.(steps := r'.steps, follower := ts[1])
    ensures FollowerWalk(ts[1..], actions[1..], r')
  {
    r' := Follow(r, actions[0], ts[1]);
    FollowerWalkTail(ts, actions, r, r');
  }

  lemma {:induction false} Follows(r: Run, ts: seq<Tracked>, actions: seq<Action>) returns (r': Run)
    requires Valid(r) && FollowerWalk(ts, actions, r) && ts[0] == r.follower
    ensures Valid(r') && r' == r.(steps := r'.steps, follower := ts[|actions|])
    decreases |actions|
  {
    r' := r;
    if actions != [] {
      r' := FollowFirst(r, ts, actions);
      r' := Follows(r', ts[1..], actions[1..]);
    }
  }

  lemma Commits(r: Run, c: Commit, store: seq<Commit>) returns (r': Run)
    requires Valid(r) && Head(r.store) < c.token && store == r.store + [c]
    ensures Valid(r') && r' == r.(steps := r'.steps, store := store)
  {
    var g := End(r);
    ApplyOk(g, Append(c), r.pageSize);
    OneMore(r, Append(c), Apply(g, Append(c), r.pageSize));
    r' := r.(steps := r.steps + [Append(c)], store := store);
  }

  // ------------------------------------------------------------------ how the runs begin

  /** The leader, by what differs in the runs below. */
  function Leader(checkpoint: int, mailbox: seq<Msg>, published: seq<int>, applied: seq<Commit>, owed: int): Tracked {
    Tracked(Proc(checkpoint, false, None, map[], mailbox, 0, published, applied), 0, 0, owed, checkpoint)
  }

  /** The follower before it gets anywhere. */
  function Follower(known: int, stream: Option<Streamer>, mailbox: seq<Msg>, owed: int): Tracked {
    Tracked(Proc(0, stream.Some?, stream, map[0 := known], mailbox, 0, [0, 0], []), 0, 0, owed, 0)
  }

  lemma OneEntry(known: map<nat, int>, c: int)
    requires known.Keys == {0} && known[0] == c
    ensures known == map[0 := c]
  {
  }

  /** Both start, find nothing to catch up on and announce it. */
  lemma Begins(pageSize: nat, allowed: (Commit, Fate) -> bool) returns (r: Run)
    requires 0 < pageSize
    ensures Valid(r) && r.config == Config() && r.pageSize == pageSize && r.allowed == allowed && r.store == []
    ensures r.leader == Leader(0, [CatchUp], [0], [], 0)
    ensures r.follower == Tracked(Proc(0, false, None, map[0 := 0], [CatchUp], 0, [0], []), 0, 0, 0, 0)
  {
    var a, b := Begin(Setup(0, {}), []), Begin(Setup(0, {0}), []);
    assert a.p.known == map[];
    OneEntry(b.p.known, 0);
    r := Run(Config(), pageSize, allowed, [], [], a, b);
  }

  /** Both processors have started: nothing is in their mailboxes. */
  predicate Ready(r: Run) {
    r.store == [] && r.leader == Leader(0, [], [0, 0], [], 0) && r.follower == Follower(0, None, [], 0)
  }

  lemma LeaderBegins(pageSize: nat)
    requires 0 < pageSize
    ensures Act(Leader(0, [CatchUp], [0], [], 0), HANDLE, [], pageSize) == Leader(0, [PublishCheckpoint], [0], [], 0)
    ensures Act(Leader(0, [PublishCheckpoint], [0], [], 0), HANDLE, [], pageSize) == Leader(0, [], [0, 0], [], 0)
  {
    assert Position([], 0) == 0;
    assert Start(0, [], pageSize) == Streamer([], 0, true);
  }

  lemma LeaderStarts(r: Run) returns (ts: seq<Tracked>, actions: seq<Action>)
    requires r.store == [] && 0 < r.pageSize
    ensures LeaderWalk(ts, actions, r) && |actions| == 2
    ensures ts[0] == Leader(0, [CatchUp], [0], [], 0) && ts[2] == Leader(0, [], [0, 0], [], 0)
  {
    LeaderBegins(r.pageSize);
    ts := [Leader(0, [CatchUp], [0], [], 0), Leader(0, [PublishCheckpoint], [0], [], 0), Leader(0, [], [0, 0], [], 0)];
    actions := [HANDLE, HANDLE];
  }

  function NewFollower(mailbox: seq<Msg>): Tracked {
    Tracked(Proc(0, false, None, map[0 := 0], mailbox, 0, [0], []), 0, 0, 0, 0)
  }

  lemma FollowerBegins(pageSize: nat)
    requires 0 < pageSize
    ensures Act(NewFollower([CatchUp]), HANDLE, [], pageSize) == NewFollower([PublishCheckpoint])
    ensures Act(NewFollower([PublishCheckpoint]), HANDLE, [], pageSize) == Follower(0, None, [], 0)
  {
    assert Position([], 0) == 0;
    assert Start(0, [], pageSize) == Streamer([], 0, true);
  }

  lemma FollowerStarts(r: Run) returns (ts: seq<Tracked>, actions: seq<Action>)
    requires r.store == [] && 0 < r.pageSize
    ensures FollowerWalk(ts, actions, r) && |actions| == 2
    ensures ts[0] == NewFollower([CatchUp]) && ts[2] == Follower(0, None, [], 0)
  {
    FollowerBegins(r.pageSize);
    ts := [NewFollower([CatchUp]), NewFollower([PublishCheckpoint]), Follower(0, None, [], 0)];
    actions := [HANDLE, HANDLE];
  }

  lemma GetReady(pageSize: nat, allowed: (Commit, Fate) -> bool) returns (r: Run)
    requires 0 < pageSize
    ensures Valid(r) && r.config == Config() && r.pageSize == pageSize && r.allowed == allowed && Ready(r)
  {
    r := Begins(pageSize, allowed);
    var ts, actions := LeaderStarts(r);
    r := Leads(r, ts, actions);
    ts, actions := FollowerStarts(r);
    r := Follows(r, ts, actions);
  }

  lemma StoreOfOne()
    ensures IsStore([C1]) && Truthful([C1], P1) && GetFrom([C1], 0) == [C1] && GetFrom([C1], 1) == []
  {
    assert [C1][0] in [C1];
    PositionIs([C1], 0, 0);
    PositionIs([C1], 1, 1);
  }

  lemma FirstStore() returns (one: seq<Commit>)
    ensures one == [C1] && one == [] + [C1] && Head([]) < C1.token
  {
    one := [C1];
  }

  lemma FirstCommit(r: Run) returns (r': Run)
    requires Valid(r) && Ready(r)
    ensures Valid(r') && r' == r.(steps := r'.steps, store := [C1])
  {
    var one := FirstStore();
    r' := Commits(r, C1, one);
  }

  /** The leader hears of commit 1 and ends it in the given way. */
  lemma LeaderHears(r: Run, fate: Fate) returns (ts: seq<Tracked>, actions: seq<Action>)
    requires r.store == [C1] && 0 < r.pageSize && r.allowed(C1, fate)
    ensures IsStore([C1]) && LeaderWalk(ts, actions, r) && |actions| == 2
    ensures ts[0] == Leader(0, [], [0, 0], [], 0)
    ensures ts[2] == Act(Leader(0, [LIVE_1], [0, 0], [], 1), HandleNext(fate), [C1], r.pageSize)
  {
    StoreOfOne();
    var sent := Leader(0, [LIVE_1], [0, 0], [], 1);
    ts := [Leader(0, [], [0, 0], [], 0), sent, Act(sent, HandleNext(fate), [C1], r.pageSize)];
    actions := [Enqueue(LIVE_1), HandleNext(fate)];
  }

  /** Until the leader has ended commit 1. */
  lemma UntilFirst(pageSize: nat, allowed: (Commit, Fate) -> bool, fate: Fate) returns (r: Run)
    requires 0 < pageSize && allowed(C1, fate)
    ensures IsStore([C1]) && Valid(r) && r.config == Config() && r.pageSize == pageSize && r.allowed == allowed
    ensures r.store == [C1] && r.follower == Follower(0, None, [], 0)
    ensures r.leader == Act(Leader(0, [LIVE_1], [0, 0], [], 1), HandleNext(fate), [C1], pageSize)
  {
    r := GetReady(pageSize, allowed);
    r := FirstCommit(r);
    var ts, actions := LeaderHears(r, fate);
    r := Leads(r, ts, actions);
  }

  /** The follower hears that the leader is at 1, catches up and passes to 1. */
  lemma FollowerWalksTo1(r: Run) returns (ts: seq<Tracked>, actions: seq<Action>)
    requires r.store == [C1] && 0 < r.pageSize && 1 in r.leader.p.published
    ensures FollowerWalk(ts, actions, r) && |actions| == 3
    ensures ts[0] == Follower(0, None, [], 0) && ts[3].p.checkpoint == 1
  {
    StoreOfOne();
    var told := Follower(0, None, [CurrentCheckpoint(0, 1)], 0);
    var sent := Act(told, HANDLE, [C1], r.pageSize);
    assert Page([C1], 0, r.pageSize) == [C1] && Page([C1], 1, r.pageSize) == [];
    assert Start(0, [C1], r.pageSize) == Streamer([P1], 1, false);
    assert sent.p.mailbox == [SELF_1];
    OneEntry(sent.p.known, 1);
    ts := [Follower(0, None, [], 0), told, sent, Act(sent, HANDLE, [C1], r.pageSize)];
    actions := [Enqueue(CurrentCheckpoint(0, 1)), HANDLE, HANDLE];
  }

  // ------------------------------------------------------------------ overtaking

  lemma LeaderRestarts(r: Run) returns (ts: seq<Tracked>, actions: seq<Action>)
    requires IsStore(r.store) && 0 < r.pageSize && Shape(r.leader.p) && r.leader.p.saved == 0
    ensures LeaderWalk(ts, actions, r) && |actions| == 1 && ts[0] == r.leader && ts[1].p.checkpoint == 0
  {
    ts := [r.leader, Act(r.leader, Restart, r.store, r.pageSize)];
    actions := [Restart];
  }

  lemma LeaderBack(r: Run) returns (r': Run)
    requires Valid(r) && r.leader.p.saved == 0
    ensures Valid(r') && r' == r.(steps := r'.steps, leader := r'.leader) && r'.leader.p.checkpoint == 0
  {
    var ts, actions := LeaderRestarts(r);
    r' := Leads(r, ts, actions);
  }

  lemma CompletedAt1(pageSize: nat)
    requires 0 < pageSize
    ensures IsStore([C1])
    ensures var t := Act(Leader(0, [LIVE_1], [0, 0], [], 1), HANDLE, [C1], pageSize);
      t.p.saved == 0 && 1 in t.p.published
  {
    StoreOfOne();
    var t := Act(Leader(0, [LIVE_1], [0, 0], [], 1), HANDLE, [C1], pageSize);
    assert t.p.published == [0, 0, 1] && t.p.published[2] == 1;
  }

  /** The leader's first commit had no effects: it is at 1, unsaved, and has announced it. */
  lemma LeaderAt1(pageSize: nat, allowed: (Commit, Fate) -> bool) returns (r: Run)
    requires 0 < pageSize && allowed(C1, Completes(false))
    ensures Valid(r) && r.config == Config() && r.pageSize == pageSize && r.allowed == allowed
    ensures r.store == [C1] && r.follower == Follower(0, None, [], 0)
    ensures r.leader.p.saved == 0 && 1 in r.leader.p.published
  {
    r := UntilFirst(pageSize, allowed, Completes(false));
    CompletedAt1(pageSize);
  }

  /** The follower gets to 1. */
  lemma FollowerTo1(r: Run) returns (r': Run)
    requires Valid(r) && r.store == [C1] && r.follower == Follower(0, None, [], 0) && 1 in r.leader.p.published
    ensures Valid(r') && r' == r.(steps := r'.steps, follower := r'.follower) && r'.follower.p.checkpoint == 1
  {
    var ts, actions := FollowerWalksTo1(r);
    r' := Follows(r, ts, actions);
  }

  /** "This processor's checkpoint will never be greater than the proceeding processor's" does not hold in
      every run, although both start level on an empty store: the leader processes a commit without effects
      live, so its checkpoint is not saved; the follower is told, and catches up; the leader restarts. */
  lemma FollowerOvertakes(pageSize: nat, allowed: (Commit, Fate) -> bool) returns (r: Run)
    requires 0 < pageSize && allowed(C1, Completes(false))
    ensures Valid(r) && r.config == Config() && r.pageSize == pageSize && r.allowed == allowed
    ensures r.leader.p.checkpoint == 0 && r.follower.p.checkpoint == 1
  {
    r := LeaderAt1(pageSize, allowed);
    r := FollowerTo1(r);
    r := LeaderBack(r);
  }

  // ------------------------------------------------------------------ a legacy leader

  predicate AllCommits(c: Commit) {
    true
  }

  lemma ThrownAheadAt1(pageSize: nat)
    requires 0 < pageSize
    ensures IsStore([C1])
    ensures var t := Act(Leader(0, [LIVE_1], [0, 0], [], 1), HandleNext(ThrowsAhead), [C1], pageSize);
      t.p.saved == 1 && t.p.applied == []
  {
    StoreOfOne();
  }

  /** A legacy leader whose transaction fails after its checkpoint was set has skipped the commit. */
  lemma LegacySkips(pageSize: nat) returns (r: Run)
    requires 0 < pageSize
    ensures Valid(r) && r.config == Config() && r.pageSize == pageSize
    ensures r.allowed == CrashRecovery.LegacyOrAheadFates(AllCommits)
    ensures CrashRecovery.Missed(AllCommits, r.store, 0, r.leader.p)
  {
    r := UntilFirst(pageSize, CrashRecovery.LegacyOrAheadFates(AllCommits), ThrowsAhead);
    ThrownAheadAt1(pageSize);
    assert [C1][0] in r.store;
  }

  lemma DiedAt1(pageSize: nat)
    requires 0 < pageSize
    ensures IsStore([C1])
    ensures var t := Act(Leader(0, [LIVE_1], [0, 0], [], 1), HandleNext(Dies(false, true)), [C1], pageSize);
      t.p.applied == [] && 1 in t.p.published
  {
    StoreOfOne();
    var t := Act(Leader(0, [LIVE_1], [0, 0], [], 1), HandleNext(Dies(false, true)), [C1], pageSize);
    assert t.p.published == [0, 0, 1, 0] && t.p.published[2] == 1;
  }

  /** A legacy leader announces commit 1 inside its transaction and dies before the transaction commits: the
      follower gets past the commit, and there is nothing to read of it. */
  lemma FollowerReadsTooEarly(pageSize: nat) returns (r: Run)
    requires 0 < pageSize
    ensures Valid(r) && r.config == Config() && r.pageSize == pageSize
    ensures r.allowed == CrashRecovery.LegacyFates(AllCommits)
    ensures CrashRecovery.Only(AllCommits, Slice(r.store, 0, r.follower.p.checkpoint)) == [C1]
    ensures r.leader.p.applied == []
  {
    r := UntilFirst(pageSize, CrashRecovery.LegacyFates(AllCommits), Dies(false, true));
    DiedAt1(pageSize);
    r := FollowerTo1(r);
    OneDue();
  }

  lemma OneDue()
    ensures IsStore([C1]) && CrashRecovery.Only(AllCommits, Slice([C1], 0, 1)) == [C1]
  {
    StoreOfOne();
    PositionIs([C1], 0, 0);
    PositionIs([C1], 1, 1);
    assert Slice([C1], 0, 1) == [C1];
    assert [C1][..0] == [];
  }

  // ------------------------------------------------------------------ stalling

  const S: seq<Commit> := [C1, C2]
  const TOLD_0: Msg := CurrentCheckpoint(0, 0)
  const TOLD_2: Msg := CurrentCheckpoint(0, 2)

  lemma StoreOfTwo()
    ensures IsStore(S) && Position(S, 0) == 0 && Position(S, 2) == 2
    ensures GetFrom(S, 0) == [C1, C2] && GetFrom(S, 2) == [] && Chain(0, [C1, C2]) == [P1, P2]
    ensures Truthful(S, P1) && Truthful(S, P2)
  {
    PositionIs(S, 0, 0);
    PositionIs(S, 2, 2);
    assert S[0] in S && S[1] in S;
  }

  /** The leader, restarted after it reached 2 live without saving it. */
  function Again(checkpoint: int, stream: Option<Streamer>, mailbox: seq<Msg>, saved: int, published: seq<int>,
    applied: seq<Commit>): Tracked
  {
    Tracked(Proc(checkpoint, stream.Some?, stream, map[], mailbox, saved, [0, 0, 1, 2, 0] + published,
      [C1, C2] + applied), 0, 2, 2, 2)
  }

  const BEHIND: Option<Streamer> := Some(Streamer([P2], 2, false))

  lemma LeaderTo2(r: Run) returns (ts: seq<Tracked>, actions: seq<Action>)
    requires r.store == S && 0 < r.pageSize && r.allowed(C1, Completes(false)) && r.allowed(C2, Completes(false))
    ensures LeaderWalk(ts, actions, r) && |actions| == 5
    ensures ts[0] == Leader(0, [], [0, 0], [], 0) && ts[5] == Again(0, None, [CatchUp], 0, [], [])
  {
    StoreOfTwo();
    ts := [Leader(0, [], [0, 0], [], 0), Leader(0, [LIVE_1], [0, 0], [], 1), Leader(1, [], [0, 0, 1], [C1], 1),
      Leader(1, [LIVE_2], [0, 0, 1], [C1], 2), Leader(2, [], [0, 0, 1, 2], [C1, C2], 2),
      Again(0, None, [CatchUp], 0, [], [])];
    actions := [Enqueue(LIVE_1), HANDLE, Enqueue(LIVE_2), HANDLE, Restart];
    assert Restarted(ts[4].p).known == map[];
  }

  lemma LeaderCatchesUp(pageSize: nat)
    requires 2 <= pageSize
    ensures IsStore(S)
    ensures Act(Again(0, None, [CatchUp], 0, [], []), HANDLE, S, pageSize) == Again(0, BEHIND, [SELF_1], 0, [], [])
    ensures Act(Again(0, BEHIND, [SELF_1], 0, [], []), HANDLE, S, pageSize)
      == Again(1, Some(Streamer([], 2, true)), [SELF_2], 0, [], [C1])
  {
    StoreOfTwo();
    assert Page(S, 0, pageSize) == [C1, C2] && Page(S, 2, pageSize) == [];
    assert Start(0, S, pageSize) == Streamer([P1, P2], 2, false);
    assert Nexted(Streamer([P2], 2, false), S, pageSize) == Streamer([], 2, true);
  }

  lemma LeaderCaughtUp(pageSize: nat)
    requires 2 <= pageSize
    ensures IsStore(S)
    ensures Act(Again(1, Some(Streamer([], 2, true)), [SELF_2], 0, [], [C1]), HANDLE, S, pageSize)
      == Again(2, None, [PublishCheckpoint], 2, [], [C1, C2])
    ensures Act(Again(2, None, [PublishCheckpoint], 2, [], [C1, C2]), HANDLE, S, pageSize)
      == Again(2, None, [], 2, [2], [C1, C2])
  {
    StoreOfTwo();
  }

  lemma LeaderTo2Again(r: Run) returns (ts: seq<Tracked>, actions: seq<Action>)
    requires r.store == S && 2 <= r.pageSize && r.allowed(C1, Completes(false)) && r.allowed(C2, Completes(false))
    ensures LeaderWalk(ts, actions, r) && |actions| == 4
    ensures ts[0] == Again(0, None, [CatchUp], 0, [], []) && ts[4] == Again(2, None, [], 2, [2], [C1, C2])
  {
    LeaderCatchesUp(r.pageSize);
    LeaderCaughtUp(r.pageSize);
    ts := [Again(0, None, [CatchUp], 0, [], []), Again(0, BEHIND, [SELF_1], 0, [], []),
      Again(1, Some(Streamer([], 2, true)), [SELF_2], 0, [], [C1]),
      Again(2, None, [PublishCheckpoint], 2, [], [C1, C2]), Again(2, None, [], 2, [2], [C1, C2])];
    actions := [HANDLE, HANDLE, HANDLE, HANDLE];
  }

  /** The follower hears of commit 2 and waits; then it hears that the leader is at 2, and at 0. */
  lemma FollowerHears(r: Run) returns (ts: seq<Tracked>, actions: seq<Action>)
    requires r.store == S && 0 < r.pageSize && 2 in r.leader.p.published && 0 in r.leader.p.published
    ensures FollowerWalk(ts, actions, r) && |actions| == 4
    ensures ts[0] == Follower(0, None, [], 0) && ts[4] == Follower(0, None, [TOLD_2, TOLD_0], 2)
  {
    StoreOfTwo();
    ts := [Follower(0, None, [], 0), Follower(0, None, [LIVE_2], 2), Follower(0, None, [], 2),
      Follower(0, None, [TOLD_2], 2), Follower(0, None, [TOLD_2, TOLD_0], 2)];
    actions := [Enqueue(LIVE_2), HANDLE, Enqueue(TOLD_2), Enqueue(TOLD_0)];
    assert 0 in ts[1].p.known && !AllAhead(Rest(ts[1].p));
  }

  lemma FollowerSends(pageSize: nat)
    requires 2 <= pageSize
    ensures IsStore(S)
    ensures Act(Follower(0, None, [TOLD_2, TOLD_0], 2), HANDLE, S, pageSize)
      == Follower(2, BEHIND, [TOLD_0, SELF_1], 2)
  {
    StoreOfTwo();
    assert Page(S, 0, pageSize) == [C1, C2];
    assert Start(0, S, pageSize) == Streamer([P1, P2], 2, false);
    OneEntry(Act(Follower(0, None, [TOLD_2, TOLD_0], 2), HANDLE, S, pageSize).p.known, 2);
  }

  lemma FollowerIsBlocked(pageSize: nat)
    requires 2 <= pageSize
    ensures IsStore(S)
    ensures Act(Follower(2, BEHIND, [TOLD_0, SELF_1], 2), HANDLE, S, pageSize) == Follower(0, BEHIND, [SELF_1], 2)
    ensures Act(Follower(0, BEHIND, [SELF_1], 2), HANDLE, S, pageSize) == Follower(0, BEHIND, [], 2)
  {
    StoreOfTwo();
    OneEntry(Act(Follower(2, BEHIND, [TOLD_0, SELF_1], 2), HANDLE, S, pageSize).p.known, 0);
    var p := Follower(0, BEHIND, [SELF_1], 2).p;
    assert 0 in p.known && !AllAhead(Rest(p));
  }

  /** The first sends it commit 1, the second makes it drop that commit. */
  lemma FollowerDrops(r: Run) returns (ts: seq<Tracked>, actions: seq<Action>)
    requires r.store == S && 2 <= r.pageSize
    ensures FollowerWalk(ts, actions, r) && |actions| == 3
    ensures ts[0] == Follower(0, None, [TOLD_2, TOLD_0], 2) && ts[3] == Follower(0, BEHIND, [], 2)
  {
    FollowerSends(r.pageSize);
    FollowerIsBlocked(r.pageSize);
    ts := [Follower(0, None, [TOLD_2, TOLD_0], 2), Follower(2, BEHIND, [TOLD_0, SELF_1], 2),
      Follower(0, BEHIND, [SELF_1], 2), Follower(0, BEHIND, [], 2)];
    actions := [HANDLE, HANDLE, HANDLE];
  }

  /** News of 2 again finds nothing to go on with. */
  lemma FollowerStays(r: Run) returns (ts: seq<Tracked>, actions: seq<Action>)
    requires r.store == S && 2 <= r.pageSize && 2 in r.leader.p.published
    ensures FollowerWalk(ts, actions, r) && |actions| == 2
    ensures ts[0] == Follower(0, BEHIND, [], 2) && ts[2] == Follower(2, BEHIND, [], 2)
  {
    StoreOfTwo();
    ts := [Follower(0, BEHIND, [], 2), Follower(0, BEHIND, [TOLD_2], 2), Follower(2, BEHIND, [], 2)];
    actions := [Enqueue(TOLD_2), HANDLE];
    OneEntry(Act(ts[1], HANDLE, S, r.pageSize).p.known, 2);
  }

  lemma StoreGrows() returns (one: seq<Commit>, two: seq<Commit>)
    ensures one == [C1] && two == S && two == one + [C2] && Head(one) < C2.token
  {
    one, two := [C1], S;
  }

  lemma TwoCommits(r: Run) returns (r': Run)
    requires Valid(r) && Ready(r)
    ensures Valid(r') && r' == r.(steps := r'.steps, store := S)
  {
    r' := FirstCommit(r);
    var one, two := StoreGrows();
    r' := Commits(r', C2, two);
  }

  lemma AgainPublished(checkpoint: int, stream: Option<Streamer>, mailbox: seq<Msg>, saved: int,
    published: seq<int>, applied: seq<Commit>)
    ensures var a := Again(checkpoint, stream, mailbox, saved, published, applied);
      0 in a.p.published && 2 in a.p.published
  {
    assert ([0, 0, 1, 2, 0] + published)[3] == 2 && ([0, 0, 1, 2, 0] + published)[0] == 0;
  }

  lemma UntilLeaderBack(pageSize: nat) returns (r: Run)
    requires 2 <= pageSize
    ensures Valid(r) && r.config == Config() && r.pageSize == pageSize && r.allowed(C1, Completes(false))
    ensures r.allowed(C2, Completes(false)) && r.store == S
    ensures r.leader == Again(0, None, [CatchUp], 0, [], []) && r.follower == Follower(0, None, [], 0)
  {
    r := GetReady(pageSize, (c, fate) => true);
    r := TwoCommits(r);
    var ts, actions := LeaderTo2(r);
    r := Leads(r, ts, actions);
  }

  lemma UntilDropped(r: Run) returns (r': Run)
    requires Valid(r) && r.store == S && 2 <= r.pageSize && r.follower == Follower(0, None, [], 0)
    requires 2 in r.leader.p.published && 0 in r.leader.p.published
    ensures Valid(r') && r' == r.(steps := r'.steps, follower := Follower(0, BEHIND, [], 2))
  {
    var ts, actions := FollowerHears(r);
    r' := Follows(r, ts, actions);
    ts, actions := FollowerDrops(r');
    r' := Follows(r', ts, actions);
  }

  lemma UntilToldAgain(r: Run) returns (r': Run)
    requires Valid(r) && r.store == S && 2 <= r.pageSize && r.follower == Follower(0, BEHIND, [], 2)
    requires r.leader == Again(0, None, [CatchUp], 0, [], [])
    requires r.allowed(C1, Completes(false)) && r.allowed(C2, Completes(false))
    ensures Valid(r') && r' == r.(steps := r'.steps, leader := r'.leader, follower := r'.follower)
    ensures r'.leader == Again(2, None, [], 2, [2], [C1, C2]) && r'.follower == Follower(2, BEHIND, [], 2)
  {
    var ts, actions := LeaderTo2Again(r);
    r' := Leads(r, ts, actions);
    AgainPublished(2, None, [], 2, [2], [C1, C2]);
    ts, actions := FollowerStays(r');
    r' := Follows(r', ts, actions);
  }

  /** At rest, with the leader at the head and the follower stuck. */
  ghost predicate StalledAtRest(g: Graph) {
    && GraphProgress.AtRest(g) && Head(g.store) == 2
    && GraphProgress.HeadAnnounced(g, 0) && !GraphProgress.HeadAnnounced(g, 1) && 1 in g.nodes
    && g.nodes[1].p.checkpoint == 0 && AllAhead(g.nodes[1].p) && NoStall.Stuck(g.store, g.nodes[1].p)
  }

  lemma EndsStalled(g: Graph)
    requires Both(g, S, Again(2, None, [], 2, [2], [C1, C2]), Follower(2, BEHIND, [], 2))
    ensures StalledAtRest(g)
  {
    StoreOfTwo();
    assert Truthful(S, P1);
    assert Announcements.LastAnnounced(g.nodes[0].p) == 2;
    forall f, p | f in g.nodes && p in g.nodes[f].p.known ensures GraphProgress.UpToDate(g, f, p) {
    }
  }

  /** A follower that hears 2, then after a restart of its proceeding processor 0, and then 2 again: the first
      sends it commit 1, the second makes it drop that commit, and the third finds nothing to go on with. The
      graph comes to rest with everything known and delivered, the leader at the head, and the follower stuck
      two commits behind: the conditions of NoStallInAnyRun and GraphReachesHead cannot be dropped. */
  lemma OldNewsStalls(pageSize: nat) returns (r: Run)
    requires 2 <= pageSize
    ensures Valid(r) && r.config == Config() && r.pageSize == pageSize
    ensures StalledAtRest(End(r))
  {
    r := UntilLeaderBack(pageSize);
    AgainPublished(0, None, [CatchUp], 0, [], []);
    r := UntilDropped(r);
    r := UntilToldAgain(r);
    EndsStalled(End(r));
  }
}
