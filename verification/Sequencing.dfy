/** Sequenced processors: what "this processor's checkpoint will never be greater than the proceeding one's"
    amounts to over whole runs. */
module Sequencing {
  import opened Prelude
  import opened CommitStore
  import opened StreamProcessor
  import opened ProcessorGraph

  /** f is proceeded by p. */
  ghost predicate Follows(g: Graph, f: nat, p: nat) {
    f in g.nodes && p in g.nodes[f].p.known
  }

  /** Nothing t did, knows or is about to be told about p exceeds `high`. */
  ghost predicate Under(t: Tracked, p: nat, high: int) {
    && p in t.p.known
    && t.high <= high && t.p.known[p] <= high
    && forall m :: m in t.p.mailbox ==> NewsOk(m, p, high)
  }

  ghost predicate NewsOk(m: Msg, p: nat, high: int) {
    m.CurrentCheckpoint? && m.source == p ==> m.checkpoint <= high
  }

  /** The highest checkpoint announced. */
  function Highest(published: seq<int>): int {
    if published == [] then 0 else Max(Highest(published[..|published| - 1]), published[|published| - 1])
  }

  lemma {:induction false} AtMostHighest(published: seq<int>, c: int)
    requires c in published
    ensures c <= Highest(published)
    decreases |published|
  {
    var n := |published| - 1;
    if c != published[n] {
      assert published == published[..n] + [published[n]];
      AtMostHighest(published[..n], c);
    }
  }

  lemma {:induction false} HighestIs(published: seq<int>)
    ensures 0 <= Highest(published)
    ensures Highest(published) == 0 || Highest(published) in published
    decreases |published|
  {
    if published != [] {
      HighestIs(published[..|published| - 1]);
    }
  }

  lemma {:induction false} HighestRises(a: seq<int>, b: seq<int>)
    requires a <= b
    ensures Highest(a) <= Highest(b)
    decreases |b|
  {
    if a != b {
      HighestRises(a, b[..|b| - 1]);
    }
  }

  /** Only checkpoints that were reached are announced. */
  lemma HighestReached(g: Graph, p: nat)
    requires GraphOk(g) && p in g.nodes
    ensures Highest(g.nodes[p].p.published) <= g.nodes[p].high
  {
    assert TrackedOk(g.store, g.nodes[p]);
    HighestIs(g.nodes[p].p.published);
    AtMostHead(g.store, g.nodes[p].p.checkpoint);
  }

  /** f stays under the highest checkpoint p ever announced. */
  ghost predicate EdgeOk(g: Graph, f: nat, p: nat)
    requires Follows(g, f, p)
  {
    p in g.nodes && Under(g.nodes[f], p, Highest(g.nodes[p].p.published))
  }

  ghost predicate Sequenced(g: Graph) {
    forall f, p :: Follows(g, f, p) ==> EdgeOk(g, f, p)
  }

  /** A processor's best checkpoint only ever rises, and never past what it knows of a proceeding processor. */
  lemma HighRises(t: Tracked, action: Action, store: seq<Commit>, pageSize: nat)
    requires TrackedOk(store, t) && 0 < pageSize
    ensures var t' := Act(t, action, store, pageSize);
      && t.high <= t'.high
      && forall p :: p in t.p.known ==> t'.high <= Max(t.high, t.p.known[p])
  {
    if action.HandleNext? && t.p.mailbox != [] {
      HandleChanges(t.p, action.fate, store, pageSize);
      if Accepts(t.p) {
        var note := t.p.mailbox[0].note;
        assert MsgOk(store, t.p.checkpoint, t.p.mailbox[0]);
        forall p | p in t.p.known ensures note.commit.token <= t.p.known[p] {
          PastPreviousReachesCommit(store, note, t.p.known[p]);
        }
      }
    }
  }

  lemma ActKnown(t: Tracked, action: Action, store: seq<Commit>, pageSize: nat, p: nat)
    requires TrackedOk(store, t) && 0 < pageSize
    ensures var t' := Act(t, action, store, pageSize);
      && t'.p.known.Keys == t.p.known.Keys
      && (p in t.p.known ==>
          || t'.p.known[p] == t.p.known[p] || t'.p.known[p] == 0
          || (action.HandleNext? && t.p.mailbox != [] && t.p.mailbox[0] == CurrentCheckpoint(p, t'.p.known[p])))
  {
    if action.HandleNext? && t.p.mailbox != [] {
      HandleKnown(t.p, action.fate, store, pageSize, p);
    }
  }

  /** Every message in the mailbox afterwards was there, was just sent, or is one the processor sends itself. */
  lemma ActMail(t: Tracked, action: Action, store: seq<Commit>, pageSize: nat, i: nat)
    requires TrackedOk(store, t) && 0 < pageSize && i < |Act(t, action, store, pageSize).p.mailbox|
    ensures var m := Act(t, action, store, pageSize).p.mailbox[i];
      m in t.p.mailbox || m == CatchUp || SelfSent(m) || action == Enqueue(m)
  {
    match action
    case HandleNext(fate) =>
      if t.p.mailbox != [] {
        HandleMail(t.p, fate, store, pageSize);
        var rest := t.p.mailbox[1..];
        assert i < |rest| ==> rest[i] in t.p.mailbox;
      }
    case _ =>
  }

  lemma ActPublishes(t: Tracked, action: Action, store: seq<Commit>, pageSize: nat)
    requires TrackedOk(store, t) && 0 < pageSize
    ensures t.p.published <= Act(t, action, store, pageSize).p.published
  {
    if action.HandleNext? && t.p.mailbox != [] {
      HandlePublishes(t.p, action.fate, store, pageSize);
    }
  }

  /** What one action can do to a processor's knowledge, mailbox and best checkpoint. */
  ghost predicate Summary(t: Tracked, t': Tracked, action: Action) {
    && t'.p.known.Keys == t.p.known.Keys
    && t.high <= t'.high
    && t.p.published <= t'.p.published
    && (forall p :: p in t.p.known ==> t'.high <= Max(t.high, t.p.known[p]))
    && (forall p :: p in t.p.known ==>
        || t'.p.known[p] == t.p.known[p] || t'.p.known[p] == 0
        || CurrentCheckpoint(p, t'.p.known[p]) in t.p.mailbox)
    && (forall m :: m in t'.p.mailbox ==> m in t.p.mailbox || m == CatchUp || SelfSent(m) || action == Enqueue(m))
  }

  lemma ActSummary(t: Tracked, action: Action, store: seq<Commit>, pageSize: nat)
    requires TrackedOk(store, t) && 0 < pageSize
    ensures Summary(t, Act(t, action, store, pageSize), action)
  {
    HighRises(t, action, store, pageSize);
    ActPublishes(t, action, store, pageSize);
    var t' := Act(t, action, store, pageSize);
    ActKnown(t, action, store, pageSize, 0);
    forall p | p in t.p.known
      ensures t'.p.known[p] == t.p.known[p] || t'.p.known[p] == 0
        || CurrentCheckpoint(p, t'.p.known[p]) in t.p.mailbox
    {
      ActKnown(t, action, store, pageSize, p);
    }
    forall m | m in t'.p.mailbox ensures m in t.p.mailbox || m == CatchUp || SelfSent(m) || action == Enqueue(m) {
      var i :| 0 <= i < |t'.p.mailbox| && t'.p.mailbox[i] == m;
      ActMail(t, action, store, pageSize, i);
    }
  }

  /** The edge after its following processor has acted. */
  lemma FollowerActs(t: Tracked, t': Tracked, action: Action, p: nat, high: int)
    requires Under(t, p, high) && Summary(t, t', action) && 0 <= high
    requires action.Enqueue? ==> NewsOk(action.m, p, high)
    ensures Under(t', p, high)
  {
    if CurrentCheckpoint(p, t'.p.known[p]) in t.p.mailbox {
      assert NewsOk(CurrentCheckpoint(p, t'.p.known[p]), p, high);
    }
  }

  lemma SentNewsOk(g: Graph, id: nat, action: Action, p: nat)
    requires GraphOk(g) && Possible(g, At(id, action)) && p in g.nodes
    ensures 0 <= Highest(g.nodes[p].p.published)
    ensures action.Enqueue? ==> NewsOk(action.m, p, Highest(g.nodes[p].p.published))
  {
    HighestIs(g.nodes[p].p.published);
    if action.Enqueue? && action.m.CurrentCheckpoint? && action.m.source == p {
      AtMostHighest(g.nodes[p].p.published, action.m.checkpoint);
    }
  }

  lemma ActionKeepsSequenced(g: Graph, id: nat, action: Action, t': Tracked)
    requires GraphOk(g) && Possible(g, At(id, action)) && Summary(g.nodes[id], t', action) && Sequenced(g)
    ensures Sequenced(g.(nodes := g.nodes[id := t']))
    ensures forall f, p :: Follows(g, f, p) <==> Follows(g.(nodes := g.nodes[id := t']), f, p)
  {
    var g' := g.(nodes := g.nodes[id := t']);
    assert forall f, p :: Follows(g', f, p) <==> Follows(g, f, p);
    forall f, p | Follows(g', f, p) ensures EdgeOk(g', f, p) {
      assert EdgeOk(g, f, p);
      if f == id {
        SentNewsOk(g, id, action, p);
      }
      EdgeKept(g, id, action, t', f, p);
    }
  }

  lemma EdgeKept(g: Graph, id: nat, action: Action, t': Tracked, f: nat, p: nat)
    requires id in g.nodes && Summary(g.nodes[id], t', action)
    requires Follows(g, f, p) && EdgeOk(g, f, p)
    requires var top := Highest(g.nodes[p].p.published);
      f == id ==> 0 <= top && (action.Enqueue? ==> NewsOk(action.m, p, top))
    ensures p in g.nodes && Follows(g.(nodes := g.nodes[id := t']), f, p)
    ensures EdgeOk(g.(nodes := g.nodes[id := t']), f, p)
  {
    if f == id {
      FollowerActs(g.nodes[f], t', action, p, Highest(g.nodes[p].p.published));
    }
    if p == id {
      HighestRises(g.nodes[p].p.published, t'.p.published);
    }
  }

  /** Every possible step keeps every edge, whatever is lost, late, repeated or restarted. */
  lemma StepKeepsSequenced(g: Graph, step: Step, pageSize: nat)
    requires GraphOk(g) && 0 < pageSize && Sequenced(g)
    ensures Sequenced(Apply(g, step, pageSize))
    ensures forall f, p :: Follows(g, f, p) <==> Follows(Apply(g, step, pageSize), f, p)
  {
    if Possible(g, step) && step.At? {
      ActSummary(g.nodes[step.id], step.action, g.store, pageSize);
      ActionKeepsSequenced(g, step.id, step.action, Act(g.nodes[step.id], step.action, g.store, pageSize));
    } else {
      SameNodesSequenced(g, Apply(g, step, pageSize));
    }
  }

  lemma SameNodesSequenced(g: Graph, g': Graph)
    requires g'.nodes == g.nodes && Sequenced(g)
    ensures Sequenced(g')
    ensures forall f, p :: Follows(g, f, p) <==> Follows(g', f, p)
  {
    forall f, p | Follows(g', f, p) ensures EdgeOk(g', f, p) {
      assert Follows(g, f, p);
    }
  }

  ghost predicate StartsSequenced(config: map<nat, Setup>) {
    forall f, p :: f in config && p in config[f].proceeding ==> p in config && config[f].initial <= config[p].initial
  }

  lemma {:induction false} RunIsSequenced(config: map<nat, Setup>, store: seq<Commit>, steps: seq<Step>,
    pageSize: nat)
    requires SetupOk(config, store) && 0 < pageSize && StartsSequenced(config)
    ensures Sequenced(Execute(config, store, steps, pageSize))
    ensures forall f, p :: f in config && p in config[f].proceeding ==>
      Follows(Execute(config, store, steps, pageSize), f, p)
    decreases |steps|
  {
    if steps == [] {
      var g := Init(config, store);
      forall f, p | Follows(g, f, p) ensures EdgeOk(g, f, p) {
        assert p in config[f].proceeding;
        assert IsCheckpoint(store, config[p].initial);
        AtMostHead(store, config[p].initial);
        AtMostHighest(g.nodes[p].p.published, config[p].initial);
      }
    } else {
      var n := |steps| - 1;
      RunIsSequenced(config, store, steps[..n], pageSize);
      var g := Execute(config, store, steps[..n], pageSize);
      StepKeepsSequenced(g, steps[n], pageSize);
    }
  }

  /** Sequencing safety: in every run a following processor's checkpoint is at most the highest checkpoint the
      proceeding processor ever announced, hence ever reached; so it is at most its checkpoint, unless that one
      restarted lower. */
  lemma NeverAheadOfProceeding(config: map<nat, Setup>, store: seq<Commit>, steps: seq<Step>,
    pageSize: nat, f: nat, p: nat)
    requires SetupOk(config, store) && 0 < pageSize && StartsSequenced(config)
    requires f in config && p in config[f].proceeding
    ensures var g := Execute(config, store, steps, pageSize);
      && p in g.nodes
      && g.nodes[f].p.checkpoint <= Highest(g.nodes[p].p.published) <= g.nodes[p].high
      && (g.nodes[p].p.checkpoint == g.nodes[p].high ==> g.nodes[f].p.checkpoint <= g.nodes[p].p.checkpoint)
  {
    RunIsSequenced(config, store, steps, pageSize);
    var g := Execute(config, store, steps, pageSize);
    assert Follows(g, f, p) && EdgeOk(g, f, p);
    assert TrackedOk(g.store, g.nodes[f]);
    HighestReached(g, p);
  }

  // ------------------------------------------------------------------ exactly when one step overtakes

  /** The processor starts again from its saved checkpoint: it is restarted, or dies over a commit. (When
      processing throws, the current checkpoint is saved first.) */
  predicate FallsBack(t: Tracked, action: Action) {
    action.Restart? || (action.HandleNext? && action.fate.Dies? && Accepts(t.p))
  }

  /** The processor processes a commit, or at least sets its checkpoint to it. */
  predicate GoesOn(t: Tracked, action: Action) {
    action.HandleNext? && (action.fate.Completes? || action.fate.ThrowsAhead?) && Accepts(t.p)
  }

  function MovesTo(t: Tracked, action: Action): int {
    if FallsBack(t, action) then t.p.saved
    else if GoesOn(t, action) then t.p.mailbox[0].note.commit.token
    else t.p.checkpoint
  }

  lemma ActCheckpoint(t: Tracked, action: Action, store: seq<Commit>, pageSize: nat)
    requires TrackedOk(store, t) && 0 < pageSize
    ensures Act(t, action, store, pageSize).p.checkpoint == MovesTo(t, action)
  {
    if action.HandleNext? && t.p.mailbox != [] {
      HandleChanges(t.p, action.fate, store, pageSize);
    }
  }

  /** A step breaks the documented guarantee in one of two ways only: the proceeding processor falls back to a
      saved checkpoint that the follower has passed, or the follower goes on although it is level with it (it
      takes itself to be behind because the proceeding processor has fallen back before). */
  ghost predicate Overtakes(g: Graph, step: Step, f: nat, p: nat)
    requires f in g.nodes && p in g.nodes
  {
    Possible(g, step) && step.At? && f != p &&
    (|| (step.id == p && FallsBack(g.nodes[p], step.action) && g.nodes[p].p.saved < g.nodes[f].p.checkpoint)
     || (step.id == f && GoesOn(g.nodes[f], step.action) && g.nodes[f].p.checkpoint == g.nodes[p].p.checkpoint))
  }

  lemma GuaranteeKeptExactlyUnlessOvertaken(g: Graph, step: Step, pageSize: nat, f: nat, p: nat)
    requires GraphOk(g) && 0 < pageSize && f in g.nodes && p in g.nodes
    requires g.nodes[f].p.checkpoint <= g.nodes[p].p.checkpoint
    ensures var g' := Apply(g, step, pageSize);
      g'.nodes[f].p.checkpoint <= g'.nodes[p].p.checkpoint <==> !Overtakes(g, step, f, p)
  {
    if Possible(g, step) && step.At? {
      var t' := Act(g.nodes[step.id], step.action, g.store, pageSize);
      ActCheckpoint(g.nodes[step.id], step.action, g.store, pageSize);
      OvertakenExactly(g, step, t', f, p);
    }
  }

  lemma OvertakenExactly(g: Graph, step: Step, t': Tracked, f: nat, p: nat)
    requires Possible(g, step) && step.At? && f in g.nodes && p in g.nodes
    requires TrackedOk(g.store, g.nodes[f]) && TrackedOk(g.store, g.nodes[p])
    requires g.nodes[f].p.checkpoint <= g.nodes[p].p.checkpoint
    requires t'.p.checkpoint == MovesTo(g.nodes[step.id], step.action)
    ensures var nodes := g.nodes[step.id := t'];
      nodes[f].p.checkpoint <= nodes[p].p.checkpoint <==> !Overtakes(g, step, f, p)
  {
    if step.id == f {
      FollowerMoves(g.store, g.nodes[f], step.action, g.nodes[p].p.checkpoint);
    } else if step.id == p {
      ProceedingMoves(g.store, g.nodes[p], step.action, g.nodes[f].p.checkpoint);
    }
  }

  /** Where the follower moves to, seen from the checkpoint c of a proceeding processor at or past it. */
  lemma FollowerMoves(store: seq<Commit>, t: Tracked, action: Action, c: int)
    requires TrackedOk(store, t) && IsCheckpoint(store, c) && t.p.checkpoint <= c
    ensures MovesTo(t, action) <= c <==> !(GoesOn(t, action) && t.p.checkpoint == c)
  {
    if GoesOn(t, action) {
      var note := t.p.mailbox[0].note;
      assert MsgOk(store, t.p.checkpoint, t.p.mailbox[0]);
      if t.p.checkpoint < c {
        PastPreviousReachesCommit(store, note, c);
      }
    }
  }

  lemma ProceedingMoves(store: seq<Commit>, t: Tracked, action: Action, c: int)
    requires TrackedOk(store, t) && c <= t.p.checkpoint
    ensures c <= MovesTo(t, action) <==> !(FallsBack(t, action) && t.p.saved < c)
  {
    if GoesOn(t, action) {
      assert MsgOk(store, t.p.checkpoint, t.p.mailbox[0]);
    }
  }

  // ------------------------------------------------------------------ cycles

  /** f follows some member of the set. */
  ghost predicate FollowsOneOf(g: Graph, f: nat, members: set<nat>) {
    exists p :: p in members && Follows(g, f, p)
  }

  /** Every member of the set follows some member of it. */
  ghost predicate Cyclic(g: Graph, members: set<nat>) {
    forall f {:trigger FollowsOneOf(g, f, members)} :: f in members ==> FollowsOneOf(g, f, members)
  }

  ghost predicate Bounded(g: Graph, members: set<nat>, bound: int) {
    forall f :: f in members ==> f in g.nodes && g.nodes[f].high <= bound
  }

  lemma CycleStep(g: Graph, step: Step, pageSize: nat, members: set<nat>, bound: int)
    requires GraphOk(g) && 0 < pageSize && Sequenced(g)
    requires Cyclic(g, members) && Bounded(g, members, bound)
    ensures Cyclic(Apply(g, step, pageSize), members) && Bounded(Apply(g, step, pageSize), members, bound)
  {
    StepKeepsSequenced(g, step, pageSize);
    StaysCyclic(g, Apply(g, step, pageSize), members);
    if Possible(g, step) && step.At? && step.id in members {
      ActSummary(g.nodes[step.id], step.action, g.store, pageSize);
      CycleMember(g, step.id, step.action, Act(g.nodes[step.id], step.action, g.store, pageSize), members, bound);
    }
  }

  lemma StaysCyclic(g: Graph, g': Graph, members: set<nat>)
    requires Cyclic(g, members)
    requires forall f, p :: Follows(g, f, p) ==> Follows(g', f, p)
    ensures Cyclic(g', members)
  {
    forall f | f in members ensures FollowsOneOf(g', f, members) {
      assert FollowsOneOf(g, f, members);
      var p :| p in members && Follows(g, f, p);
      assert Follows(g', f, p);
    }
  }

  /** What a member knows of some proceeding member is within the bound. */
  lemma CycleKnows(g: Graph, id: nat, members: set<nat>, bound: int) returns (p: nat)
    requires GraphOk(g) && Sequenced(g) && id in g.nodes && id in members
    requires Cyclic(g, members) && Bounded(g, members, bound)
    ensures p in g.nodes[id].p.known && g.nodes[id].p.known[p] <= bound
  {
    assert FollowsOneOf(g, id, members);
    p :| p in members && Follows(g, id, p);
    assert EdgeOk(g, id, p);
    HighestReached(g, p);
  }

  lemma CycleMember(g: Graph, id: nat, action: Action, t': Tracked, members: set<nat>, bound: int)
    requires GraphOk(g) && Sequenced(g) && id in g.nodes && id in members && Summary(g.nodes[id], t', action)
    requires Cyclic(g, members) && Bounded(g, members, bound)
    ensures t'.high <= bound
  {
    var p := CycleKnows(g, id, members, bound);
  }

  ghost predicate ProceededByOneOf(setup: Setup, members: set<nat>) {
    exists p :: p in members && p in setup.proceeding
  }

  /** Every member is proceeded by a member, and none starts past the bound. */
  ghost predicate CyclicConfig(config: map<nat, Setup>, members: set<nat>, bound: int) {
    forall f :: f in members ==>
      f in config && config[f].initial <= bound && ProceededByOneOf(config[f], members)
  }

  /** A cycle of "proceeded by" deadlocks: no run ever takes any of its members past the highest checkpoint
      they started from. So the assumption of an acyclic graph in GraphProgress cannot be dropped. */
  lemma CycleNeverAdvances(config: map<nat, Setup>, store: seq<Commit>, steps: seq<Step>, pageSize: nat,
    members: set<nat>, bound: int, f: nat)
    requires SetupOk(config, store) && 0 < pageSize && StartsSequenced(config)
    requires CyclicConfig(config, members, bound) && f in members
    ensures f in Execute(config, store, steps, pageSize).nodes
    ensures Execute(config, store, steps, pageSize).nodes[f].p.checkpoint <= bound
  {
    CycleBounded(config, store, steps, pageSize, members, bound);
    var g := Execute(config, store, steps, pageSize);
    assert TrackedOk(g.store, g.nodes[f]);
  }

  lemma CycleInit(config: map<nat, Setup>, store: seq<Commit>, members: set<nat>, bound: int)
    requires CyclicConfig(config, members, bound)
    ensures Cyclic(Init(config, store), members) && Bounded(Init(config, store), members, bound)
  {
    var g := Init(config, store);
    forall f | f in members ensures FollowsOneOf(g, f, members) {
      assert ProceededByOneOf(config[f], members);
      var p :| p in members && p in config[f].proceeding;
      assert Follows(g, f, p);
    }
  }

  lemma {:induction false} CycleBounded(config: map<nat, Setup>, store: seq<Commit>, steps: seq<Step>, pageSize: nat,
    members: set<nat>, bound: int)
    requires SetupOk(config, store) && 0 < pageSize && StartsSequenced(config)
    requires CyclicConfig(config, members, bound)
    ensures Cyclic(Execute(config, store, steps, pageSize), members)
    ensures Bounded(Execute(config, store, steps, pageSize), members, bound)
    decreases |steps|
  {
    if steps == [] {
      CycleInit(config, store, members, bound);
    } else {
      var n := |steps| - 1;
      CycleBounded(config, store, steps[..n], pageSize, members, bound);
      RunIsSequenced(config, store, steps[..n], pageSize);
      CycleStep(Execute(config, store, steps[..n], pageSize), steps[n], pageSize, members, bound);
    }
  }
}
