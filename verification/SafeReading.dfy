/** What sequencing is for: a processor may read the read models of the processors it follows. Whatever commit it
    has got to, the effects of that commit and of all before it are in the read model it reads. */
module SafeReading {
  import opened CommitStore
  import opened StreamProcessor
  import opened ProcessorGraph
  import opened CrashRecovery
  import Sequencing

  /** Each announced checkpoint is backed by n effects: all those due by then. */
  ghost predicate Backed(projects: Commit -> bool, store: seq<Commit>, origin: int, published: seq<int>, n: nat)
    requires IsStore(store)
  {
    forall c :: c in published ==> DueBy(projects, store, origin, c) <= n
  }

  lemma DueByMonotone(projects: Commit -> bool, store: seq<Commit>, origin: int, c: int, c': int)
    requires IsStore(store) && c <= c'
    ensures Only(projects, Slice(store, origin, c)) <= Only(projects, Slice(store, origin, c'))
  {
    if origin <= c {
      PositionMonotone(store, origin, c);
      PositionMonotone(store, c, c');
      OnlyPrefix(projects, Slice(store, origin, c), Slice(store, origin, c'));
    }
  }

  lemma BackedGrows(projects: Commit -> bool, s: seq<Commit>, s': seq<Commit>, origin: int, published: seq<int>, n: nat)
    requires Grows(s, s') && IsCheckpoint(s, origin) && Backed(projects, s, origin, published, n)
    requires forall c :: c in published ==> IsCheckpoint(s, c)
    ensures Backed(projects, s', origin, published, n)
  {
    forall c | c in published ensures DueBy(projects, s', origin, c) <= n {
      SliceGrows(s, s', origin, c);
    }
  }

  /** All effects due by a checkpoint at or below the highest announced one are in the log. */
  lemma BackedBelowHighest(projects: Commit -> bool, store: seq<Commit>, origin: int, published: seq<int>,
    log: seq<Commit>, c: int)
    requires IsStore(store) && IsCheckpoint(store, origin) && log <= Due(projects, store, origin)
    requires Backed(projects, store, origin, published, |log|) && c <= Sequencing.Highest(published)
    ensures Only(projects, Slice(store, origin, c)) <= log
  {
    var top := Sequencing.Highest(published);
    Sequencing.HighestIs(published);
    AtMostHead(store, origin);
    DueByMonotone(projects, store, origin, c, top);
    if origin <= c {
      DueByPrefix(projects, store, origin, c);
    }
  }

  // ------------------------------------------------------------------ effects first, then the checkpoint

  lemma LogGrows(projects: Commit -> bool, applied: seq<Commit>, c: Commit)
    ensures |EffectLog(projects, applied)| <= |EffectLog(projects, applied + [c])|
  {
    EffectLogStep(projects, applied, c);
  }

  /** What one commit makes a processor announce and apply. */
  lemma AdvanceAnnounces(p: Proc, c: Commit, fate: Fate)
    ensures var q := Advance(p, c, fate).p;
      && (forall x :: x in q.published ==> x in p.published || x == c.token)
      && (fate.Throws? || (fate.Dies? && !fate.announced) ==> q.published == p.published)
      && (q.applied == p.applied || q.applied == p.applied + [c])
      && (fate.Completes? || (fate.Dies? && fate.committed) ==> q.applied == p.applied + [c])
  {
  }

  lemma AdvanceBacked(projects: Commit -> bool, store: seq<Commit>, origin: int, p: Proc, o: OrderedCommit, fate: Fate)
    requires IsStore(store) && RecoveryOk(projects, store, origin, p)
    requires Backed(projects, store, origin, p.published, |EffectLog(projects, p.applied)|)
    requires Truthful(store, o) && o.previous == p.checkpoint && SqlFate(projects, o.commit, fate)
    ensures var q := Advance(p, o.commit, fate).p;
      Backed(projects, store, origin, q.published, |EffectLog(projects, q.applied)|)
  {
    var q := Advance(p, o.commit, fate).p;
    AdvanceAnnounces(p, o.commit, fate);
    LogGrows(projects, p.applied, o.commit);
    TokenBacked(projects, store, origin, p, o);
    AlsoBacked(projects, store, origin, p.published, q.published, o.commit.token,
      |EffectLog(projects, p.applied)|, |EffectLog(projects, q.applied)|);
  }

  /** The next commit's token is backed once its effects are applied, and at once if it has none. */
  lemma TokenBacked(projects: Commit -> bool, store: seq<Commit>, origin: int, p: Proc, o: OrderedCommit)
    requires IsStore(store) && RecoveryOk(projects, store, origin, p)
    requires Truthful(store, o) && o.previous == p.checkpoint
    ensures DueBy(projects, store, origin, o.commit.token) <= |EffectLog(projects, p.applied + [o.commit])|
    ensures !projects(o.commit) ==> DueBy(projects, store, origin, o.commit.token) <= |EffectLog(projects, p.applied)|
  {
    ApplyNext(projects, store, origin, p, o);
    DueNext(projects, store, origin, o);
  }

  lemma AlsoBacked(projects: Commit -> bool, store: seq<Commit>, origin: int, published: seq<int>,
    published': seq<int>, c: int, n: nat, n': nat)
    requires IsStore(store) && Backed(projects, store, origin, published, n) && n <= n'
    requires forall x :: x in published' ==> x in published || x == c
    requires c in published' && c !in published ==> DueBy(projects, store, origin, c) <= n'
    ensures Backed(projects, store, origin, published', n')
  {
  }

  /** Going on after a commit announces nothing and applies nothing. */
  lemma ContinueSame(p: Proc, store: seq<Commit>, pageSize: nat)
    requires IsStore(store) && Shape(p)
    ensures var q := Continue(p, store, pageSize); q.published == p.published && q.applied == p.applied
  {
  }

  lemma RestartBacked(projects: Commit -> bool, store: seq<Commit>, origin: int, p: Proc)
    requires IsStore(store) && RecoveryOk(projects, store, origin, Restarted(p))
    requires Backed(projects, store, origin, p.published, |EffectLog(projects, p.applied)|)
    ensures var q := Restarted(p); Backed(projects, store, origin, q.published, |EffectLog(projects, q.applied)|)
  {
  }

  lemma AcceptBacked(projects: Commit -> bool, store: seq<Commit>, origin: int, t: Tracked, fate: Fate, pageSize: nat)
    requires TrackedOk(store, t) && RecoveryOk(projects, store, origin, t.p) && Accepts(t.p) && 0 < pageSize
    requires Backed(projects, store, origin, t.p.published, |EffectLog(projects, t.p.applied)|)
    requires SqlFate(projects, t.p.mailbox[0].note.commit, fate)
    ensures var q := Act(t, HandleNext(fate), store, pageSize).p;
      Backed(projects, store, origin, q.published, |EffectLog(projects, q.applied)|)
  {
    var note := t.p.mailbox[0].note;
    var r := Rest(t.p);
    HandleChanges(t.p, fate, store, pageSize);
    RestOk(t.p, store);
    SavingKeepsRecovery(projects, store, origin, t.p, r);
    AdvanceBacked(projects, store, origin, r, note, fate);
    AdvanceKeepsRecovery(projects, store, origin, r, note, fate);
    var q := Advance(r, note.commit, fate).p;
    if fate.Completes? {
      AdvanceOk(r, note, fate, store);
      ContinueSame(q, store, pageSize);
    } else {
      RestartBacked(projects, store, origin, q);
    }
  }

  lemma SameBacked(projects: Commit -> bool, store: seq<Commit>, origin: int, p: Proc, q: Proc)
    requires IsStore(store) && RecoveryOk(projects, store, origin, p)
    requires Backed(projects, store, origin, p.published, |EffectLog(projects, p.applied)|)
    requires q.applied == p.applied
    requires forall c :: c in q.published ==> c in p.published || c == p.checkpoint || c == p.saved
    ensures Backed(projects, store, origin, q.published, |EffectLog(projects, q.applied)|)
  {
  }

  /** Actions that process no commit announce at most the current checkpoint or the saved one. */
  lemma OtherActionAnnounces(t: Tracked, action: Action, store: seq<Commit>, pageSize: nat)
    requires TrackedOk(store, t) && 0 < pageSize && !(action.HandleNext? && Accepts(t.p))
    ensures var q := Act(t, action, store, pageSize).p;
      && q.applied == t.p.applied
      && forall c :: c in q.published ==> c in t.p.published || c == t.p.checkpoint || c == t.p.saved
  {
    if action.HandleNext? && t.p.mailbox != [] {
      HandleChanges(t.p, action.fate, store, pageSize);
    }
  }

  lemma ActBacked(projects: Commit -> bool, store: seq<Commit>, origin: int, t: Tracked, action: Action, pageSize: nat)
    requires TrackedOk(store, t) && RecoveryOk(projects, store, origin, t.p) && 0 < pageSize
    requires Backed(projects, store, origin, t.p.published, |EffectLog(projects, t.p.applied)|)
    requires action.HandleNext? && Accepts(t.p) ==> SqlFate(projects, t.p.mailbox[0].note.commit, action.fate)
    ensures var q := Act(t, action, store, pageSize).p;
      Backed(projects, store, origin, q.published, |EffectLog(projects, q.applied)|)
  {
    if action.HandleNext? && Accepts(t.p) {
      AcceptBacked(projects, store, origin, t, action.fate, pageSize);
    } else {
      OtherActionAnnounces(t, action, store, pageSize);
      SameBacked(projects, store, origin, t.p, Act(t, action, store, pageSize).p);
    }
  }

  lemma StepBacked(g: Graph, step: Step, pageSize: nat, id: nat, projects: Commit -> bool, origin: int)
    requires GraphOk(g) && 0 < pageSize && id in g.nodes
    requires var p := g.nodes[id].p;
      && RecoveryOk(projects, g.store, origin, p) && FateStep(p, step, id, SqlFates(projects))
      && Backed(projects, g.store, origin, p.published, |EffectLog(projects, p.applied)|)
    ensures var g' := Apply(g, step, pageSize);
      && IsStore(g'.store) && id in g'.nodes
      && var p := g'.nodes[id].p; Backed(projects, g'.store, origin, p.published, |EffectLog(projects, p.applied)|)
  {
    NodeAfter(g, step, pageSize, id);
    var t := g.nodes[id];
    assert TrackedOk(g.store, t);
    if Possible(g, step) {
      if step.Append? {
        AppendGrows(g.store, step.commit);
        BackedGrows(projects, g.store, g.store + [step.commit], origin, t.p.published,
          |EffectLog(projects, t.p.applied)|);
      } else if step.id == id {
        ActBacked(projects, g.store, origin, t, step.action, pageSize);
      }
    }
  }

  /** In every run with crashes anywhere, whatever checkpoint a SqlProjector announces is backed by its effects. */
  lemma {:induction false} AnnouncedIsApplied(config: map<nat, Setup>, store: seq<Commit>, steps: seq<Step>,
    pageSize: nat, id: nat, projects: Commit -> bool)
    requires SetupOk(config, store) && 0 < pageSize && id in config
    requires SqlRun(config, store, steps, pageSize, id, projects)
    ensures var g := Execute(config, store, steps, pageSize); var p := g.nodes[id].p;
      Backed(projects, g.store, config[id].initial, p.published, |EffectLog(projects, p.applied)|)
    decreases |steps|
  {
    if steps == [] {
      assert Slice(store, config[id].initial, config[id].initial) == [];
    } else {
      var n := |steps| - 1;
      AnnouncedIsApplied(config, store, steps[..n], pageSize, id, projects);
      AppliedEffectsAreAStorePrefix(config, store, steps[..n], pageSize, id, projects);
      StepBacked(Execute(config, store, steps[..n], pageSize), steps[n], pageSize, id, projects, config[id].initial);
    }
  }

  /** Safe to read: in every run with any loss, repeat, delay and crash, the effects due by a follower's
      checkpoint are all among the effects its proceeding SqlProjector has applied, in order; also when that one
      has since restarted below the follower. */
  lemma SafeToRead(config: map<nat, Setup>, store: seq<Commit>, steps: seq<Step>, pageSize: nat,
    f: nat, p: nat, projects: Commit -> bool)
    requires SetupOk(config, store) && 0 < pageSize && Sequencing.StartsSequenced(config)
    requires f in config && p in config[f].proceeding
    requires p in config && SqlRun(config, store, steps, pageSize, p, projects)
    ensures var g := Execute(config, store, steps, pageSize);
      Only(projects, Slice(g.store, config[p].initial, g.nodes[f].p.checkpoint))
        <= EffectLog(projects, g.nodes[p].p.applied)
  {
    var g := Execute(config, store, steps, pageSize);
    Sequencing.NeverAheadOfProceeding(config, store, steps, pageSize, f, p);
    AnnouncedIsApplied(config, store, steps, pageSize, p, projects);
    AppliedEffectsAreAStorePrefix(config, store, steps, pageSize, p, projects);
    BackedBelowHighest(projects, g.store, config[p].initial, g.nodes[p].p.published,
      EffectLog(projects, g.nodes[p].p.applied), g.nodes[f].p.checkpoint);
  }

  // ------------------------------------------------------------------ effects and checkpoint in one transaction

  /** Handling commit c so ends with it announced although its effects are not durable. Outside a catch-up the
      checkpoint is announced as soon as it is set, inside the transaction, and the host dies before the
      transaction commits; or the transaction fails with the checkpoint already moved, which the error handler
      then saves. */
  predicate AnnouncesAhead(canProject: Commit -> bool, p: Proc, c: Commit, fate: Fate) {
    canProject(c) && (fate.ThrowsAhead? || (fate == Dies(false, true) && !p.catchingUp))
  }

  /** What is announced after a commit, and a restart if it failed. */
  lemma AnnouncedAfter(p: Proc, c: Commit, fate: Fate)
    ensures var published := AfterCommit(p, c, fate).published;
      && (forall x :: x in published ==> x in p.published || x == p.checkpoint || x == p.saved || x == c.token)
      && (fate.Throws? || (fate.Dies? && (!fate.announced || p.catchingUp)) ==>
          forall x :: x in published ==> x in p.published || x == p.checkpoint || x == p.saved)
      && (fate.ThrowsAhead? || (fate.Dies? && fate.announced && !p.catchingUp) ==> c.token in published)
  {
  }

  lemma AppliedAfter(canProject: Commit -> bool, p: Proc, c: Commit, fate: Fate)
    ensures var n := |Only(canProject, p.applied)|; var n' := |Only(canProject, AfterCommit(p, c, fate).applied)|;
      && n <= n'
      && (fate.Completes? && canProject(c) ==> n' == n + 1)
      && (fate.ThrowsAhead? || (fate.Dies? && !fate.committed) ==> n' == n)
  {
    OnlyStep(canProject, p.applied, c);
  }

  /** The exact condition for one commit: all that is announced stays backed if and only if this one is not
      announced ahead of its effects. */
  lemma LegacyBackedExactly(canProject: Commit -> bool, store: seq<Commit>, origin: int, p: Proc,
    o: OrderedCommit, fate: Fate)
    requires IsStore(store) && LegacyOk(canProject, store, origin, p)
    requires Backed(canProject, store, origin, p.published, |Only(canProject, p.applied)|)
    requires Truthful(store, o) && o.previous == p.checkpoint && LegacyOrAheadFates(canProject)(o.commit, fate)
    ensures var q := AfterCommit(p, o.commit, fate);
      Backed(canProject, store, origin, q.published, |Only(canProject, q.applied)|)
      <==> !AnnouncesAhead(canProject, p, o.commit, fate)
  {
    AnnouncedAfter(p, o.commit, fate);
    AppliedAfter(canProject, p, o.commit, fate);
    DueNext(canProject, store, origin, o);
  }

  lemma LegacySameBacked(canProject: Commit -> bool, store: seq<Commit>, origin: int, p: Proc, q: Proc)
    requires IsStore(store) && LegacyOk(canProject, store, origin, p)
    requires Backed(canProject, store, origin, p.published, |Only(canProject, p.applied)|)
    requires q.applied == p.applied
    requires forall c :: c in q.published ==> c in p.published || c == p.checkpoint || c == p.saved
    ensures Backed(canProject, store, origin, q.published, |Only(canProject, q.applied)|)
  {
  }

  lemma LegacyActBacked(canProject: Commit -> bool, store: seq<Commit>, origin: int, t: Tracked, action: Action,
    pageSize: nat)
    requires TrackedOk(store, t) && LegacyOk(canProject, store, origin, t.p) && 0 < pageSize
    requires Backed(canProject, store, origin, t.p.published, |Only(canProject, t.p.applied)|)
    requires LegacyBacks(t.p, action, canProject)
    ensures var q := Act(t, action, store, pageSize).p;
      Backed(canProject, store, origin, q.published, |Only(canProject, q.applied)|)
  {
    if action.HandleNext? && Accepts(t.p) {
      var note, r := t.p.mailbox[0].note, Rest(t.p);
      HandleChanges(t.p, action.fate, store, pageSize);
      RestOk(t.p, store);
      SavingKeepsLegacy(canProject, store, origin, t.p, r);
      LegacyBackedExactly(canProject, store, origin, r, note, action.fate);
      if action.fate.Completes? {
        AdvanceOk(r, note, action.fate, store);
        ContinueSame(Advance(r, note.commit, action.fate).p, store, pageSize);
      }
    } else {
      OtherActionAnnounces(t, action, store, pageSize);
      LegacySameBacked(canProject, store, origin, t.p, Act(t, action, store, pageSize).p);
    }
  }

  /** If the action handles a commit, it ends as LegacyFate says, and without announcing ahead. */
  predicate LegacyBacks(p: Proc, action: Action, canProject: Commit -> bool) {
    action.HandleNext? && Accepts(p) ==>
      && LegacyFate(canProject, p.mailbox[0].note.commit, action.fate)
      && !AnnouncesAhead(canProject, p, p.mailbox[0].note.commit, action.fate)
  }

  ghost predicate LegacyBackedRun(config: map<nat, Setup>, store: seq<Commit>, steps: seq<Step>, pageSize: nat,
    id: nat, canProject: Commit -> bool)
    requires SetupOk(config, store) && 0 < pageSize && id in config
    decreases |steps|
  {
    steps == [] ||
    var n := |steps| - 1;
    && LegacyBackedRun(config, store, steps[..n], pageSize, id, canProject)
    && LegacyBacksStep(Execute(config, store, steps[..n], pageSize).nodes[id].p, steps[n], id, canProject)
  }

  predicate LegacyBacksStep(p: Proc, step: Step, id: nat, canProject: Commit -> bool) {
    step.At? && step.id == id ==> LegacyBacks(p, step.action, canProject)
  }

  lemma StepLegacyBacked(g: Graph, step: Step, pageSize: nat, id: nat, canProject: Commit -> bool, origin: int)
    requires GraphOk(g) && 0 < pageSize && id in g.nodes
    requires var p := g.nodes[id].p;
      && LegacyOk(canProject, g.store, origin, p) && LegacyBacksStep(p, step, id, canProject)
      && Backed(canProject, g.store, origin, p.published, |Only(canProject, p.applied)|)
    ensures var g' := Apply(g, step, pageSize);
      && IsStore(g'.store) && id in g'.nodes
      && var p := g'.nodes[id].p; Backed(canProject, g'.store, origin, p.published, |Only(canProject, p.applied)|)
  {
    NodeAfter(g, step, pageSize, id);
    var t := g.nodes[id];
    assert TrackedOk(g.store, t);
    if Possible(g, step) {
      if step.Append? {
        AppendGrows(g.store, step.commit);
        BackedGrows(canProject, g.store, g.store + [step.commit], origin, t.p.published,
          |Only(canProject, t.p.applied)|);
      } else if step.id == id {
        LegacyActBacked(canProject, g.store, origin, t, step.action, pageSize);
      }
    }
  }

  lemma {:induction false} LegacyAnnouncedIsApplied(config: map<nat, Setup>, store: seq<Commit>, steps: seq<Step>,
    pageSize: nat, id: nat, canProject: Commit -> bool)
    requires SetupOk(config, store) && 0 < pageSize && id in config
    requires LegacyBackedRun(config, store, steps, pageSize, id, canProject)
    ensures LegacyRun(config, store, steps, pageSize, id, canProject)
    ensures var g := Execute(config, store, steps, pageSize); var p := g.nodes[id].p;
      Backed(canProject, g.store, config[id].initial, p.published, |Only(canProject, p.applied)|)
    decreases |steps|
  {
    if steps == [] {
      assert Slice(store, config[id].initial, config[id].initial) == [];
    } else {
      var n := |steps| - 1;
      LegacyAnnouncedIsApplied(config, store, steps[..n], pageSize, id, canProject);
      LegacyExactlyOnce(config, store, steps[..n], pageSize, id, canProject);
      var g := Execute(config, store, steps[..n], pageSize);
      StepLegacyBacked(g, steps[n], pageSize, id, canProject, config[id].initial);
    }
  }

  /** Safe to read from a legacy projector, in every run in which it announces nothing ahead of its effects. */
  lemma SafeToReadLegacy(config: map<nat, Setup>, store: seq<Commit>, steps: seq<Step>, pageSize: nat,
    f: nat, p: nat, canProject: Commit -> bool)
    requires SetupOk(config, store) && 0 < pageSize && Sequencing.StartsSequenced(config)
    requires f in config && p in config[f].proceeding
    requires p in config && LegacyBackedRun(config, store, steps, pageSize, p, canProject)
    ensures var g := Execute(config, store, steps, pageSize);
      Only(canProject, Slice(g.store, config[p].initial, g.nodes[f].p.checkpoint))
        <= Only(canProject, g.nodes[p].p.applied)
  {
    var g := Execute(config, store, steps, pageSize);
    var leader := g.nodes[p].p;
    Sequencing.NeverAheadOfProceeding(config, store, steps, pageSize, f, p);
    LegacyAnnouncedIsApplied(config, store, steps, pageSize, p, canProject);
    LegacyExactlyOnce(config, store, steps, pageSize, p, canProject);
    DueByPrefix(canProject, g.store, config[p].initial, leader.checkpoint);
    BackedBelowHighest(canProject, g.store, config[p].initial, leader.published,
      Only(canProject, leader.applied), g.nodes[f].p.checkpoint);
  }
}
