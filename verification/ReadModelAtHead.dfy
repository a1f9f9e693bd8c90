/** End to end: after any history of crashes, a projector that is started again and left to catch up has exactly
    the read model that reading the whole store in order gives. */
module ReadModelAtHead {
  import opened CommitStore
  import opened StreamProcessor
  import opened ProcessorGraph
  import opened Quiescence
  import opened CrashRecovery
  import GraphProgress
  import NoStallRuns

  /** At the head, the effects due by the checkpoint are all effects due. */
  lemma AllDueByHead(projects: Commit -> bool, store: seq<Commit>, origin: int)
    requires IsStore(store) && IsCheckpoint(store, origin)
    ensures Slice(store, origin, Head(store)) == GetFrom(store, origin)
    ensures DueBy(projects, store, origin, Head(store)) == |Due(projects, store, origin)|
  {
    AtMostHead(store, origin);
    PositionIs(store, Head(store), |store|);
  }

  // ------------------------------------------------------------------ effects first, then the checkpoint

  lemma OneMoreRecovery(projects: Commit -> bool, origin: int, t: Tracked, fate: Fate, store: seq<Commit>,
    pageSize: nat)
    requires TrackedOk(store, t) && RecoveryOk(projects, store, origin, t.p) && t.p.mailbox != [] && 0 < pageSize
    requires Handle(t.p, fate, store, pageSize).Running?
    requires t.p.mailbox[0].Ordered? ==> SqlFate(projects, t.p.mailbox[0].note.commit, fate)
    ensures var t' := Progressed(t, Handle(t.p, fate, store, pageSize).p);
      TrackedOk(store, t') && RecoveryOk(projects, store, origin, t'.p)
  {
    HandleTracked(t, fate, store, pageSize);
    HandleKeepsRecovery(projects, store, origin, t, fate, pageSize);
  }

  lemma {:induction false} SettleKeepsRecovery(projects: Commit -> bool, origin: int, t: Tracked,
    fates: Commit -> Fate, store: seq<Commit>, pageSize: nat)
    requires TrackedOk(store, t) && RecoveryOk(projects, store, origin, t.p) && 0 < pageSize
    requires forall c :: SqlFate(projects, c, fates(c))
    ensures var r := Settle(t.p, fates, store, pageSize);
      r.Running? ==> RecoveryOk(projects, store, origin, r.p)
    decreases External(t.p.mailbox), Work(t.p, store), |t.p.mailbox|
  {
    if t.p.mailbox != [] {
      var fate := FateOf(t.p.mailbox[0], fates);
      var r := Handle(t.p, fate, store, pageSize);
      if r.Running? {
        OneMoreRecovery(projects, origin, t, fate, store, pageSize);
        HandleDecreases(t.p, fate, store, pageSize);
        SettleKeepsRecovery(projects, origin, Progressed(t, r.p), fates, store, pageSize);
      }
    }
  }

  lemma RecoveredAtHead(projects: Commit -> bool, store: seq<Commit>, origin: int, p: Proc)
    requires IsStore(store) && RecoveryOk(projects, store, origin, p) && p.checkpoint == Head(store)
    ensures EffectLog(projects, p.applied) == Due(projects, store, origin)
  {
    AllDueByHead(projects, store, origin);
  }

  /** The state a projector comes to when it is started again and settles without failures. */
  ghost function CaughtUpAgain(t: Tracked, fates: Commit -> Fate, store: seq<Commit>, pageSize: nat): (q: Proc)
    requires TrackedOk(store, t) && t.p.known.Keys == {} && 0 < pageSize
    requires forall c :: fates(c).Completes?
    ensures AtHeadOf(store, t, q) && ProcOk(store, q)
  {
    CatchUpReachesHead(t, fates, store, pageSize);
    Settle(Revived(t, store).p, fates, store, pageSize).p
  }

  lemma RecoveryComplete<M(!new)>(projects: Commit -> bool, origin: int, t: Tracked, fates: Commit -> Fate,
    store: seq<Commit>, pageSize: nat, project: (M, Commit) -> M, m: M)
    requires TrackedOk(store, t) && RecoveryOk(projects, store, origin, t.p) && t.p.known.Keys == {} && 0 < pageSize
    requires Idempotent(project) && forall c :: fates(c) == Completes(projects(c))
    ensures var q := CaughtUpAgain(t, fates, store, pageSize);
      Fold(project, m, Only(projects, q.applied)) == Fold(project, m, Due(projects, store, origin))
  {
    CatchUpReachesHead(t, fates, store, pageSize);
    RestartKeepsRecovery(projects, store, origin, t.p);
    SettleKeepsRecovery(projects, origin, Revived(t, store), fates, store, pageSize);
    var q := CaughtUpAgain(t, fates, store, pageSize);
    RecoveredAtHead(projects, store, origin, q);
    FoldCollapse(project, m, Only(projects, q.applied));
  }

  /** For every run with crashes anywhere: if projecting is idempotent, a SqlProjector that follows no other
      processor and is started again ends with the read model of the whole store, whatever had happened. */
  lemma RestartedReadModelIsComplete<M(!new)>(config: map<nat, Setup>, store: seq<Commit>, steps: seq<Step>,
    pageSize: nat, id: nat, projects: Commit -> bool, fates: Commit -> Fate, project: (M, Commit) -> M, m: M)
    requires SetupOk(config, store) && 0 < pageSize && id in config && config[id].proceeding == {}
    requires SqlRun(config, store, steps, pageSize, id, projects)
    requires Idempotent(project) && forall c :: fates(c) == Completes(projects(c))
    ensures var g := Execute(config, store, steps, pageSize);
      && TrackedOk(g.store, g.nodes[id]) && g.nodes[id].p.known.Keys == {}
      && var q := CaughtUpAgain(g.nodes[id], fates, g.store, pageSize);
        && q.checkpoint == Head(g.store)
        && Fold(project, m, Only(projects, q.applied))
           == Fold(project, m, Due(projects, g.store, config[id].initial))
  {
    AppliedEffectsAreAStorePrefix(config, store, steps, pageSize, id, projects);
    GraphProgress.KnownStays(config, store, steps, pageSize, id);
    var g := Execute(config, store, steps, pageSize);
    assert TrackedOk(g.store, g.nodes[id]);
    RecoveryComplete(projects, config[id].initial, g.nodes[id], fates, g.store, pageSize, project, m);
  }

  /** For every run with crashes anywhere, in a graph of any shape without cycles: once the graph is at rest with
      no processor stuck, each SqlProjector whose projecting is idempotent has the read model of the whole store,
      whichever processors it follows. */
  lemma GraphReadModelIsComplete<M(!new)>(config: map<nat, Setup>, store: seq<Commit>, steps: seq<Step>,
    pageSize: nat, rank: nat -> nat, id: nat, projects: Commit -> bool, project: (M, Commit) -> M, m: M)
    requires SetupOk(config, store) && 0 < pageSize && GraphProgress.Acyclic(config, rank)
    requires forall i :: i in config ==> NoStallRuns.KeepsMail(steps, i)
    requires var g := Execute(config, store, steps, pageSize); GraphProgress.AtRest(g) && GraphProgress.NoneStuck(g)
    requires id in config && SqlRun(config, store, steps, pageSize, id, projects) && Idempotent(project)
    ensures var g := Execute(config, store, steps, pageSize);
      Fold(project, m, Only(projects, g.nodes[id].p.applied))
        == Fold(project, m, Due(projects, g.store, config[id].initial))
  {
    var g := Execute(config, store, steps, pageSize);
    GraphProgress.GraphReachesHeadUnlessStuck(config, store, steps, pageSize, rank);
    assert GraphProgress.HeadAnnounced(g, id);
    AppliedEffectsAreAStorePrefix(config, store, steps, pageSize, id, projects);
    RecoveredAtHead(projects, g.store, config[id].initial, g.nodes[id].p);
    FoldCollapse(project, m, Only(projects, g.nodes[id].p.applied));
  }

  // ------------------------------------------------------------------ effects and checkpoint in one transaction

  lemma OneMoreLegacy(canProject: Commit -> bool, origin: int, t: Tracked, fate: Fate, store: seq<Commit>,
    pageSize: nat)
    requires TrackedOk(store, t) && LegacyOk(canProject, store, origin, t.p) && t.p.mailbox != [] && 0 < pageSize
    requires Handle(t.p, fate, store, pageSize).Running?
    requires t.p.mailbox[0].Ordered? ==> LegacyFate(canProject, t.p.mailbox[0].note.commit, fate)
    ensures var t' := Progressed(t, Handle(t.p, fate, store, pageSize).p);
      TrackedOk(store, t') && LegacyOk(canProject, store, origin, t'.p)
  {
    HandleTracked(t, fate, store, pageSize);
    HandleKeepsLegacy(canProject, store, origin, t, fate, pageSize);
  }

  lemma {:induction false} SettleKeepsLegacy(canProject: Commit -> bool, origin: int, t: Tracked,
    fates: Commit -> Fate, store: seq<Commit>, pageSize: nat)
    requires TrackedOk(store, t) && LegacyOk(canProject, store, origin, t.p) && 0 < pageSize
    requires forall c :: LegacyFate(canProject, c, fates(c))
    ensures var r := Settle(t.p, fates, store, pageSize);
      r.Running? ==> LegacyOk(canProject, store, origin, r.p)
    decreases External(t.p.mailbox), Work(t.p, store), |t.p.mailbox|
  {
    if t.p.mailbox != [] {
      var fate := FateOf(t.p.mailbox[0], fates);
      var r := Handle(t.p, fate, store, pageSize);
      if r.Running? {
        OneMoreLegacy(canProject, origin, t, fate, store, pageSize);
        HandleDecreases(t.p, fate, store, pageSize);
        SettleKeepsLegacy(canProject, origin, Progressed(t, r.p), fates, store, pageSize);
      }
    }
  }

  lemma {:induction false} SettleStaysMissed(canProject: Commit -> bool, origin: int, t: Tracked,
    fates: Commit -> Fate, store: seq<Commit>, pageSize: nat)
    requires TrackedOk(store, t) && Missed(canProject, store, origin, t.p) && 0 < pageSize
    ensures var r := Settle(t.p, fates, store, pageSize);
      r.Running? ==> Missed(canProject, store, origin, r.p)
    decreases External(t.p.mailbox), Work(t.p, store), |t.p.mailbox|
  {
    if t.p.mailbox != [] {
      var fate := FateOf(t.p.mailbox[0], fates);
      var r := Handle(t.p, fate, store, pageSize);
      if r.Running? {
        HandleTracked(t, fate, store, pageSize);
        MissedStays(canProject, store, origin, t, HandleNext(fate), pageSize);
        HandleDecreases(t.p, fate, store, pageSize);
        SettleStaysMissed(canProject, origin, Progressed(t, r.p), fates, store, pageSize);
      }
    }
  }

  /** At the head, having applied exactly what is due is being exactly once; what was missed is missing. */
  lemma LegacyAtHead(canProject: Commit -> bool, store: seq<Commit>, origin: int, p: Proc)
    requires IsStore(store) && IsCheckpoint(store, origin) && p.checkpoint == Head(store)
    ensures LegacyOk(canProject, store, origin, p) ==> Only(canProject, p.applied) == Due(canProject, store, origin)
    ensures Missed(canProject, store, origin, p) ==> Only(canProject, p.applied) != Due(canProject, store, origin)
  {
    AllDueByHead(canProject, store, origin);
    if Missed(canProject, store, origin, p) {
      var c :| c in store && canProject(c) && origin < c.token <= p.saved && c !in p.applied;
      TokenIsCheckpoint(store, c);
      SliceMembers(store, origin, Head(store), c);
      OnlyMembers(canProject, GetFrom(store, origin), c);
      OnlyMembers(canProject, p.applied, c);
    }
  }

  lemma LegacyComplete(canProject: Commit -> bool, origin: int, t: Tracked, fates: Commit -> Fate,
    store: seq<Commit>, pageSize: nat)
    requires TrackedOk(store, t) && t.p.known.Keys == {} && 0 < pageSize && IsCheckpoint(store, origin)
    requires forall c :: fates(c).Completes? && LegacyFate(canProject, c, fates(c))
    ensures var q := CaughtUpAgain(t, fates, store, pageSize);
      && (LegacyOk(canProject, store, origin, t.p) ==> Only(canProject, q.applied) == Due(canProject, store, origin))
      && (Missed(canProject, store, origin, t.p) ==> Only(canProject, q.applied) != Due(canProject, store, origin))
  {
    CatchUpReachesHead(t, fates, store, pageSize);
    if LegacyOk(canProject, store, origin, t.p) {
      RestartKeepsLegacy(canProject, store, origin, t.p);
      SettleKeepsLegacy(canProject, origin, Revived(t, store), fates, store, pageSize);
    }
    if Missed(canProject, store, origin, t.p) {
      assert Missed(canProject, store, origin, Revived(t, store).p);
      SettleStaysMissed(canProject, origin, Revived(t, store), fates, store, pageSize);
    }
    LegacyAtHead(canProject, store, origin, CaughtUpAgain(t, fates, store, pageSize));
  }

  /** For every run with crashes anywhere, a legacy projector started again ends with every projectable commit
      of the store applied exactly once, in order, if and only if it never threw with its checkpoint already
      moved on one of them; projecting need not be idempotent. */
  lemma RestartedLegacyIsComplete(config: map<nat, Setup>, store: seq<Commit>, steps: seq<Step>,
    pageSize: nat, id: nat, canProject: Commit -> bool, fates: Commit -> Fate)
    requires SetupOk(config, store) && 0 < pageSize && id in config && config[id].proceeding == {}
    requires FateRun(config, store, steps, pageSize, id, LegacyOrAheadFates(canProject))
    requires forall c :: fates(c).Completes? && LegacyFate(canProject, c, fates(c))
    ensures var g := Execute(config, store, steps, pageSize);
      && TrackedOk(g.store, g.nodes[id]) && g.nodes[id].p.known.Keys == {}
      && var q := CaughtUpAgain(g.nodes[id], fates, g.store, pageSize);
        && q.checkpoint == Head(g.store)
        && (Only(canProject, q.applied) == Due(canProject, g.store, config[id].initial)
            <==> LegacyRun(config, store, steps, pageSize, id, canProject))
  {
    ExactlyOnceIffNeverThrownAhead(config, store, steps, pageSize, id, canProject);
    GraphProgress.KnownStays(config, store, steps, pageSize, id);
    InitialStays(config, store, steps, pageSize, id);
    var g := Execute(config, store, steps, pageSize);
    assert TrackedOk(g.store, g.nodes[id]);
    LegacyComplete(canProject, config[id].initial, g.nodes[id], fates, g.store, pageSize);
  }

  /** The first checkpoint stays one of the store. */
  lemma {:induction false} InitialStays(config: map<nat, Setup>, store: seq<Commit>, steps: seq<Step>,
    pageSize: nat, id: nat)
    requires SetupOk(config, store) && 0 < pageSize && id in config
    ensures Grows(store, Execute(config, store, steps, pageSize).store)
    ensures IsCheckpoint(Execute(config, store, steps, pageSize).store, config[id].initial)
    decreases |steps|
  {
    if steps != [] {
      var n := |steps| - 1;
      InitialStays(config, store, steps[..n], pageSize, id);
      ApplyOk(Execute(config, store, steps[..n], pageSize), steps[n], pageSize);
    }
    CheckpointGrows(store, Execute(config, store, steps, pageSize).store, config[id].initial);
  }

  /** The same in a graph of any shape without cycles that has come to rest with no processor stuck. */
  lemma GraphLegacyIsComplete(config: map<nat, Setup>, store: seq<Commit>, steps: seq<Step>,
    pageSize: nat, rank: nat -> nat, id: nat, canProject: Commit -> bool)
    requires SetupOk(config, store) && 0 < pageSize && GraphProgress.Acyclic(config, rank)
    requires forall i :: i in config ==> NoStallRuns.KeepsMail(steps, i)
    requires var g := Execute(config, store, steps, pageSize); GraphProgress.AtRest(g) && GraphProgress.NoneStuck(g)
    requires id in config && FateRun(config, store, steps, pageSize, id, LegacyOrAheadFates(canProject))
    ensures var g := Execute(config, store, steps, pageSize);
      Only(canProject, g.nodes[id].p.applied) == Due(canProject, g.store, config[id].initial)
      <==> LegacyRun(config, store, steps, pageSize, id, canProject)
  {
    var g := Execute(config, store, steps, pageSize);
    GraphProgress.GraphReachesHeadUnlessStuck(config, store, steps, pageSize, rank);
    assert GraphProgress.HeadAnnounced(g, id);
    ExactlyOnceIffNeverThrownAhead(config, store, steps, pageSize, id, canProject);
    InitialStays(config, store, steps, pageSize, id);
    LegacyAtHead(canProject, g.store, config[id].initial, g.nodes[id].p);
  }
}
