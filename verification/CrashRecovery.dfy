/** What the read model holds after arbitrary crashes: for a projector whose effects and checkpoint are saved
    one after the other (SqlProjector), and for one that saves both in one transaction (LegacyProjector). */
module CrashRecovery {
  import opened CommitStore
  import opened StreamProcessor
  import opened ProcessorGraph

  // ------------------------------------------------------------------ logs of commits

  /** The commits of s that have effects. */
  function Only(projects: Commit -> bool, s: seq<Commit>): seq<Commit> {
    if s == [] then []
    else Only(projects, s[..|s| - 1]) + (if projects(s[|s| - 1]) then [s[|s| - 1]] else [])
  }

  /** s with adjacent repeats collapsed. */
  function Collapse(s: seq<Commit>): seq<Commit> {
    if s == [] then []
    else
      var r := Collapse(s[..|s| - 1]);
      var c := s[|s| - 1];
      if r != [] && r[|r| - 1] == c then r else r + [c]
  }

  lemma OnlyStep(projects: Commit -> bool, s: seq<Commit>, c: Commit)
    ensures Only(projects, s + [c]) == if projects(c) then Only(projects, s) + [c] else Only(projects, s)
  {
    assert (s + [c])[..|s|] == s;
  }

  lemma CollapseStep(s: seq<Commit>, c: Commit)
    ensures Collapse(s + [c]) ==
      if Collapse(s) != [] && Collapse(s)[|Collapse(s)| - 1] == c then Collapse(s) else Collapse(s) + [c]
  {
    assert (s + [c])[..|s|] == s;
  }

  lemma {:induction false} OnlyPrefix(projects: Commit -> bool, a: seq<Commit>, b: seq<Commit>)
    requires a <= b
    ensures Only(projects, a) <= Only(projects, b)
    decreases |b|
  {
    if a != b {
      OnlyPrefix(projects, a, b[..|b| - 1]);
    }
  }

  lemma {:induction false} OnlyIsStore(projects: Commit -> bool, s: seq<Commit>)
    requires IsStore(s)
    ensures IsStore(Only(projects, s))
    ensures forall c :: c in Only(projects, s) ==> c in s
    decreases |s|
  {
    if s != [] {
      var before := s[..|s| - 1];
      OnlyIsStore(projects, before);
      assert forall c :: c in before ==> c.token < s[|s| - 1].token;
    }
  }

  // ------------------------------------------------------------------ the projecting commits of the store

  /** The commits with effects after the origin, in store order: what the read model should be built from. */
  function Due(projects: Commit -> bool, store: seq<Commit>, origin: int): seq<Commit>
    requires IsStore(store)
  {
    Only(projects, GetFrom(store, origin))
  }

  /** How many of them lie at or before a checkpoint. */
  function DueBy(projects: Commit -> bool, store: seq<Commit>, origin: int, c: int): nat
    requires IsStore(store)
  {
    |Only(projects, Slice(store, origin, c))|
  }

  lemma DueByPrefix(projects: Commit -> bool, store: seq<Commit>, origin: int, c: int)
    requires IsStore(store) && origin <= c
    ensures Only(projects, Slice(store, origin, c)) <= Due(projects, store, origin)
  {
    PositionMonotone(store, origin, c);
    var n := Position(store, c) - Position(store, origin);
    assert Slice(store, origin, c) == GetFrom(store, origin)[..n];
    OnlyPrefix(projects, Slice(store, origin, c), GetFrom(store, origin));
  }

  lemma DueIsStore(projects: Commit -> bool, store: seq<Commit>, origin: int)
    requires IsStore(store)
    ensures IsStore(Due(projects, store, origin))
  {
    OnlyIsStore(projects, GetFrom(store, origin));
  }

  /** Stepping over the next commit counts it exactly when it has effects, and it is the next one due. */
  lemma DueNext(projects: Commit -> bool, store: seq<Commit>, origin: int, o: OrderedCommit)
    requires IsStore(store) && Truthful(store, o) && origin <= o.previous
    ensures var n := DueBy(projects, store, origin, o.previous); var due := Due(projects, store, origin);
      && DueBy(projects, store, origin, o.commit.token) == (if projects(o.commit) then n + 1 else n)
      && n <= |due|
      && (projects(o.commit) ==> n < |due| && due[n] == o.commit)
  {
    SliceStep(store, origin, o);
    OnlyStep(projects, Slice(store, origin, o.previous), o.commit);
    DueByPrefix(projects, store, origin, o.previous);
    DueByPrefix(projects, store, origin, o.commit.token);
  }

  lemma DueGrows(projects: Commit -> bool, s: seq<Commit>, s': seq<Commit>, origin: int)
    requires Grows(s, s') && IsCheckpoint(s, origin)
    ensures Due(projects, s, origin) <= Due(projects, s', origin)
  {
    CheckpointGrows(s, s', origin);
    OnlyPrefix(projects, GetFrom(s, origin), GetFrom(s', origin));
  }

  // ------------------------------------------------------------------ effects first, then the checkpoint

  /** How SqlProjector's ProcessAsync can end: it asks for its checkpoint to be saved exactly when the commit
      had effects, and it never sets the checkpoint itself. The checkpoint is set only after it has returned,
      so a host that dies with the checkpoint set has the effects durable. */
  predicate SqlFate(projects: Commit -> bool, c: Commit, fate: Fate) {
    match fate
    case Completes(persist) => persist == projects(c)
    case ThrowsAhead => false
    case Throws(_) => true
    case Dies(committed, announced) => announced && projects(c) ==> committed
  }

  function EffectLog(projects: Commit -> bool, applied: seq<Commit>): seq<Commit> {
    Collapse(Only(projects, applied))
  }

  /** Apart from adjacent repeats, the applied effects are those of a prefix of what is due. The prefix holds
      everything up to the checkpoint and at most one commit more, and no effect separates the saved checkpoint
      from the current one. */
  ghost predicate RecoveryOk(projects: Commit -> bool, store: seq<Commit>, origin: int, p: Proc)
    requires IsStore(store)
  {
    var n := DueBy(projects, store, origin, p.checkpoint);
    && IsCheckpoint(store, origin) && origin <= p.saved <= p.checkpoint
    && EffectLog(projects, p.applied) <= Due(projects, store, origin)
    && n <= |EffectLog(projects, p.applied)| <= n + 1
    && DueBy(projects, store, origin, p.saved) == n
  }

  /** A log with one more effect. */
  function LogThen(log: seq<Commit>, c: Commit): seq<Commit> {
    if log != [] && log[|log| - 1] == c then log else log + [c]
  }

  lemma EffectLogStep(projects: Commit -> bool, applied: seq<Commit>, c: Commit)
    ensures EffectLog(projects, applied + [c])
      == if projects(c) then LogThen(EffectLog(projects, applied), c) else EffectLog(projects, applied)
  {
    OnlyStep(projects, applied, c);
    CollapseStep(Only(projects, applied), c);
  }

  /** Applying the next commit's effects, for the first time or again after a crash. */
  lemma ApplyNext(projects: Commit -> bool, store: seq<Commit>, origin: int, p: Proc, o: OrderedCommit)
    requires IsStore(store) && RecoveryOk(projects, store, origin, p)
    requires Truthful(store, o) && o.previous == p.checkpoint
    ensures var log := EffectLog(projects, p.applied + [o.commit]);
      && log <= Due(projects, store, origin)
      && |log| == (if projects(o.commit) then DueBy(projects, store, origin, p.checkpoint) + 1
                   else |EffectLog(projects, p.applied)|)
  {
    EffectLogStep(projects, p.applied, o.commit);
    if projects(o.commit) {
      DueNext(projects, store, origin, o);
      DueIsStore(projects, store, origin);
      LogNext(Due(projects, store, origin), EffectLog(projects, p.applied),
        DueBy(projects, store, origin, p.checkpoint), o.commit);
    }
  }

  /** The n-th effect due, applied to a log of n or n + 1 of them, gives the log of n + 1. */
  lemma LogNext(due: seq<Commit>, log: seq<Commit>, n: nat, c: Commit)
    requires IsStore(due) && log <= due && n <= |log| <= n + 1 && n < |due| && due[n] == c
    ensures LogThen(log, c) == due[..n + 1]
  {
    assert log == due[..|log|];
    if |log| == n {
      assert log != [] ==> log[n - 1] == due[n - 1] && due[n - 1].token < due[n].token;
    }
  }

  /** Steps that process nothing may save the current checkpoint. */
  lemma SavingKeepsRecovery(projects: Commit -> bool, store: seq<Commit>, origin: int, p: Proc, q: Proc)
    requires IsStore(store) && RecoveryOk(projects, store, origin, p)
    requires q.checkpoint == p.checkpoint && q.applied == p.applied
    requires q.saved == p.saved || q.saved == p.checkpoint
    ensures RecoveryOk(projects, store, origin, q)
  {
  }

  lemma RestartKeepsRecovery(projects: Commit -> bool, store: seq<Commit>, origin: int, p: Proc)
    requires IsStore(store) && RecoveryOk(projects, store, origin, p)
    ensures RecoveryOk(projects, store, origin, Restarted(p))
  {
  }

  /** Moving to the next commit and saving it, or staying where the saved checkpoint is. */
  lemma RecoveryAt(projects: Commit -> bool, store: seq<Commit>, origin: int, p: Proc, o: OrderedCommit,
    q: Proc, committed: bool)
    requires IsStore(store) && RecoveryOk(projects, store, origin, p)
    requires Truthful(store, o) && o.previous == p.checkpoint
    requires q.applied == if committed then p.applied + [o.commit] else p.applied
    requires
      || (committed && q.checkpoint == o.commit.token && (projects(o.commit) ==> q.saved == o.commit.token)
          && q.saved in {p.saved, o.commit.token})
      || (q.checkpoint == q.saved && q.saved in {p.saved, p.checkpoint})
    ensures RecoveryOk(projects, store, origin, q)
  {
    if committed {
      ApplyNext(projects, store, origin, p, o);
    }
    DueNext(projects, store, origin, o);
  }

  lemma AdvanceKeepsRecovery(projects: Commit -> bool, store: seq<Commit>, origin: int, p: Proc,
    o: OrderedCommit, fate: Fate)
    requires IsStore(store) && RecoveryOk(projects, store, origin, p)
    requires Truthful(store, o) && o.previous == p.checkpoint && SqlFate(projects, o.commit, fate)
    ensures fate.Completes? ==> RecoveryOk(projects, store, origin, Advance(p, o.commit, fate).p)
    ensures !fate.Completes? ==> RecoveryOk(projects, store, origin, Restarted(Advance(p, o.commit, fate).p))
  {
    var q := Advance(p, o.commit, fate).p;
    match fate
    case Completes(_) => RecoveryAt(projects, store, origin, p, o, q, true);
    case Throws(committed) => RecoveryAt(projects, store, origin, p, o, Restarted(q), committed);
    case Dies(committed, _) => RecoveryAt(projects, store, origin, p, o, Restarted(q), committed);
  }

  lemma HandleKeepsRecovery(projects: Commit -> bool, store: seq<Commit>, origin: int, t: Tracked,
    fate: Fate, pageSize: nat)
    requires TrackedOk(store, t) && RecoveryOk(projects, store, origin, t.p) && t.p.mailbox != [] && 0 < pageSize
    requires Accepts(t.p) ==> SqlFate(projects, t.p.mailbox[0].note.commit, fate)
    ensures RecoveryOk(projects, store, origin, Act(t, HandleNext(fate), store, pageSize).p)
  {
    HandleChanges(t.p, fate, store, pageSize);
    RestOk(t.p, store);
    if Accepts(t.p) {
      var note := t.p.mailbox[0].note;
      var r := Rest(t.p);
      SavingKeepsRecovery(projects, store, origin, t.p, r);
      AdvanceKeepsRecovery(projects, store, origin, r, note, fate);
      if fate.Completes? {
        AdvanceOk(r, note, fate, store);
        var q := Advance(r, note.commit, fate).p;
        SavingKeepsRecovery(projects, store, origin, q, Continue(q, store, pageSize));
      }
    } else {
      SavingKeepsRecovery(projects, store, origin, t.p, Handle(t.p, fate, store, pageSize).p);
    }
  }

  lemma ActKeepsRecovery(projects: Commit -> bool, store: seq<Commit>, origin: int, t: Tracked,
    action: Action, pageSize: nat)
    requires TrackedOk(store, t) && RecoveryOk(projects, store, origin, t.p) && 0 < pageSize
    requires action.HandleNext? && Accepts(t.p) ==> SqlFate(projects, t.p.mailbox[0].note.commit, action.fate)
    ensures RecoveryOk(projects, store, origin, Act(t, action, store, pageSize).p)
  {
    match action
    case HandleNext(fate) =>
      if t.p.mailbox != [] {
        HandleKeepsRecovery(projects, store, origin, t, fate, pageSize);
      }
    case Restart => RestartKeepsRecovery(projects, store, origin, t.p);
    case _ =>
  }

  lemma RecoveryGrows(projects: Commit -> bool, s: seq<Commit>, s': seq<Commit>, origin: int, p: Proc)
    requires Grows(s, s') && RecoveryOk(projects, s, origin, p)
    requires IsCheckpoint(s, p.checkpoint) && IsCheckpoint(s, p.saved)
    ensures RecoveryOk(projects, s', origin, p)
  {
    CheckpointGrows(s, s', origin);
    DueGrows(projects, s, s', origin);
    SliceGrows(s, s', origin, p.checkpoint);
    SliceGrows(s, s', origin, p.saved);
  }

  // ------------------------------------------------------------------ over whole runs

  /** Every commit that processor id processes ends in an allowed way. */
  ghost predicate FateRun(config: map<nat, Setup>, store: seq<Commit>, steps: seq<Step>, pageSize: nat,
    id: nat, allowed: (Commit, Fate) -> bool)
    requires SetupOk(config, store) && 0 < pageSize && id in config
    decreases |steps|
  {
    steps == [] ||
    var n := |steps| - 1;
    && FateRun(config, store, steps[..n], pageSize, id, allowed)
    && FateStep(Execute(config, store, steps[..n], pageSize).nodes[id].p, steps[n], id, allowed)
  }

  predicate FateStep(p: Proc, step: Step, id: nat, allowed: (Commit, Fate) -> bool) {
    step.At? && step.id == id && step.action.HandleNext? && Accepts(p) ==>
      allowed(p.mailbox[0].note.commit, step.action.fate)
  }

  function SqlFates(projects: Commit -> bool): (Commit, Fate) -> bool {
    (c, fate) => SqlFate(projects, c, fate)
  }

  ghost predicate SqlRun(config: map<nat, Setup>, store: seq<Commit>, steps: seq<Step>, pageSize: nat,
    id: nat, projects: Commit -> bool)
    requires SetupOk(config, store) && 0 < pageSize && id in config
  {
    FateRun(config, store, steps, pageSize, id, SqlFates(projects))
  }

  /** The part of a step that concerns one processor. */
  lemma NodeAfter(g: Graph, step: Step, pageSize: nat, id: nat)
    requires GraphOk(g) && 0 < pageSize && id in g.nodes
    ensures var g' := Apply(g, step, pageSize);
      && id in g'.nodes
      && g'.store == (if Possible(g, step) && step.Append? then g.store + [step.commit] else g.store)
      && g'.nodes[id] == (if Possible(g, step) && step.At? && step.id == id
                          then Act(g.nodes[id], step.action, g.store, pageSize) else g.nodes[id])
  {
  }

  lemma StepKeepsRecovery(g: Graph, step: Step, pageSize: nat, id: nat, projects: Commit -> bool, origin: int)
    requires GraphOk(g) && 0 < pageSize && id in g.nodes
    requires RecoveryOk(projects, g.store, origin, g.nodes[id].p)
    requires FateStep(g.nodes[id].p, step, id, SqlFates(projects))
    ensures var g' := Apply(g, step, pageSize);
      IsStore(g'.store) && id in g'.nodes && RecoveryOk(projects, g'.store, origin, g'.nodes[id].p)
  {
    NodeAfter(g, step, pageSize, id);
    assert TrackedOk(g.store, g.nodes[id]);
    if Possible(g, step) {
      if step.Append? {
        AppendGrows(g.store, step.commit);
        RecoveryGrows(projects, g.store, g.store + [step.commit], origin, g.nodes[id].p);
      } else if step.id == id {
        ActKeepsRecovery(projects, g.store, origin, g.nodes[id], step.action, pageSize);
      }
    }
  }

  /** Crash recovery: in every run with crashes at any point, also between the commit of the effects and the
      saving of the checkpoint, the log of applied effects, adjacent repeats collapsed, is exactly a prefix of
      the effects due. It misses nothing up to the checkpoint, so a failing commit is never skipped. */
  lemma {:induction false} AppliedEffectsAreAStorePrefix(config: map<nat, Setup>, store: seq<Commit>, steps: seq<Step>,
    pageSize: nat, id: nat, projects: Commit -> bool)
    requires SetupOk(config, store) && 0 < pageSize && id in config
    requires SqlRun(config, store, steps, pageSize, id, projects)
    ensures var g := Execute(config, store, steps, pageSize);
      RecoveryOk(projects, g.store, config[id].initial, g.nodes[id].p)
    decreases |steps|
  {
    if steps == [] {
      assert Slice(store, config[id].initial, config[id].initial) == [];
    } else {
      var n := |steps| - 1;
      AppliedEffectsAreAStorePrefix(config, store, steps[..n], pageSize, id, projects);
      var g := Execute(config, store, steps[..n], pageSize);
      StepKeepsRecovery(g, steps[n], pageSize, id, projects, config[id].initial);
    }
  }

  // ------------------------------------------------------------------ the read model

  /** The read model after the effects of the given commits. */
  function Fold<M>(project: (M, Commit) -> M, m: M, s: seq<Commit>): M {
    if s == [] then m else project(Fold(project, m, s[..|s| - 1]), s[|s| - 1])
  }

  /** Projecting a commit twice in a row is projecting it once. */
  ghost predicate Idempotent<M(!new)>(project: (M, Commit) -> M) {
    forall m, c {:trigger project(project(m, c), c)} :: project(project(m, c), c) == project(m, c)
  }

  lemma {:induction false} FoldCollapse<M(!new)>(project: (M, Commit) -> M, m: M, s: seq<Commit>)
    requires Idempotent(project)
    ensures Fold(project, m, s) == Fold(project, m, Collapse(s))
  {
    if s != [] {
      var before := s[..|s| - 1];
      var c := s[|s| - 1];
      var r := Collapse(before);
      FoldCollapse(project, m, before);
      if r != [] && r[|r| - 1] == c {
        var m' := Fold(project, m, r[..|r| - 1]);
        assert project(project(m', c), c) == project(m', c);
      } else {
        assert (r + [c])[..|r|] == r;
      }
    }
  }

  /** If projecting is idempotent, the read model after any crashes is the fold of a prefix of what is due:
      of everything up to the checkpoint, or of that and the next commit with effects. */
  lemma ReadModelIsPrefixFold<M(!new)>(config: map<nat, Setup>, store: seq<Commit>, steps: seq<Step>, pageSize: nat,
    id: nat, projects: Commit -> bool, project: (M, Commit) -> M, m: M)
    requires SetupOk(config, store) && 0 < pageSize && id in config
    requires SqlRun(config, store, steps, pageSize, id, projects) && Idempotent(project)
    ensures var g := Execute(config, store, steps, pageSize); var p := g.nodes[id].p;
      var due := Due(projects, g.store, config[id].initial);
      var n := DueBy(projects, g.store, config[id].initial, p.checkpoint);
      && n <= |due|
      && (|| Fold(project, m, Only(projects, p.applied)) == Fold(project, m, due[..n])
          || (n < |due| && Fold(project, m, Only(projects, p.applied)) == Fold(project, m, due[..n + 1])))
  {
    AppliedEffectsAreAStorePrefix(config, store, steps, pageSize, id, projects);
    var g := Execute(config, store, steps, pageSize);
    FoldOfLog(projects, g.store, config[id].initial, g.nodes[id].p, project, m);
  }

  lemma FoldOfLog<M(!new)>(projects: Commit -> bool, store: seq<Commit>, origin: int, p: Proc,
    project: (M, Commit) -> M, m: M)
    requires IsStore(store) && RecoveryOk(projects, store, origin, p) && Idempotent(project)
    ensures var due := Due(projects, store, origin); var n := DueBy(projects, store, origin, p.checkpoint);
      && n <= |due|
      && (|| Fold(project, m, Only(projects, p.applied)) == Fold(project, m, due[..n])
          || (n < |due| && Fold(project, m, Only(projects, p.applied)) == Fold(project, m, due[..n + 1])))
  {
    FoldOfPrefix(project, m, Only(projects, p.applied), Due(projects, store, origin),
      DueBy(projects, store, origin, p.checkpoint));
  }

  lemma FoldOfPrefix<M(!new)>(project: (M, Commit) -> M, m: M, s: seq<Commit>, due: seq<Commit>, n: nat)
    requires Idempotent(project) && Collapse(s) <= due && n <= |Collapse(s)| <= n + 1
    ensures n <= |due|
    ensures || Fold(project, m, s) == Fold(project, m, due[..n])
            || (n < |due| && Fold(project, m, s) == Fold(project, m, due[..n + 1]))
  {
    FoldCollapse(project, m, s);
    var k := |Collapse(s)|;
    assert Collapse(s) == due[..k];
    assert k == n || k == n + 1;
  }

  // ------------------------------------------------------------------ effects and checkpoint in one transaction

  /** How the legacy projector can end a commit, leaving out failures after it has set its checkpoint: the
      effects of a projectable commit are durable exactly when its checkpoint is. */
  predicate LegacyFate(canProject: Commit -> bool, c: Commit, fate: Fate) {
    match fate
    case Completes(persist) => canProject(c) ==> persist
    case Throws(committed) => canProject(c) ==> !committed
    case ThrowsAhead => !canProject(c)
    case Dies(committed, _) => canProject(c) ==> !committed
  }

  /** Exactly once: the applied effects are those due up to the checkpoint, each once, and none lies between
      the saved checkpoint and the current one. */
  ghost predicate LegacyOk(canProject: Commit -> bool, store: seq<Commit>, origin: int, p: Proc)
    requires IsStore(store)
  {
    && IsCheckpoint(store, origin) && origin <= p.saved <= p.checkpoint
    && Only(canProject, p.applied) == Only(canProject, Slice(store, origin, p.checkpoint))
    && DueBy(canProject, store, origin, p.saved) == DueBy(canProject, store, origin, p.checkpoint)
  }

  lemma SavedEffects(canProject: Commit -> bool, store: seq<Commit>, origin: int, p: Proc)
    requires IsStore(store) && LegacyOk(canProject, store, origin, p)
    ensures Only(canProject, Slice(store, origin, p.saved)) == Only(canProject, Slice(store, origin, p.checkpoint))
  {
    DueByPrefix(canProject, store, origin, p.saved);
    DueByPrefix(canProject, store, origin, p.checkpoint);
  }

  lemma RestartKeepsLegacy(canProject: Commit -> bool, store: seq<Commit>, origin: int, p: Proc)
    requires IsStore(store) && LegacyOk(canProject, store, origin, p)
    ensures LegacyOk(canProject, store, origin, Restarted(p))
  {
    SavedEffects(canProject, store, origin, p);
  }

  function AfterCommit(p: Proc, c: Commit, fate: Fate): Proc {
    match Advance(p, c, fate)
    case Running(q) => q
    case Crashed(q) => Restarted(q)
  }

  lemma AdvanceKeepsLegacy(canProject: Commit -> bool, store: seq<Commit>, origin: int, p: Proc,
    o: OrderedCommit, fate: Fate)
    requires IsStore(store) && LegacyOk(canProject, store, origin, p)
    requires Truthful(store, o) && o.previous == p.checkpoint && LegacyFate(canProject, o.commit, fate)
    ensures LegacyOk(canProject, store, origin, AfterCommit(p, o.commit, fate))
  {
    OnlyStep(canProject, p.applied, o.commit);
    SliceStep(store, origin, o);
    OnlyStep(canProject, Slice(store, origin, o.previous), o.commit);
    SavedEffects(canProject, store, origin, p);
  }

  /** The exact condition. The legacy projector sets its checkpoint before its transaction commits; when the
      save inside the transaction or the commit itself then throws, the effects are rolled back but the error
      handler persists the new checkpoint. Processing one commit keeps exactly-once if and only if it does not
      fail in this way on a commit with effects. */
  lemma LegacyExactlyUnlessThrownAhead(canProject: Commit -> bool, store: seq<Commit>, origin: int, p: Proc,
    o: OrderedCommit, fate: Fate)
    requires IsStore(store) && LegacyOk(canProject, store, origin, p)
    requires Truthful(store, o) && o.previous == p.checkpoint
    requires LegacyFate(canProject, o.commit, fate) || fate.ThrowsAhead?
    ensures LegacyOk(canProject, store, origin, AfterCommit(p, o.commit, fate))
      <==> !(fate.ThrowsAhead? && canProject(o.commit))
  {
    if fate.ThrowsAhead? && canProject(o.commit) {
      DueNext(canProject, store, origin, o);
    } else {
      AdvanceKeepsLegacy(canProject, store, origin, p, o, fate);
    }
  }

  lemma SavingKeepsLegacy(canProject: Commit -> bool, store: seq<Commit>, origin: int, p: Proc, q: Proc)
    requires IsStore(store) && LegacyOk(canProject, store, origin, p)
    requires q.checkpoint == p.checkpoint && q.applied == p.applied
    requires q.saved == p.saved || q.saved == p.checkpoint
    ensures LegacyOk(canProject, store, origin, q)
  {
  }

  lemma HandleKeepsLegacy(canProject: Commit -> bool, store: seq<Commit>, origin: int, t: Tracked,
    fate: Fate, pageSize: nat)
    requires TrackedOk(store, t) && LegacyOk(canProject, store, origin, t.p) && t.p.mailbox != [] && 0 < pageSize
    requires Accepts(t.p) ==> LegacyFate(canProject, t.p.mailbox[0].note.commit, fate)
    ensures LegacyOk(canProject, store, origin, Act(t, HandleNext(fate), store, pageSize).p)
  {
    HandleChanges(t.p, fate, store, pageSize);
    RestOk(t.p, store);
    if Accepts(t.p) {
      var note := t.p.mailbox[0].note;
      var r := Rest(t.p);
      SavingKeepsLegacy(canProject, store, origin, t.p, r);
      AdvanceKeepsLegacy(canProject, store, origin, r, note, fate);
      if fate.Completes? {
        AdvanceOk(r, note, fate, store);
        var q := Advance(r, note.commit, fate).p;
        SavingKeepsLegacy(canProject, store, origin, q, Continue(q, store, pageSize));
      }
    } else {
      SavingKeepsLegacy(canProject, store, origin, t.p, Handle(t.p, fate, store, pageSize).p);
    }
  }

  lemma ActKeepsLegacy(canProject: Commit -> bool, store: seq<Commit>, origin: int, t: Tracked,
    action: Action, pageSize: nat)
    requires TrackedOk(store, t) && LegacyOk(canProject, store, origin, t.p) && 0 < pageSize
    requires action.HandleNext? && Accepts(t.p) ==> LegacyFate(canProject, t.p.mailbox[0].note.commit, action.fate)
    ensures LegacyOk(canProject, store, origin, Act(t, action, store, pageSize).p)
  {
    match action
    case HandleNext(fate) =>
      if t.p.mailbox != [] {
        HandleKeepsLegacy(canProject, store, origin, t, fate, pageSize);
      }
    case Restart => RestartKeepsLegacy(canProject, store, origin, t.p);
    case _ =>
  }

  lemma LegacyGrows(canProject: Commit -> bool, s: seq<Commit>, s': seq<Commit>, origin: int, p: Proc)
    requires Grows(s, s') && LegacyOk(canProject, s, origin, p)
    requires IsCheckpoint(s, p.checkpoint) && IsCheckpoint(s, p.saved)
    ensures LegacyOk(canProject, s', origin, p)
  {
    CheckpointGrows(s, s', origin);
    SliceGrows(s, s', origin, p.checkpoint);
    SliceGrows(s, s', origin, p.saved);
  }

  function LegacyFates(canProject: Commit -> bool): (Commit, Fate) -> bool {
    (c, fate) => LegacyFate(canProject, c, fate)
  }

  ghost predicate LegacyRun(config: map<nat, Setup>, store: seq<Commit>, steps: seq<Step>, pageSize: nat,
    id: nat, canProject: Commit -> bool)
    requires SetupOk(config, store) && 0 < pageSize && id in config
  {
    FateRun(config, store, steps, pageSize, id, LegacyFates(canProject))
  }

  lemma StepKeepsLegacy(g: Graph, step: Step, pageSize: nat, id: nat, canProject: Commit -> bool, origin: int)
    requires GraphOk(g) && 0 < pageSize && id in g.nodes
    requires LegacyOk(canProject, g.store, origin, g.nodes[id].p)
    requires FateStep(g.nodes[id].p, step, id, LegacyFates(canProject))
    ensures var g' := Apply(g, step, pageSize);
      IsStore(g'.store) && id in g'.nodes && LegacyOk(canProject, g'.store, origin, g'.nodes[id].p)
  {
    NodeAfter(g, step, pageSize, id);
    assert TrackedOk(g.store, g.nodes[id]);
    if Possible(g, step) {
      if step.Append? {
        AppendGrows(g.store, step.commit);
        LegacyGrows(canProject, g.store, g.store + [step.commit], origin, g.nodes[id].p);
      } else if step.id == id {
        ActKeepsLegacy(canProject, g.store, origin, g.nodes[id], step.action, pageSize);
      }
    }
  }

  /** Legacy exactly-once: in every run with crashes at any point, the applied effects are exactly those of
      the projectable commits from the first checkpoint up to the current one, each once and in order, even
      though commits without effects save their checkpoint only now and then. */
  lemma {:induction false} LegacyExactlyOnce(config: map<nat, Setup>, store: seq<Commit>, steps: seq<Step>,
    pageSize: nat, id: nat, canProject: Commit -> bool)
    requires SetupOk(config, store) && 0 < pageSize && id in config
    requires LegacyRun(config, store, steps, pageSize, id, canProject)
    ensures var g := Execute(config, store, steps, pageSize);
      LegacyOk(canProject, g.store, config[id].initial, g.nodes[id].p)
    decreases |steps|
  {
    if steps == [] {
      assert Slice(store, config[id].initial, config[id].initial) == [];
    } else {
      var n := |steps| - 1;
      LegacyExactlyOnce(config, store, steps[..n], pageSize, id, canProject);
      var g := Execute(config, store, steps[..n], pageSize);
      StepKeepsLegacy(g, steps[n], pageSize, id, canProject, config[id].initial);
    }
  }

  // ------------------------------------------------------------------ when the legacy transaction itself fails

  lemma {:induction false} OnlyMembers(projects: Commit -> bool, s: seq<Commit>, c: Commit)
    ensures c in Only(projects, s) <==> c in s && projects(c)
  {
    if s != [] {
      OnlyMembers(projects, s[..|s| - 1], c);
      assert s == s[..|s| - 1] + [s[|s| - 1]];
    }
  }

  lemma SliceMembers(s: seq<Commit>, after: int, upTo: int, c: Commit)
    requires IsStore(s) && c in s && after < c.token <= upTo
    ensures c in Slice(s, after, upTo)
  {
    var i :| 0 <= i < |s| && s[i] == c;
    var b, e := Position(s, after), Position(s, upTo);
    assert b <= i < e;
    assert Slice(s, after, upTo)[i - b] == c;
  }

  /** A projectable commit that the saved checkpoint has passed although it was never applied. */
  ghost predicate Missed(canProject: Commit -> bool, store: seq<Commit>, origin: int, p: Proc) {
    exists c :: c in store && canProject(c) && origin < c.token <= p.saved && c !in p.applied
  }

  lemma MissedIsNotExactlyOnce(canProject: Commit -> bool, store: seq<Commit>, origin: int, p: Proc)
    requires IsStore(store) && Missed(canProject, store, origin, p)
    ensures !LegacyOk(canProject, store, origin, p)
  {
    var c :| c in store && canProject(c) && origin < c.token <= p.saved && c !in p.applied;
    if LegacyOk(canProject, store, origin, p) {
      SliceMembers(store, origin, p.checkpoint, c);
      OnlyMembers(canProject, Slice(store, origin, p.checkpoint), c);
      OnlyMembers(canProject, p.applied, c);
    }
  }

  /** What was missed stays missed: only commits past the saved checkpoint are ever applied. */
  lemma MissedStays(canProject: Commit -> bool, store: seq<Commit>, origin: int, t: Tracked, action: Action,
    pageSize: nat)
    requires TrackedOk(store, t) && Missed(canProject, store, origin, t.p) && 0 < pageSize
    ensures Missed(canProject, store, origin, Act(t, action, store, pageSize).p)
  {
    var c :| c in store && canProject(c) && origin < c.token <= t.p.saved && c !in t.p.applied;
    ActApplies(t, action, store, pageSize);
  }

  lemma ActApplies(t: Tracked, action: Action, store: seq<Commit>, pageSize: nat)
    requires TrackedOk(store, t) && 0 < pageSize
    ensures var q := Act(t, action, store, pageSize).p;
      && t.p.saved <= q.saved
      && forall c :: c in q.applied ==> c in t.p.applied || t.p.saved < c.token
  {
    if action.HandleNext? && t.p.mailbox != [] {
      HandleChanges(t.p, action.fate, store, pageSize);
      assert Accepts(t.p) ==> MsgOk(store, t.p.checkpoint, t.p.mailbox[0]);
    }
  }

  lemma {:induction false} ThrownAheadMisses(canProject: Commit -> bool, store: seq<Commit>, origin: int, p: Proc,
    o: OrderedCommit)
    requires IsStore(store) && LegacyOk(canProject, store, origin, p)
    requires Truthful(store, o) && o.previous == p.checkpoint && canProject(o.commit)
    ensures Missed(canProject, store, origin, Restarted(Advance(p, o.commit, ThrowsAhead).p))
  {
    OnlyMembers(canProject, p.applied, o.commit);
    OnlyMembers(canProject, Slice(store, origin, p.checkpoint), o.commit);
  }

  function LegacyOrAheadFates(canProject: Commit -> bool): (Commit, Fate) -> bool {
    (c, fate) => LegacyFate(canProject, c, fate) || fate.ThrowsAhead?
  }

  lemma ActMisses(canProject: Commit -> bool, store: seq<Commit>, origin: int, t: Tracked, pageSize: nat)
    requires TrackedOk(store, t) && LegacyOk(canProject, store, origin, t.p) && 0 < pageSize
    requires Accepts(t.p) && canProject(t.p.mailbox[0].note.commit)
    ensures Missed(canProject, store, origin, Act(t, HandleNext(ThrowsAhead), store, pageSize).p)
  {
    HandleChanges(t.p, ThrowsAhead, store, pageSize);
    RestOk(t.p, store);
    SavingKeepsLegacy(canProject, store, origin, t.p, Rest(t.p));
    ThrownAheadMisses(canProject, store, origin, Rest(t.p), t.p.mailbox[0].note);
  }

  lemma StepMisses(g: Graph, step: Step, pageSize: nat, id: nat, canProject: Commit -> bool, origin: int)
    requires GraphOk(g) && 0 < pageSize && id in g.nodes
    requires LegacyOk(canProject, g.store, origin, g.nodes[id].p)
    requires FateStep(g.nodes[id].p, step, id, LegacyOrAheadFates(canProject))
    requires !FateStep(g.nodes[id].p, step, id, LegacyFates(canProject)) && Possible(g, step)
    ensures var g' := Apply(g, step, pageSize);
      id in g'.nodes && Missed(canProject, g'.store, origin, g'.nodes[id].p)
  {
    NodeAfter(g, step, pageSize, id);
    assert TrackedOk(g.store, g.nodes[id]);
    ActMisses(canProject, g.store, origin, g.nodes[id], pageSize);
  }

  lemma StepStaysMissed(g: Graph, step: Step, pageSize: nat, id: nat, canProject: Commit -> bool, origin: int)
    requires GraphOk(g) && 0 < pageSize && id in g.nodes && Missed(canProject, g.store, origin, g.nodes[id].p)
    ensures var g' := Apply(g, step, pageSize);
      id in g'.nodes && Missed(canProject, g'.store, origin, g'.nodes[id].p)
  {
    NodeAfter(g, step, pageSize, id);
    assert TrackedOk(g.store, g.nodes[id]);
    if Possible(g, step) && step.At? && step.id == id {
      MissedStays(canProject, g.store, origin, g.nodes[id], step.action, pageSize);
    } else {
      var p := g.nodes[id].p;
      var c :| c in g.store && canProject(c) && origin < c.token <= p.saved && c !in p.applied;
      assert c in Apply(g, step, pageSize).store;
    }
  }

  /** Over whole runs, exactly: when every commit ends in one of these ways, the applied effects are those due
      up to the checkpoint, each once, if and only if the projector never threw with its checkpoint already
      moved on a projectable commit. What it did so on is never applied, whatever happens later. */
  lemma {:induction false} ExactlyOnceIffNeverThrownAhead(config: map<nat, Setup>, store: seq<Commit>,
    steps: seq<Step>, pageSize: nat, id: nat, canProject: Commit -> bool)
    requires SetupOk(config, store) && 0 < pageSize && id in config
    requires FateRun(config, store, steps, pageSize, id, LegacyOrAheadFates(canProject))
    ensures var g := Execute(config, store, steps, pageSize); var origin := config[id].initial;
      && (LegacyRun(config, store, steps, pageSize, id, canProject)
          <==> LegacyOk(canProject, g.store, origin, g.nodes[id].p))
      && (!LegacyRun(config, store, steps, pageSize, id, canProject)
          <==> Missed(canProject, g.store, origin, g.nodes[id].p))
    decreases |steps|
  {
    var g := Execute(config, store, steps, pageSize);
    var origin := config[id].initial;
    if LegacyRun(config, store, steps, pageSize, id, canProject) {
      LegacyExactlyOnce(config, store, steps, pageSize, id, canProject);
    } else {
      var n := |steps| - 1;
      var before := Execute(config, store, steps[..n], pageSize);
      ExactlyOnceIffNeverThrownAhead(config, store, steps[..n], pageSize, id, canProject);
      if LegacyRun(config, store, steps[..n], pageSize, id, canProject) {
        StepMisses(before, steps[n], pageSize, id, canProject, origin);
      } else {
        StepStaysMissed(before, steps[n], pageSize, id, canProject, origin);
      }
    }
    if Missed(canProject, g.store, origin, g.nodes[id].p) {
      MissedIsNotExactlyOnce(canProject, g.store, origin, g.nodes[id].p);
    }
  }
}
