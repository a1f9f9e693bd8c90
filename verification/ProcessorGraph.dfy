/** Whole runs of a graph of stream processors over one growing store. Messages may be lost, repeated or late;
    processors may fail or die at any point and are then started again. */
module ProcessorGraph {
  import opened Prelude
  import opened CommitStore
  import opened StreamProcessor

  /** A processor with the bookkeeping its properties are stated in. */
  datatype Tracked = Tracked(
    p: Proc,
    start: int,     // the checkpoint this incarnation started from
    base: nat,      // how many commits had been applied when it started
    owed: int,      // the highest commit it was ever sent, or the store's head when it last started
    high: int)      // the highest checkpoint it has ever reached

  datatype Setup = Setup(initial: int, proceeding: set<nat>)

  datatype Graph = Graph(store: seq<Commit>, nodes: map<nat, Tracked>)

  datatype Action =
    | Enqueue(m: Msg)
    | Lose(i: nat)
    | HandleNext(fate: Fate)
    | Restart

  datatype Step = Append(commit: Commit) | At(id: nat, action: Action)

  function Begin(setup: Setup, store: seq<Commit>): Tracked {
    Tracked(Created(setup.initial, setup.proceeding), setup.initial, 0, Head(store), setup.initial)
  }

  function Init(config: map<nat, Setup>, store: seq<Commit>): Graph {
    Graph(store, map id | id in config :: Begin(config[id], store))
  }

  function Progressed(t: Tracked, q: Proc): Tracked {
    t.(p := q, high := Max(t.high, q.checkpoint))
  }

  function Revived(t: Tracked, store: seq<Commit>): Tracked {
    Tracked(Restarted(t.p), t.p.saved, |t.p.applied|, Head(store), Max(t.high, t.p.saved))
  }

  function Act(t: Tracked, action: Action, store: seq<Commit>, pageSize: nat): Tracked
    requires IsStore(store) && Shape(t.p)
  {
    match action
    case Enqueue(m) =>
      t.(p := t.p.(mailbox := t.p.mailbox + [m]),
         owed := if m.Ordered? then Max(t.owed, m.note.commit.token) else t.owed)
    case Lose(i) =>
      if i < |t.p.mailbox| then t.(p := t.p.(mailbox := RemoveAt(t.p.mailbox, i))) else t
    case HandleNext(fate) =>
      if t.p.mailbox == [] then t
      else
        (match Handle(t.p, fate, store, pageSize)
         case Running(q) => Progressed(t, q)
         case Crashed(q) => Revived(Progressed(t, q), store))
    case Restart => Revived(t, store)
  }

  /** Live pairs are truthful; a checkpoint message carries something its sender announced at some time. */
  ghost predicate Sendable(g: Graph, m: Msg) {
    match m
    case Ordered(note, toSelf) => !toSelf && Truthful(g.store, note) && 0 <= note.previous
    case CurrentCheckpoint(source, c) => source in g.nodes && c in g.nodes[source].p.published
    case _ => true
  }

  ghost predicate Possible(g: Graph, step: Step) {
    match step
    case Append(commit) => Head(g.store) < commit.token
    case At(id, action) => id in g.nodes && (action.Enqueue? ==> Sendable(g, action.m))
  }

  ghost function Apply(g: Graph, step: Step, pageSize: nat): Graph
    requires GraphOk(g)
  {
    if !Possible(g, step) then g
    else
      match step
      case Append(commit) => g.(store := g.store + [commit])
      case At(id, action) => g.(nodes := g.nodes[id := Act(g.nodes[id], action, g.store, pageSize)])
  }

  // ------------------------------------------------------------------ the invariant of one processor

  /** Within an incarnation, the processed commits are the store read in order from where it started. */
  ghost predicate LogOk(store: seq<Commit>, t: Tracked)
    requires IsStore(store)
  {
    && t.base <= |t.p.applied|
    && IsCheckpoint(store, t.start) && t.start <= t.p.checkpoint
    && t.p.applied[t.base..] == Slice(store, t.start, t.p.checkpoint)
  }

  ghost predicate HighOk(store: seq<Commit>, t: Tracked) {
    && t.p.checkpoint <= t.high && t.p.saved <= t.high
    && forall c :: c in t.p.published ==> IsCheckpoint(store, c) && c <= t.high
  }

  ghost predicate TrackedOk(store: seq<Commit>, t: Tracked) {
    ProcOk(store, t.p) && LogOk(store, t) && HighOk(store, t) && 0 <= t.owed <= Head(store)
  }

  ghost predicate GraphOk(g: Graph) {
    IsStore(g.store) && forall id :: id in g.nodes ==> TrackedOk(g.store, g.nodes[id])
  }

  lemma RevivedOk(t: Tracked, store: seq<Commit>)
    requires ProcOk(store, t.p) && HighOk(store, t)
    ensures TrackedOk(store, Revived(t, store))
  {
    RestartedOk(t.p, store);
    assert Slice(store, t.p.saved, t.p.saved) == [];
  }

  /** Processing the next commit, however it ends: the log and the bookkeeping stay right. */
  lemma AdvanceTracked(t: Tracked, note: OrderedCommit, fate: Fate, store: seq<Commit>)
    requires TrackedOk(store, t) && Truthful(store, note) && note.previous == t.p.checkpoint
    ensures var q := Advance(t.p, note.commit, fate).p;
      && ProcOk(store, q) && HighOk(store, Progressed(t, q))
      && (fate.Completes? ==> TrackedOk(store, Progressed(t, q)))
  {
    AdvanceOk(t.p, note, fate, store);
    TokenIsCheckpoint(store, note.commit);
    SliceStep(store, t.start, note);
    var q := Advance(t.p, note.commit, fate).p;
    if fate.Completes? {
      assert q.applied[t.base..] == t.p.applied[t.base..] + [note.commit];
    }
  }

  lemma HandleTracked(t: Tracked, fate: Fate, store: seq<Commit>, pageSize: nat)
    requires TrackedOk(store, t) && t.p.mailbox != [] && 0 < pageSize
    ensures TrackedOk(store, Act(t, HandleNext(fate), store, pageSize))
  {
    HandleOk(t.p, fate, store, pageSize);
    HandleChanges(t.p, fate, store, pageSize);
    if Accepts(t.p) {
      var note := t.p.mailbox[0].note;
      RestOk(t.p, store);
      AdvanceTracked(t.(p := Rest(t.p)), note, fate, store);
      if !fate.Completes? {
        RevivedOk(Progressed(t, Advance(Rest(t.p), note.commit, fate).p), store);
      }
    }
  }

  /** A changed mailbox of acceptable messages changes nothing else. */
  lemma MailboxChanged(t: Tracked, store: seq<Commit>, mailbox: seq<Msg>, owed: int)
    requires TrackedOk(store, t) && MailOk(store, t.p.checkpoint, mailbox) && 0 <= owed <= Head(store)
    ensures TrackedOk(store, t.(p := t.p.(mailbox := mailbox), owed := owed))
  {
  }

  lemma EnqueueOk(g: Graph, id: nat, m: Msg)
    requires GraphOk(g) && id in g.nodes && Sendable(g, m)
    ensures MsgOk(g.store, g.nodes[id].p.checkpoint, m)
    ensures m.Ordered? ==> 0 < m.note.commit.token <= Head(g.store)
  {
    match m
    case Ordered(note, _) => TokenIsCheckpoint(g.store, note.commit);
    case CurrentCheckpoint(source, c) => assert HighOk(g.store, g.nodes[source]);
    case _ =>
  }

  lemma LoseOk(store: seq<Commit>, checkpoint: int, mailbox: seq<Msg>, i: nat)
    requires MailOk(store, checkpoint, mailbox) && i < |mailbox|
    ensures MailOk(store, checkpoint, RemoveAt(mailbox, i))
  {
    var rest := RemoveAt(mailbox, i);
    forall k | 0 <= k < |rest| ensures MsgOk(store, checkpoint, rest[k]) {
      assert rest[k] in mailbox;
    }
  }

  lemma EnqueueKeeps(g: Graph, id: nat, m: Msg, pageSize: nat)
    requires GraphOk(g) && 0 < pageSize && id in g.nodes && Sendable(g, m)
    ensures TrackedOk(g.store, Act(g.nodes[id], Enqueue(m), g.store, pageSize))
  {
    var t := g.nodes[id];
    assert TrackedOk(g.store, t);
    EnqueueOk(g, id, m);
    MailboxChanged(t, g.store, t.p.mailbox + [m], if m.Ordered? then Max(t.owed, m.note.commit.token) else t.owed);
  }

  lemma LoseKeeps(t: Tracked, i: nat, store: seq<Commit>, pageSize: nat)
    requires TrackedOk(store, t) && 0 < pageSize
    ensures TrackedOk(store, Act(t, Lose(i), store, pageSize))
  {
    if i < |t.p.mailbox| {
      LoseOk(store, t.p.checkpoint, t.p.mailbox, i);
      MailboxChanged(t, store, RemoveAt(t.p.mailbox, i), t.owed);
    }
  }

  lemma ActOk(g: Graph, id: nat, action: Action, pageSize: nat)
    requires GraphOk(g) && 0 < pageSize && Possible(g, At(id, action))
    ensures TrackedOk(g.store, Act(g.nodes[id], action, g.store, pageSize))
  {
    var t := g.nodes[id];
    assert TrackedOk(g.store, t);
    match action
    case Enqueue(m) => EnqueueKeeps(g, id, m, pageSize);
    case Lose(i) => LoseKeeps(t, i, g.store, pageSize);
    case HandleNext(fate) =>
      if t.p.mailbox != [] {
        HandleTracked(t, fate, g.store, pageSize);
      }
    case Restart => RevivedOk(t, g.store);
  }

  lemma TrackedOkGrows(s: seq<Commit>, s': seq<Commit>, t: Tracked)
    requires Grows(s, s') && TrackedOk(s, t)
    ensures TrackedOk(s', t)
  {
    ProcOkGrows(s, s', t.p);
    CheckpointGrows(s, s', t.start);
    SliceGrows(s, s', t.start, t.p.checkpoint);
    HeadGrows(s, s');
    forall c | c in t.p.published ensures IsCheckpoint(s', c) {
      CheckpointGrows(s, s', c);
    }
  }

  lemma ApplyOk(g: Graph, step: Step, pageSize: nat)
    requires GraphOk(g) && 0 < pageSize
    ensures GraphOk(Apply(g, step, pageSize))
    ensures Grows(g.store, Apply(g, step, pageSize).store)
    ensures Apply(g, step, pageSize).nodes.Keys == g.nodes.Keys
  {
    if Possible(g, step) {
      match step
      case Append(commit) =>
        AppendGrows(g.store, commit);
        NodesGrow(g, g.store + [commit]);
      case At(id, action) => ActOk(g, id, action, pageSize);
    }
  }

  lemma NodesGrow(g: Graph, store: seq<Commit>)
    requires GraphOk(g) && Grows(g.store, store)
    ensures GraphOk(g.(store := store))
  {
    forall id | id in g.nodes ensures TrackedOk(store, g.nodes[id]) {
      TrackedOkGrows(g.store, store, g.nodes[id]);
    }
  }

  ghost predicate SetupOk(config: map<nat, Setup>, store: seq<Commit>) {
    && IsStore(store)
    && forall id :: id in config ==> IsCheckpoint(store, config[id].initial) && config[id].proceeding <= config.Keys
  }

  lemma InitOk(config: map<nat, Setup>, store: seq<Commit>)
    requires SetupOk(config, store)
    ensures GraphOk(Init(config, store))
  {
    forall id | id in config ensures TrackedOk(store, Begin(config[id], store)) {
      assert Slice(store, config[id].initial, config[id].initial) == [];
    }
  }

  /** The graph after any sequence of steps; a step that is not possible changes nothing. */
  ghost function Execute(config: map<nat, Setup>, store: seq<Commit>, steps: seq<Step>, pageSize: nat): (g: Graph)
    requires SetupOk(config, store) && 0 < pageSize
    ensures GraphOk(g) && g.nodes.Keys == config.Keys
    decreases |steps|
  {
    if steps == [] then
      InitOk(config, store);
      Init(config, store)
    else
      var g := Execute(config, store, steps[..|steps| - 1], pageSize);
      ApplyOk(g, steps[|steps| - 1], pageSize);
      Apply(g, steps[|steps| - 1], pageSize)
  }

  // ------------------------------------------------------------------ in-order, exactly-once processing

  /** In every run, what an incarnation has processed is exactly the store's commits after the checkpoint it
      started from, up to its checkpoint: each once, in order, none missing. */
  lemma ProcessedInOrderExactlyOnce(config: map<nat, Setup>, store: seq<Commit>, steps: seq<Step>,
    pageSize: nat, id: nat)
    requires SetupOk(config, store) && 0 < pageSize && id in config
    ensures var g := Execute(config, store, steps, pageSize); var t := g.nodes[id];
      && t.base <= |t.p.applied| && t.start <= t.p.checkpoint
      && t.p.applied[t.base..] == Slice(g.store, t.start, t.p.checkpoint)
  {
    var g := Execute(config, store, steps, pageSize);
    var t := g.nodes[id];
    assert TrackedOk(g.store, t);
  }

  /** Two replicas, in different runs and with different views of the store, that started at equal checkpoints
      and are now at equal checkpoints have processed identical sequences. */
  lemma ReplicasAgree(s: seq<Commit>, t: Tracked, s': seq<Commit>, t': Tracked)
    requires Grows(s, s') && TrackedOk(s, t) && TrackedOk(s', t')
    requires t.start == t'.start && t.p.checkpoint == t'.p.checkpoint
    ensures t.p.applied[t.base..] == t'.p.applied[t'.base..]
  {
    SliceGrows(s, s', t.start, t.p.checkpoint);
  }
}
