/** The catch-up state machine of one stream processor, as functions of its state.
    The class in StreamProcessorActor.dfy is proved to compute these functions. */
module StreamProcessor {
  import opened Prelude
  import opened CommitStore
  import opened OrderedEventStreamer

  datatype Msg =
    | Ordered(note: OrderedCommit, toSelf: bool)   // toSelf: sent by the processor's own catch-up
    | CurrentCheckpoint(source: nat, checkpoint: int)
    | CatchUp
    | PersistCheckpoint
    | PublishCheckpoint

  /** How processing a commit can end, crashes included. */
  datatype Fate =
    | Completes(persist: bool)                    // ProcessAsync returns; persist is its result
    | Throws(committed: bool)                     // it throws; committed: its effects are durable all the same
    | ThrowsAhead                                 // it sets the checkpoint itself, then throws, effects rolled back
    | Dies(committed: bool, announced: bool)      // the host dies before the checkpoint is saved;
                                                  // announced: the new checkpoint had already been set

  datatype Proc = Proc(
    checkpoint: int,
    catchingUp: bool,
    stream: Option<Streamer>,
    known: map<nat, int>,      // ProceedingStreamProcessors: their last known checkpoints
    mailbox: seq<Msg>,
    saved: int,                // the persisted checkpoint
    published: seq<int>,       // the checkpoints announced on the event stream
    applied: seq<Commit>)      // the commits whose effects are durable, in order, over all incarnations

  datatype Outcome = Running(p: Proc) | Crashed(p: Proc)

  /** Catching up means having a stream, and a finished stream is one with an empty queue. */
  predicate Shape(p: Proc) {
    && p.catchingUp == p.stream.Some?
    && (p.stream.Some? ==> p.stream.value.finished == (p.stream.value.queue == []))
  }

  predicate AllAhead(p: Proc) {
    forall t :: t in p.known ==> p.checkpoint < p.known[t]
  }

  // ------------------------------------------------------------------ catching up

  /** The messages a processor sends to itself in a handler. */
  predicate SelfSent(m: Msg) {
    m.PublishCheckpoint? || (m.Ordered? && m.toSelf)
  }

  ghost predicate OnlySelfSent(a: seq<Msg>, b: seq<Msg>) {
    a <= b && forall i :: |a| <= i < |b| ==> SelfSent(b[i])
  }

  /** Catching up itself never moves the checkpoint and never processes anything. */
  ghost predicate SameProgress(p: Proc, q: Proc) {
    && OnlySelfSent(p.mailbox, q.mailbox)
    && q.checkpoint == p.checkpoint && q.known == p.known
    && q.published == p.published && q.applied == p.applied
    && (q.saved == p.saved || q.saved == p.checkpoint)
  }

  function CatchUpFinish(p: Proc): (q: Proc)
    ensures Shape(q) && SameProgress(p, q)
  {
    p.(catchingUp := false, stream := None, saved := p.checkpoint, mailbox := p.mailbox + [PublishCheckpoint])
  }

  function CatchUpTryAdvance(p: Proc, store: seq<Commit>, pageSize: nat): (q: Proc)
    requires IsStore(store) && Shape(p) && p.catchingUp
    ensures Shape(q) && SameProgress(p, q)
  {
    var st := p.stream.value;
    if st.finished then CatchUpFinish(p)
    else if !AllAhead(p) then p
    else if st.queue[0].previous != p.checkpoint then p
    else p.(stream := Some(Nexted(st, store, pageSize)), mailbox := p.mailbox + [Ordered(st.queue[0], true)])
  }

  function CatchUpStart(p: Proc, store: seq<Commit>, pageSize: nat): (q: Proc)
    requires IsStore(store)
    ensures Shape(q) && SameProgress(p, q)
  {
    CatchUpTryAdvance(p.(catchingUp := true, stream := Some(Start(p.checkpoint, store, pageSize))), store, pageSize)
  }

  // ------------------------------------------------------------------ the handlers

  function SetCheckpoint(p: Proc, c: int): Proc {
    p.(checkpoint := c, published := if p.catchingUp then p.published else p.published + [c])
  }

  function Advance(p: Proc, c: Commit, fate: Fate): Outcome {
    match fate
    case Completes(persist) =>
      var q := SetCheckpoint(p.(applied := p.applied + [c]), c.token);
      Running(if persist then q.(saved := c.token) else q)
    case Throws(committed) =>
      Crashed(p.(applied := if committed then p.applied + [c] else p.applied, saved := p.checkpoint))
    case ThrowsAhead =>
      Crashed(SetCheckpoint(p, c.token).(saved := c.token))
    case Dies(committed, announced) =>
      var q := p.(applied := if committed then p.applied + [c] else p.applied);
      Crashed(if announced then SetCheckpoint(q, c.token) else q)
  }

  function Continue(p: Proc, store: seq<Commit>, pageSize: nat): Proc
    requires IsStore(store) && Shape(p)
  {
    if p.catchingUp then CatchUpTryAdvance(p, store, pageSize) else p
  }

  function OnOrdered(p: Proc, note: OrderedCommit, fate: Fate, store: seq<Commit>, pageSize: nat): Outcome
    requires IsStore(store) && Shape(p)
  {
    if !AllAhead(p) || note.previous < p.checkpoint then Running(p)
    else if p.checkpoint == note.previous then
      match Advance(p, note.commit, fate)
      case Crashed(q) => Crashed(q)
      case Running(q) => Running(Continue(q, store, pageSize))
    else if p.catchingUp then Running(p)
    else Running(Continue(CatchUpStart(p, store, pageSize), store, pageSize))
  }

  function OnCurrentCheckpoint(p: Proc, source: nat, c: int, store: seq<Commit>, pageSize: nat): Proc
    requires IsStore(store) && Shape(p)
  {
    if source !in p.known || p.known[source] == c then p
    else
      var q := p.(known := p.known[source := c]);
      if q.catchingUp then CatchUpTryAdvance(q, store, pageSize)
      else if AllAhead(q) then CatchUpStart(q, store, pageSize)
      else q
  }

  function OnCatchUp(p: Proc, store: seq<Commit>, pageSize: nat): Proc
    requires IsStore(store)
  {
    if p.catchingUp then p else CatchUpStart(p, store, pageSize)
  }

  /** The mailbox without its first message. */
  function Rest(p: Proc): Proc
    requires p.mailbox != []
  {
    p.(mailbox := p.mailbox[1..])
  }

  /** Takes the first message from the mailbox and handles it. */
  function Handle(p: Proc, fate: Fate, store: seq<Commit>, pageSize: nat): Outcome
    requires IsStore(store) && Shape(p) && p.mailbox != []
  {
    var q := Rest(p);
    match p.mailbox[0]
    case Ordered(note, _) => OnOrdered(q, note, fate, store, pageSize)
    case CurrentCheckpoint(source, c) => Running(OnCurrentCheckpoint(q, source, c, store, pageSize))
    case CatchUp => Running(OnCatchUp(q, store, pageSize))
    case PersistCheckpoint => Running(q.(saved := q.checkpoint))
    case PublishCheckpoint => Running(q.(published := q.published + [q.checkpoint]))
  }

  /** A new incarnation, started by the supervisor: it reads its checkpoint back, announces it, and tells
      itself to catch up. What it knew of its proceeding processors is gone. */
  function Restarted(p: Proc): Proc {
    Proc(p.saved, false, None, map t | t in p.known :: 0, [CatchUp], p.saved, p.published + [p.saved], p.applied)
  }

  /** The first incarnation, from the initial checkpoint its persister gives it. */
  function Created(initial: int, proceeding: set<nat>): Proc {
    Proc(initial, false, None, map t | t in proceeding :: 0, [CatchUp], initial, [initial], [])
  }

  // ------------------------------------------------------------------ what every message keeps

  ghost predicate MsgOk(store: seq<Commit>, checkpoint: int, m: Msg) {
    match m
    case Ordered(note, toSelf) =>
      Truthful(store, note) && 0 <= note.previous && (toSelf ==> note.previous <= checkpoint)
    case CurrentCheckpoint(_, c) => IsCheckpoint(store, c)
    case _ => true
  }

  ghost predicate MailOk(store: seq<Commit>, checkpoint: int, mailbox: seq<Msg>) {
    forall i :: 0 <= i < |mailbox| ==> MsgOk(store, checkpoint, mailbox[i])
  }

  ghost predicate KnownOk(store: seq<Commit>, known: map<nat, int>) {
    forall t :: t in known ==> IsCheckpoint(store, known[t])
  }

  ghost predicate ProcOk(store: seq<Commit>, p: Proc) {
    && IsStore(store) && Shape(p)
    && IsCheckpoint(store, p.checkpoint) && IsCheckpoint(store, p.saved) && p.saved <= p.checkpoint
    && (p.stream.Some? ==> StreamerOk(store, p.stream.value))
    && KnownOk(store, p.known)
    && MailOk(store, p.checkpoint, p.mailbox)
  }

  lemma TryAdvanceOk(p: Proc, store: seq<Commit>, pageSize: nat)
    requires ProcOk(store, p) && p.catchingUp && 0 < pageSize
    ensures ProcOk(store, CatchUpTryAdvance(p, store, pageSize))
  {
    var st := p.stream.value;
    if !st.finished && AllAhead(p) && st.queue[0].previous == p.checkpoint {
      NextOk(store, st, pageSize);
      AtMostHead(store, p.checkpoint);
    }
  }

  lemma CatchUpStartOk(p: Proc, store: seq<Commit>, pageSize: nat)
    requires ProcOk(store, p) && 0 < pageSize
    ensures ProcOk(store, CatchUpStart(p, store, pageSize))
  {
    StartOk(store, p.checkpoint, pageSize);
    TryAdvanceOk(p.(catchingUp := true, stream := Some(Start(p.checkpoint, store, pageSize))), store, pageSize);
  }

  lemma ContinueOk(p: Proc, store: seq<Commit>, pageSize: nat)
    requires ProcOk(store, p) && 0 < pageSize
    ensures ProcOk(store, Continue(p, store, pageSize))
  {
    if p.catchingUp {
      TryAdvanceOk(p, store, pageSize);
    }
  }

  lemma AdvanceOk(p: Proc, note: OrderedCommit, fate: Fate, store: seq<Commit>)
    requires ProcOk(store, p) && Truthful(store, note) && note.previous == p.checkpoint
    ensures ProcOk(store, Advance(p, note.commit, fate).p)
  {
    TokenIsCheckpoint(store, note.commit);
    var q := Advance(p, note.commit, fate).p;
    assert q.mailbox == p.mailbox && p.checkpoint <= q.checkpoint;
    forall i | 0 <= i < |q.mailbox| ensures MsgOk(store, q.checkpoint, q.mailbox[i]) {
      assert MsgOk(store, p.checkpoint, p.mailbox[i]);
    }
  }

  lemma OnOrderedOk(p: Proc, note: OrderedCommit, fate: Fate, store: seq<Commit>, pageSize: nat)
    requires ProcOk(store, p) && Truthful(store, note) && 0 < pageSize
    ensures ProcOk(store, OnOrdered(p, note, fate, store, pageSize).p)
  {
    if AllAhead(p) && p.checkpoint == note.previous {
      AdvanceOk(p, note, fate, store);
      if Advance(p, note.commit, fate).Running? {
        ContinueOk(Advance(p, note.commit, fate).p, store, pageSize);
      }
    } else if AllAhead(p) && p.checkpoint < note.previous && !p.catchingUp {
      CatchUpStartOk(p, store, pageSize);
      ContinueOk(CatchUpStart(p, store, pageSize), store, pageSize);
    }
  }

  lemma OnCurrentCheckpointOk(p: Proc, source: nat, c: int, store: seq<Commit>, pageSize: nat)
    requires ProcOk(store, p) && IsCheckpoint(store, c) && 0 < pageSize
    ensures ProcOk(store, OnCurrentCheckpoint(p, source, c, store, pageSize))
  {
    var q := p.(known := p.known[source := c]);
    assert ProcOk(store, q);
    if q.catchingUp {
      TryAdvanceOk(q, store, pageSize);
    } else {
      CatchUpStartOk(q, store, pageSize);
    }
  }

  lemma RestOk(p: Proc, store: seq<Commit>)
    requires ProcOk(store, p) && p.mailbox != []
    ensures ProcOk(store, Rest(p)) && MsgOk(store, p.checkpoint, p.mailbox[0])
  {
  }

  /** Every message keeps the processor's state consistent with the store. */
  lemma HandleOk(p: Proc, fate: Fate, store: seq<Commit>, pageSize: nat)
    requires ProcOk(store, p) && p.mailbox != [] && 0 < pageSize
    ensures ProcOk(store, Handle(p, fate, store, pageSize).p)
  {
    RestOk(p, store);
    match p.mailbox[0]
    case Ordered(note, _) => OnOrderedOk(Rest(p), note, fate, store, pageSize);
    case CurrentCheckpoint(source, c) => OnCurrentCheckpointOk(Rest(p), source, c, store, pageSize);
    case CatchUp => if !p.catchingUp { CatchUpStartOk(Rest(p), store, pageSize); }
    case PersistCheckpoint =>
    case PublishCheckpoint =>
  }

  lemma RestartedOk(p: Proc, store: seq<Commit>)
    requires ProcOk(store, p)
    ensures ProcOk(store, Restarted(p))
  {
  }

  lemma ProcOkGrows(s: seq<Commit>, s': seq<Commit>, p: Proc)
    requires Grows(s, s') && ProcOk(s, p)
    ensures ProcOk(s', p)
  {
    CheckpointGrows(s, s', p.checkpoint);
    CheckpointGrows(s, s', p.saved);
    if p.stream.Some? {
      StreamerOkGrows(s, s', p.stream.value);
    }
    forall t | t in p.known ensures IsCheckpoint(s', p.known[t]) {
      CheckpointGrows(s, s', p.known[t]);
    }
    forall i | 0 <= i < |p.mailbox| ensures MsgOk(s', p.checkpoint, p.mailbox[i]) {
      MsgOkGrows(s, s', p.checkpoint, p.mailbox[i]);
    }
  }

  lemma MsgOkGrows(s: seq<Commit>, s': seq<Commit>, checkpoint: int, m: Msg)
    requires Grows(s, s') && MsgOk(s, checkpoint, m)
    ensures MsgOk(s', checkpoint, m)
  {
    match m
    case Ordered(note, _) => TruthfulGrows(s, s', note);
    case CurrentCheckpoint(_, c) => CheckpointGrows(s, s', c);
    case _ =>
  }

  // ------------------------------------------------------------------ what a message changes

  /** The first message is a commit that the processor processes. */
  predicate Accepts(p: Proc) {
    && p.mailbox != [] && p.mailbox[0].Ordered?
    && AllAhead(p) && p.mailbox[0].note.previous == p.checkpoint
  }

  /** Handling a message takes it out of the mailbox and adds only messages to self. */
  lemma HandleMail(p: Proc, fate: Fate, store: seq<Commit>, pageSize: nat)
    requires IsStore(store) && Shape(p) && p.mailbox != []
    ensures OnlySelfSent(p.mailbox[1..], Handle(p, fate, store, pageSize).p.mailbox)
  {
  }

  /** Nothing that was announced is taken back. */
  lemma HandlePublishes(p: Proc, fate: Fate, store: seq<Commit>, pageSize: nat)
    requires IsStore(store) && Shape(p) && p.mailbox != []
    ensures p.published <= Handle(p, fate, store, pageSize).p.published
  {
  }

  /** What is known of a proceeding processor changes only to what one of its messages says. */
  lemma HandleKnown(p: Proc, fate: Fate, store: seq<Commit>, pageSize: nat, t: nat)
    requires IsStore(store) && Shape(p) && p.mailbox != []
    ensures Handle(p, fate, store, pageSize).p.known.Keys == p.known.Keys
    ensures t in p.known ==>
      Handle(p, fate, store, pageSize).p.known[t]
        == match p.mailbox[0]
           case CurrentCheckpoint(source, c) => if source == t then c else p.known[t]
           case _ => p.known[t]
  {
    match p.mailbox[0]
    case CurrentCheckpoint(source, c) =>
      if source in p.known {
        assert p.known[source := c].Keys == p.known.Keys + {source};
      }
    case _ =>
  }

  /** Only an accepted commit moves the checkpoint or the log, and it moves both by exactly that commit. */
  lemma HandleChanges(p: Proc, fate: Fate, store: seq<Commit>, pageSize: nat)
    requires IsStore(store) && Shape(p) && p.mailbox != []
    ensures !Accepts(p) ==> Handle(p, fate, store, pageSize).Running?
    ensures !Accepts(p) ==>
      var q := Handle(p, fate, store, pageSize).p;
      && q.checkpoint == p.checkpoint && q.applied == p.applied
      && (q.saved == p.saved || q.saved == p.checkpoint)
      && forall c :: c in q.published ==> c in p.published || c == p.checkpoint
    ensures Accepts(p) && fate.Completes? ==>
      Handle(p, fate, store, pageSize)
        == Running(Continue(Advance(Rest(p), p.mailbox[0].note.commit, fate).p, store, pageSize))
    ensures Accepts(p) && !fate.Completes? ==>
      Handle(p, fate, store, pageSize) == Advance(Rest(p), p.mailbox[0].note.commit, fate)
  {
  }

  /** Where the processor would go on if it failed just after this message: at its checkpoint when it was told to
      persist, ended a catch-up or processed a commit with effects; and before a commit that failed, so that
      this commit is tried again. */
  lemma ResumesAt(p: Proc, fate: Fate, store: seq<Commit>, pageSize: nat)
    requires IsStore(store) && Shape(p) && p.mailbox != []
    ensures var r := Handle(p, fate, store, pageSize); var resumed := Restarted(r.p).checkpoint;
      && (p.mailbox[0] == PersistCheckpoint ==> r.Running? && resumed == p.checkpoint)
      && (r.Running? && p.catchingUp && !r.p.catchingUp ==> resumed == r.p.checkpoint)
      && (Accepts(p) && fate == Completes(true) ==> resumed == p.mailbox[0].note.commit.token)
      && (Accepts(p) && fate.Throws? ==> r.Crashed? && resumed == p.checkpoint)
      && (resumed != p.saved ==> resumed == p.checkpoint || resumed == r.p.checkpoint)
  {
    if Accepts(p) {
      HandleChanges(p, fate, store, pageSize);
    }
  }
}
