/** Exactly what each message does to a stream processor: which messages have no effect, when a catch-up begins
    and ends, and what is then sent to itself, announced and saved. */
module MessageEffects {
  import opened CommitStore
  import opened OrderedEventStreamer
  import opened StreamProcessor

  /** The first message says something new of a proceeding processor. */
  predicate HearsNews(p: Proc) {
    && p.mailbox != [] && p.mailbox[0].CurrentCheckpoint?
    && p.mailbox[0].source in p.known && p.known[p.mailbox[0].source] != p.mailbox[0].checkpoint
  }

  /** What is known once it has been heard. */
  function Informed(p: Proc): Proc
    requires HearsNews(p)
  {
    p.(known := p.known[p.mailbox[0].source := p.mailbox[0].checkpoint])
  }

  // ------------------------------------------------------------------ messages without effect

  /** A commit while blocked, one already passed, one too far ahead during a catch-up; news of a processor that is
      not followed or news already known; a call to catch up during a catch-up. */
  predicate Ignores(p: Proc)
    requires p.mailbox != []
  {
    match p.mailbox[0]
    case Ordered(note, _) =>
      !AllAhead(p) || note.previous < p.checkpoint || (p.checkpoint < note.previous && p.catchingUp)
    case CurrentCheckpoint(_, _) => !HearsNews(p)
    case CatchUp => p.catchingUp
    case _ => false
  }

  lemma IgnoredHasNoEffect(p: Proc, fate: Fate, store: seq<Commit>, pageSize: nat)
    requires IsStore(store) && Shape(p) && p.mailbox != [] && Ignores(p)
    ensures Handle(p, fate, store, pageSize) == Running(Rest(p))
  {
    assert AllAhead(Rest(p)) == AllAhead(p);
  }

  /** News that repeats what is known, or of a processor that is not followed, only leaves the mailbox. */
  lemma RepeatedNewsHasNoEffect(p: Proc, source: nat, c: int, fate: Fate, store: seq<Commit>, pageSize: nat)
    requires IsStore(store) && Shape(p) && p.mailbox != [] && p.mailbox[0] == CurrentCheckpoint(source, c)
    requires source !in p.known || p.known[source] == c
    ensures Handle(p, fate, store, pageSize) == Running(Rest(p))
  {
    IgnoredHasNoEffect(p, fate, store, pageSize);
  }

  /** Which messages wait behind it makes no difference to what a message does. */
  lemma NewsInAnyMailbox(p: Proc, q: Proc, source: nat, c: int, store: seq<Commit>, pageSize: nat)
    returns (sent: seq<Msg>)
    requires IsStore(store) && Shape(p) && q == p.(mailbox := q.mailbox)
    ensures var p' := OnCurrentCheckpoint(p, source, c, store, pageSize);
      var q' := OnCurrentCheckpoint(q, source, c, store, pageSize);
      && p'.mailbox == p.mailbox + sent && q'.mailbox == q.mailbox + sent
      && q' == p'.(mailbox := q'.mailbox)
  {
    var p' := OnCurrentCheckpoint(p, source, c, store, pageSize);
    sent := p'.mailbox[|p.mailbox|..];
  }

  /** Hearing the same news twice in a row is hearing it once. */
  lemma NewsTwiceIsOnce(p: Proc, source: nat, c: int, rest: seq<Msg>, fate: Fate, fate': Fate, store: seq<Commit>,
    pageSize: nat)
    requires IsStore(store) && Shape(p)
    requires p.mailbox == [CurrentCheckpoint(source, c), CurrentCheckpoint(source, c)] + rest
    ensures var once := p.(mailbox := [CurrentCheckpoint(source, c)] + rest);
      var q := Handle(p, fate, store, pageSize).p;
      && Shape(q) && q.mailbox != []
      && Handle(q, fate', store, pageSize) == Handle(once, fate', store, pageSize)
  {
    var once := p.(mailbox := [CurrentCheckpoint(source, c)] + rest);
    var q := Handle(p, fate, store, pageSize).p;
    assert Rest(p).mailbox == once.mailbox && Rest(once).mailbox == rest;
    HandleKnown(p, fate, store, pageSize, source);
    var sent := NewsInAnyMailbox(Rest(p), Rest(once), source, c, store, pageSize);
    assert q.mailbox == [CurrentCheckpoint(source, c)] + (rest + sent);
    RepeatedNewsHasNoEffect(q, source, c, fate', store, pageSize);
    assert Rest(q).mailbox == rest + sent;
  }

  // ------------------------------------------------------------------ when a catch-up begins and ends

  predicate Begins(p: Proc)
    requires p.mailbox != []
  {
    !p.catchingUp &&
    match p.mailbox[0]
    case Ordered(note, _) => AllAhead(p) && p.checkpoint < note.previous
    case CurrentCheckpoint(_, _) => HearsNews(p) && AllAhead(Informed(p))
    case CatchUp => true
    case _ => false
  }

  /** The message makes a catching-up processor look at its stream: it has processed a commit, or heard news. */
  predicate LooksOn(p: Proc, fate: Fate) {
    p.catchingUp && ((Accepts(p) && fate.Completes?) || HearsNews(p))
  }

  predicate Exhausted(p: Proc) {
    p.stream.Some? && p.stream.value.queue == []
  }

  /** A catch-up ends when the processor looks at its stream and it is exhausted. */
  predicate Ends(p: Proc, fate: Fate) {
    LooksOn(p, fate) && Exhausted(p)
  }

  /** The commits of the store after the checkpoint. */
  function Ahead(p: Proc, store: seq<Commit>): seq<Commit>
    requires IsStore(store)
  {
    GetFrom(store, p.checkpoint)
  }

  /** A commit that is too far ahead makes the processor look at the new stream once more after sending itself the
      first commit of it: so a catch-up that it begins over a single commit ends at once. */
  predicate EndsAtOnce(p: Proc, store: seq<Commit>)
    requires IsStore(store) && p.mailbox != []
  {
    Begins(p) && |Ahead(p, store)| <= (if p.mailbox[0].Ordered? then 1 else 0)
  }

  lemma StartReads(store: seq<Commit>, c: int, pageSize: nat)
    requires IsStore(store) && 0 < pageSize
    ensures var st := Start(c, store, pageSize); var ahead := GetFrom(store, c);
      && (st.queue == [] <==> ahead == [])
      && st.finished == (st.queue == [])
      && (ahead != [] ==> st.queue[0] == Chain(c, ahead)[0])
  {
  }

  lemma StartRemains(store: seq<Commit>, c: int, pageSize: nat)
    requires IsStore(store) && IsCheckpoint(store, c)
    ensures Remaining(store, Start(c, store, pageSize)) == |GetFrom(store, c)|
  {
    PageEnds(store, c, pageSize);
  }

  lemma NextLeaves(store: seq<Commit>, st: Streamer, pageSize: nat)
    requires IsStore(store) && StreamerOk(store, st) && st.queue != [] && 0 < pageSize
    ensures Nexted(st, store, pageSize).queue == [] <==> Remaining(store, st) == 1
  {
    NextOk(store, st, pageSize);
    if Nexted(st, store, pageSize).queue == [] {
      assert st.queue[1..] == [];
      EmptyMeansAll(store, st.(queue := st.queue[1..]), pageSize);
    }
  }

  lemma FirstSentLeaves(store: seq<Commit>, c: int, pageSize: nat)
    requires IsStore(store) && IsCheckpoint(store, c) && 0 < pageSize && GetFrom(store, c) != []
    ensures var st := Start(c, store, pageSize);
      && st.queue != []
      && (Nexted(st, store, pageSize).queue == [] <==> |GetFrom(store, c)| == 1)
  {
    StartOk(store, c, pageSize);
    StartReads(store, c, pageSize);
    StartRemains(store, c, pageSize);
    NextLeaves(store, Start(c, store, pageSize), pageSize);
  }

  lemma EmptyMeansAll(store: seq<Commit>, st: Streamer, pageSize: nat)
    requires IsStore(store) && st.queue == [] && 0 < pageSize && Fetch(st, store, pageSize).queue == []
    ensures GetFrom(store, st.previous) == [] && Fetch(st, store, pageSize).previous == st.previous
  {
  }

  /** The start of a catch-up, from any state: it is over at once if nothing is ahead; else the first commit ahead
      is sent, unless a proceeding processor is not known to be ahead. */
  lemma CatchUpStarts(p: Proc, store: seq<Commit>, pageSize: nat)
    requires ProcOk(store, p) && 0 < pageSize
    ensures var q := CatchUpStart(p, store, pageSize); var ahead := Ahead(p, store);
      && q.catchingUp == (ahead != [])
      && q.mailbox == p.mailbox +
           (if ahead == [] then [PublishCheckpoint]
            else if AllAhead(p) then [Ordered(Chain(p.checkpoint, ahead)[0], true)]
            else [])
      && q.saved == (if ahead == [] then p.checkpoint else p.saved)
      && (ahead != [] ==> (AllAhead(p) && |ahead| == 1 <==> Exhausted(q)))
      && (ahead != [] && !Exhausted(q) && AllAhead(p) ==> q.stream.value.queue[0].previous != p.checkpoint)
  {
    StartReads(store, p.checkpoint, pageSize);
    if Ahead(p, store) != [] {
      FirstSentLeaves(store, p.checkpoint, pageSize);
      StartOk(store, p.checkpoint, pageSize);
      NextOk(store, Start(p.checkpoint, store, pageSize), pageSize);
    }
  }

  /** Looking on: the catch-up ends if the stream is exhausted; else the next commit is sent if it follows the
      checkpoint and all proceeding processors are known to be ahead. */
  lemma LookingOn(p: Proc, store: seq<Commit>, pageSize: nat)
    requires IsStore(store) && Shape(p) && p.catchingUp
    ensures var q := CatchUpTryAdvance(p, store, pageSize);
      && q.catchingUp == !Exhausted(p)
      && q.saved == (if Exhausted(p) then p.checkpoint else p.saved)
      && q.mailbox == p.mailbox +
           (if Exhausted(p) then [PublishCheckpoint]
            else if AllAhead(p) && p.stream.value.queue[0].previous == p.checkpoint
            then [Ordered(p.stream.value.queue[0], true)] else [])
  {
  }

  // ------------------------------------------------------------------ what a message makes of the catch-up

  /** What the processor sends itself. */
  function Sends(p: Proc, q: Proc, fate: Fate, store: seq<Commit>): seq<Msg>
    requires IsStore(store) && Shape(p) && p.mailbox != []
  {
    var ahead := Ahead(p, store);
    if Ends(p, fate) then [PublishCheckpoint]
    else if Begins(p) then
      if ahead == [] then [PublishCheckpoint]
      else if !AllAhead(q) then []
      else
        [Ordered(Chain(p.checkpoint, ahead)[0], true)] + (if EndsAtOnce(p, store) then [PublishCheckpoint] else [])
    else if LooksOn(p, fate) && AllAhead(q) && p.stream.value.queue[0].previous == q.checkpoint then
      [Ordered(p.stream.value.queue[0], true)]
    else []
  }

  /** The checkpoint that is saved afterwards: the current one when told to persist and at the end of a catch-up,
      the commit's when it had effects; else the one that was. */
  function Saves(p: Proc, q: Proc, fate: Fate, store: seq<Commit>): int
    requires IsStore(store) && p.mailbox != []
  {
    if p.mailbox[0] == PersistCheckpoint || Ends(p, fate) || EndsAtOnce(p, store) then q.checkpoint
    else if Accepts(p) && fate == Completes(true) then p.mailbox[0].note.commit.token
    else p.saved
  }

  ghost predicate Exactly(p: Proc, q: Proc, fate: Fate, store: seq<Commit>)
    requires IsStore(store) && Shape(p) && p.mailbox != []
  {
    && q.catchingUp == (if p.catchingUp then !Ends(p, fate) else Begins(p) && !EndsAtOnce(p, store))
    && q.mailbox == Rest(p).mailbox + Sends(p, q, fate, store)
    && q.saved == Saves(p, q, fate, store)
  }

  lemma AcceptedExactly(p: Proc, fate: Fate, store: seq<Commit>, pageSize: nat)
    requires ProcOk(store, p) && Accepts(p) && fate.Completes? && 0 < pageSize
    ensures Exactly(p, Handle(p, fate, store, pageSize).p, fate, store)
  {
    HandleChanges(p, fate, store, pageSize);
    var q := Advance(Rest(p), p.mailbox[0].note.commit, fate).p;
    if q.catchingUp {
      LookingOn(q, store, pageSize);
    }
  }

  lemma StartsAndLooks(p: Proc, store: seq<Commit>, pageSize: nat)
    requires ProcOk(store, p) && AllAhead(p) && Ahead(p, store) != [] && 0 < pageSize
    ensures var q := Continue(CatchUpStart(p, store, pageSize), store, pageSize); var ahead := Ahead(p, store);
      && q.catchingUp == (1 < |ahead|)
      && q.mailbox == p.mailbox + ([Ordered(Chain(p.checkpoint, ahead)[0], true)]
           + (if |ahead| == 1 then [PublishCheckpoint] else []))
      && q.saved == (if |ahead| == 1 then p.checkpoint else p.saved)
      && q.checkpoint == p.checkpoint && q.known == p.known
  {
    CatchUpStarts(p, store, pageSize);
    LookingOn(CatchUpStart(p, store, pageSize), store, pageSize);
  }

  lemma FarAheadExactly(p: Proc, fate: Fate, store: seq<Commit>, pageSize: nat)
    requires ProcOk(store, p) && p.mailbox != [] && p.mailbox[0].Ordered? && Begins(p) && 0 < pageSize
    ensures Exactly(p, Handle(p, fate, store, pageSize).p, fate, store)
  {
    var r := Rest(p);
    RestOk(p, store);
    assert AllAhead(r) == AllAhead(p);
    SomethingAhead(store, p.checkpoint, p.mailbox[0].note);
    StartsAndLooks(r, store, pageSize);
    FarAheadIs(p, fate, store, pageSize);
    assert AllAhead(Handle(p, fate, store, pageSize).p) == AllAhead(p);
  }

  lemma FarAheadIs(p: Proc, fate: Fate, store: seq<Commit>, pageSize: nat)
    requires IsStore(store) && Shape(p) && p.mailbox != [] && p.mailbox[0].Ordered? && Begins(p)
    ensures Handle(p, fate, store, pageSize)
      == Running(Continue(CatchUpStart(Rest(p), store, pageSize), store, pageSize))
  {
    assert AllAhead(Rest(p)) == AllAhead(p);
  }

  lemma SomethingAhead(store: seq<Commit>, c: int, o: OrderedCommit)
    requires IsStore(store) && Truthful(store, o) && c < o.previous
    ensures GetFrom(store, c) != []
  {
    TruthfulIsNext(store, o);
    PositionMonotone(store, c, o.previous);
  }

  lemma NewsExactly(p: Proc, fate: Fate, store: seq<Commit>, pageSize: nat)
    requires ProcOk(store, p) && HearsNews(p) && 0 < pageSize
    ensures Exactly(p, Handle(p, fate, store, pageSize).p, fate, store)
  {
    RestOk(p, store);
    var q := Informed(p).(mailbox := Rest(p).mailbox);
    assert ProcOk(store, q);
    assert AllAhead(q) == AllAhead(Informed(p));
    if q.catchingUp {
      LookingOn(q, store, pageSize);
    } else if AllAhead(q) {
      CatchUpStarts(q, store, pageSize);
    }
  }

  lemma CalledExactly(p: Proc, fate: Fate, store: seq<Commit>, pageSize: nat)
    requires ProcOk(store, p) && p.mailbox != [] && p.mailbox[0] == CatchUp && !p.catchingUp && 0 < pageSize
    ensures Exactly(p, Handle(p, fate, store, pageSize).p, fate, store)
  {
    RestOk(p, store);
    assert AllAhead(Rest(p)) == AllAhead(p);
    CatchUpStarts(Rest(p), store, pageSize);
  }

  lemma IgnoredExactly(p: Proc, fate: Fate, store: seq<Commit>, pageSize: nat)
    requires ProcOk(store, p) && p.mailbox != [] && Ignores(p)
    ensures Exactly(p, Handle(p, fate, store, pageSize).p, fate, store)
  {
    IgnoredHasNoEffect(p, fate, store, pageSize);
  }

  /** Exactly what a message that does not fail makes of the catch-up: whether it begins, goes on or ends, what the
      processor sends itself, and what is saved. */
  lemma HandledExactly(p: Proc, fate: Fate, store: seq<Commit>, pageSize: nat)
    requires ProcOk(store, p) && p.mailbox != [] && 0 < pageSize
    requires Handle(p, fate, store, pageSize).Running?
    ensures Exactly(p, Handle(p, fate, store, pageSize).p, fate, store)
  {
    HandleChanges(p, fate, store, pageSize);
    if Ignores(p) {
      IgnoredExactly(p, fate, store, pageSize);
    } else {
      match p.mailbox[0]
      case Ordered(_, _) =>
        if Accepts(p) {
          AcceptedExactly(p, fate, store, pageSize);
        } else {
          FarAheadExactly(p, fate, store, pageSize);
        }
      case CurrentCheckpoint(_, _) => NewsExactly(p, fate, store, pageSize);
      case CatchUp => CalledExactly(p, fate, store, pageSize);
      case PersistCheckpoint =>
      case PublishCheckpoint =>
    }
  }

  /** A message has no effect if and only if it is one of those that are ignored, or a call to persist a checkpoint
      that is saved already. */
  lemma NoEffectExactlyIfIgnored(p: Proc, fate: Fate, store: seq<Commit>, pageSize: nat)
    requires ProcOk(store, p) && p.mailbox != [] && 0 < pageSize
    ensures Handle(p, fate, store, pageSize) == Running(Rest(p))
      <==> Ignores(p) || (p.mailbox[0] == PersistCheckpoint && p.saved == p.checkpoint)
  {
    HandleChanges(p, fate, store, pageSize);
    if Ignores(p) {
      IgnoredHasNoEffect(p, fate, store, pageSize);
    } else if Accepts(p) {
      assert MsgOk(store, p.checkpoint, p.mailbox[0]);
      if fate.Completes? {
        CheckpointAfter(p, fate, store, pageSize);
      }
    } else {
      HandledExactly(p, fate, store, pageSize);
      ChangesSomething(p, fate, store, pageSize);
    }
  }

  lemma CheckpointAfter(p: Proc, fate: Fate, store: seq<Commit>, pageSize: nat)
    requires ProcOk(store, p) && Accepts(p) && fate.Completes? && 0 < pageSize
    ensures Handle(p, fate, store, pageSize).p.checkpoint == p.mailbox[0].note.commit.token
  {
    HandleChanges(p, fate, store, pageSize);
  }

  lemma ChangesSomething(p: Proc, fate: Fate, store: seq<Commit>, pageSize: nat)
    requires ProcOk(store, p) && p.mailbox != [] && 0 < pageSize && !Ignores(p) && !Accepts(p)
    requires Handle(p, fate, store, pageSize).Running? && Exactly(p, Handle(p, fate, store, pageSize).p, fate, store)
    ensures Handle(p, fate, store, pageSize).p == Rest(p)
      <==> p.mailbox[0] == PersistCheckpoint && p.saved == p.checkpoint
  {
    if HearsNews(p) {
      HandleKnown(p, fate, store, pageSize, p.mailbox[0].source);
    }
  }

  // ------------------------------------------------------------------ announcements

  /** What handling the first message announces: the checkpoint when asked to, and, outside a catch-up only, the
      token of a commit once its checkpoint is set. */
  function Announces(p: Proc, fate: Fate): seq<int>
    requires p.mailbox != []
  {
    if p.mailbox[0] == PublishCheckpoint then [p.checkpoint]
    else if Accepts(p) && !p.catchingUp && (fate.Completes? || fate.ThrowsAhead? || (fate.Dies? && fate.announced)) then
      [p.mailbox[0].note.commit.token]
    else []
  }

  lemma AnnouncesExactly(p: Proc, fate: Fate, store: seq<Commit>, pageSize: nat)
    requires IsStore(store) && Shape(p) && p.mailbox != []
    ensures Handle(p, fate, store, pageSize).p.published == p.published + Announces(p, fate)
  {
    if Accepts(p) {
      HandleChanges(p, fate, store, pageSize);
    } else if p.mailbox[0].Ordered? {
      AnnouncesNothing(p, fate, store, pageSize);
    }
  }

  lemma AnnouncesNothing(p: Proc, fate: Fate, store: seq<Commit>, pageSize: nat)
    requires IsStore(store) && Shape(p) && p.mailbox != [] && p.mailbox[0].Ordered? && !Accepts(p)
    ensures Handle(p, fate, store, pageSize).p.published == p.published
  {
    assert AllAhead(Rest(p)) == AllAhead(p);
  }

  // ------------------------------------------------------------------ failures and restarts

  /** A commit that fails: what is saved, applied and kept. */
  lemma FailsExactly(p: Proc, fate: Fate, store: seq<Commit>, pageSize: nat)
    requires IsStore(store) && Shape(p) && Accepts(p) && !fate.Completes?
    ensures var c := p.mailbox[0].note.commit; var r := Handle(p, fate, store, pageSize);
      && r.Crashed?
      && r.p.applied == (if (fate.Throws? || fate.Dies?) && fate.committed then p.applied + [c] else p.applied)
      && r.p.saved == (if fate.Throws? then p.checkpoint else if fate.ThrowsAhead? then c.token else p.saved)
      && r.p.known == p.known
  {
    HandleChanges(p, fate, store, pageSize);
  }

  /** Started again, a processor that follows others knows nothing of them: it is blocked until each of them has
      told it of a checkpoint past its own. */
  lemma RestartedIsBlocked(p: Proc)
    requires 0 <= p.saved
    ensures AllAhead(Restarted(p)) <==> p.known.Keys == {}
    ensures forall t :: t in p.known ==> t in Restarted(p).known && Restarted(p).known[t] == 0
  {
    if t :| t in p.known {
      assert t in Restarted(p).known && !(p.saved < Restarted(p).known[t]);
    }
  }
}
