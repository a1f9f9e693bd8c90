/** A processor that has nothing left to do is waiting for a proceeding processor or has reached every
    commit it was ever sent. */
module NoStall {
  import opened Prelude
  import opened CommitStore
  import opened OrderedEventStreamer
  import opened StreamProcessor

  // ------------------------------------------------------------------ what is still on its way

  /** A pair that follows the checkpoint and carries the given token is in the mailbox. */
  ghost predicate InFlight(mailbox: seq<Msg>, checkpoint: int, token: int) {
    mailbox != [] && (IsPair(mailbox[0], checkpoint, token) || InFlight(mailbox[1..], checkpoint, token))
  }

  predicate IsPair(m: Msg, checkpoint: int, token: int) {
    m.Ordered? && m.note.previous == checkpoint && m.note.commit.token == token
  }

  /** The pair that follows the checkpoint. */
  predicate ComesNext(m: Msg, checkpoint: int) {
    m.Ordered? && m.note.previous == checkpoint
  }

  /** A commit at or past `owed` is in the mailbox. */
  ghost predicate Pending(mailbox: seq<Msg>, owed: int) {
    mailbox != [] && ((mailbox[0].Ordered? && owed <= mailbox[0].note.commit.token) || Pending(mailbox[1..], owed))
  }

  /** A pair that follows the checkpoint is in the mailbox, and what is owed lies at it or comes after it. */
  ghost predicate LastOnItsWay(mailbox: seq<Msg>, checkpoint: int, owed: int) {
    mailbox != [] &&
    (|| (ComesNext(mailbox[0], checkpoint) && (owed <= mailbox[0].note.commit.token || Pending(mailbox[1..], owed)))
     || LastOnItsWay(mailbox[1..], checkpoint, owed))
  }

  // ------------------------------------------------------------------ the phases

  /** The next catch-up commit follows the checkpoint and has not been sent yet. */
  ghost predicate HeadFollows(p: Proc) {
    p.stream.Some? && p.stream.value.queue != [] && p.stream.value.queue[0].previous == p.checkpoint
  }

  ghost predicate Waiting(p: Proc) {
    HeadFollows(p) && !AllAhead(p)
  }

  ghost predicate Streaming(p: Proc) {
    && p.stream.Some? && p.stream.value.queue != []
    && InFlight(p.mailbox, p.checkpoint, p.stream.value.queue[0].previous)
  }

  ghost predicate Ending(p: Proc, owed: int) {
    p.stream.Some? && p.stream.value.queue == [] && LastOnItsWay(p.mailbox, p.checkpoint, owed)
  }

  ghost predicate Idle(p: Proc, owed: int) {
    p.stream.None? &&
    (!AllAhead(p) || CatchUp in p.mailbox || owed <= p.checkpoint || Pending(p.mailbox, owed))
  }

  ghost predicate Live(p: Proc, owed: int) {
    Waiting(p) || Streaming(p) || Ending(p, owed) || Idle(p, owed)
  }

  lemma NothingLeftToDo(p: Proc, owed: int)
    requires Shape(p) && Live(p, owed) && p.mailbox == []
    ensures !AllAhead(p) || (!p.catchingUp && owed <= p.checkpoint)
  {
  }

  // ------------------------------------------------------------------ facts about mailboxes

  lemma {:induction false} InFlightAppend(a: seq<Msg>, b: seq<Msg>, checkpoint: int, token: int)
    ensures InFlight(a, checkpoint, token) || InFlight(b, checkpoint, token) <==> InFlight(a + b, checkpoint, token)
    decreases |a|
  {
    if a == [] {
      assert a + b == b;
    } else {
      InFlightAppend(a[1..], b, checkpoint, token);
      assert (a + b)[1..] == a[1..] + b;
    }
  }

  lemma {:induction false} PendingAppend(a: seq<Msg>, b: seq<Msg>, owed: int)
    ensures Pending(a, owed) || Pending(b, owed) <==> Pending(a + b, owed)
    decreases |a|
  {
    if a == [] {
      assert a + b == b;
    } else {
      PendingAppend(a[1..], b, owed);
      assert (a + b)[1..] == a[1..] + b;
    }
  }

  lemma {:induction false} LastAppend(a: seq<Msg>, b: seq<Msg>, checkpoint: int, owed: int)
    ensures LastOnItsWay(a, checkpoint, owed) ==> LastOnItsWay(a + b, checkpoint, owed)
    ensures LastOnItsWay(b, checkpoint, owed) ==> LastOnItsWay(a + b, checkpoint, owed)
    decreases |a|
  {
    if a == [] {
      assert a + b == b;
    } else {
      LastAppend(a[1..], b, checkpoint, owed);
      PendingAppend(a[1..], b, owed);
      assert (a + b)[1..] == a[1..] + b;
    }
  }

  /** A message that carries everything owed so far arrives after the last catch-up commit. */
  lemma {:induction false} LastThenNews(a: seq<Msg>, m: Msg, checkpoint: int, owed: int, owed': int)
    requires LastOnItsWay(a, checkpoint, owed) && (owed' == owed || (m.Ordered? && owed' == m.note.commit.token))
    ensures LastOnItsWay(a + [m], checkpoint, owed')
    decreases |a|
  {
    assert (a + [m])[1..] == a[1..] + [m];
    if owed' == owed {
      LastAppend(a, [m], checkpoint, owed);
    } else if LastOnItsWay(a[1..], checkpoint, owed) {
      LastThenNews(a[1..], m, checkpoint, owed, owed');
    } else {
      assert Pending([m], owed');
      PendingAppend(a[1..], [m], owed');
    }
  }

  lemma {:induction false} LastIsPending(mailbox: seq<Msg>, checkpoint: int, owed: int)
    requires LastOnItsWay(mailbox, checkpoint, owed)
    ensures Pending(mailbox, owed)
    decreases |mailbox|
  {
    if LastOnItsWay(mailbox[1..], checkpoint, owed) {
      LastIsPending(mailbox[1..], checkpoint, owed);
    }
  }

  /** All pairs in the mailbox that follow the checkpoint carry the same commit. */
  lemma {:induction false} InFlightToken(store: seq<Commit>, mailbox: seq<Msg>, o: OrderedCommit,
    checkpoint: int, token: int)
    requires IsStore(store) && MailOk(store, checkpoint, mailbox)
    requires Truthful(store, o) && o.previous == checkpoint && InFlight(mailbox, checkpoint, token)
    ensures o.commit.token == token
    decreases |mailbox|
  {
    assert MsgOk(store, checkpoint, mailbox[0]);
    if IsPair(mailbox[0], checkpoint, token) {
      SamePreviousSameCommit(store, o, mailbox[0].note);
    } else {
      assert forall i :: 0 <= i < |mailbox[1..]| ==> mailbox[1..][i] == mailbox[i + 1];
      InFlightToken(store, mailbox[1..], o, checkpoint, token);
    }
  }

  lemma {:induction false} LastToken(store: seq<Commit>, mailbox: seq<Msg>, o: OrderedCommit,
    checkpoint: int, owed: int)
    requires IsStore(store) && MailOk(store, checkpoint, mailbox)
    requires Truthful(store, o) && o.previous == checkpoint && LastOnItsWay(mailbox, checkpoint, owed)
    ensures owed <= o.commit.token || Pending(mailbox[1..], owed)
    decreases |mailbox|
  {
    assert MsgOk(store, checkpoint, mailbox[0]);
    if ComesNext(mailbox[0], checkpoint) && owed <= mailbox[0].note.commit.token {
      SamePreviousSameCommit(store, o, mailbox[0].note);
    } else if LastOnItsWay(mailbox[1..], checkpoint, owed) {
      assert forall i :: 0 <= i < |mailbox[1..]| ==> mailbox[1..][i] == mailbox[i + 1];
      LastToken(store, mailbox[1..], o, checkpoint, owed);
    }
  }

  lemma {:induction false} InFlightIsAhead(store: seq<Commit>, mailbox: seq<Msg>, checkpoint: int, token: int)
    requires MailOk(store, checkpoint, mailbox) && InFlight(mailbox, checkpoint, token)
    ensures checkpoint < token
    decreases |mailbox|
  {
    assert MsgOk(store, checkpoint, mailbox[0]);
    if !IsPair(mailbox[0], checkpoint, token) {
      assert forall i :: 0 <= i < |mailbox[1..]| ==> mailbox[1..][i] == mailbox[i + 1];
      InFlightIsAhead(store, mailbox[1..], checkpoint, token);
    }
  }

  // ------------------------------------------------------------------ catching up keeps the phases

  /** With the next catch-up commit ready, the processor sends it to itself or waits. */
  lemma ReadyAdvances(p: Proc, owed: int, store: seq<Commit>, pageSize: nat)
    requires ProcOk(store, p) && HeadFollows(p) && p.catchingUp && owed <= Head(store) && 0 < pageSize
    ensures Live(CatchUpTryAdvance(p, store, pageSize), owed)
  {
    if AllAhead(p) {
      var st := p.stream.value;
      var m := Ordered(st.queue[0], true);
      NextOk(store, st, pageSize);
      var q := CatchUpTryAdvance(p, store, pageSize);
      assert q.mailbox == p.mailbox + [m];
      assert IsPair(m, p.checkpoint, st.queue[0].commit.token);
      if q.stream.value.queue != [] {
        assert InFlight([m], p.checkpoint, st.queue[0].commit.token);
        InFlightAppend(p.mailbox, [m], p.checkpoint, st.queue[0].commit.token);
      } else {
        assert LastOnItsWay([m], p.checkpoint, owed);
        LastAppend(p.mailbox, [m], p.checkpoint, owed);
      }
    }
  }

  lemma FinishedIsIdle(p: Proc, owed: int)
    requires !AllAhead(p) || CatchUp in p.mailbox || owed <= p.checkpoint || Pending(p.mailbox, owed)
    ensures Live(CatchUpFinish(p), owed)
  {
    PendingAppend(p.mailbox, [PublishCheckpoint], owed);
  }

  lemma TryAdvanceLive(p: Proc, owed: int, store: seq<Commit>, pageSize: nat)
    requires ProcOk(store, p) && p.catchingUp && owed <= Head(store) && 0 < pageSize
    requires HeadFollows(p) || Streaming(p) || Ending(p, owed)
    ensures Live(CatchUpTryAdvance(p, store, pageSize), owed)
  {
    if HeadFollows(p) {
      ReadyAdvances(p, owed, store, pageSize);
    } else if Streaming(p) {
      InFlightIsAhead(store, p.mailbox, p.checkpoint, p.stream.value.queue[0].previous);
    } else {
      LastIsPending(p.mailbox, p.checkpoint, owed);
      FinishedIsIdle(p, owed);
    }
  }

  /** Starting to catch up is live from any state: the new stream covers the whole store. */
  lemma CatchUpStartLive(p: Proc, owed: int, store: seq<Commit>, pageSize: nat)
    requires ProcOk(store, p) && owed <= Head(store) && 0 < pageSize
    ensures Live(CatchUpStart(p, store, pageSize), owed)
  {
    StartOk(store, p.checkpoint, pageSize);
    var q := p.(catchingUp := true, stream := Some(Start(p.checkpoint, store, pageSize)));
    if q.stream.value.queue != [] {
      ReadyAdvances(q, owed, store, pageSize);
    } else {
      FinishedIsIdle(q, owed);
    }
  }

  lemma ContinueLive(p: Proc, owed: int, store: seq<Commit>, pageSize: nat)
    requires ProcOk(store, p) && Live(p, owed) && owed <= Head(store) && 0 < pageSize
    ensures Live(Continue(p, store, pageSize), owed)
  {
    if p.catchingUp {
      TryAdvanceLive(p, owed, store, pageSize);
    }
  }

  // ------------------------------------------------------------------ each message keeps the phases

  /** Taking a message that does not follow the checkpoint out of the mailbox. */
  lemma RestLive(p: Proc, owed: int)
    requires Live(p, owed) && p.mailbox != []
    requires !ComesNext(p.mailbox[0], p.checkpoint) && p.mailbox[0] != CatchUp
    requires p.mailbox[0].Ordered? ==> !AllAhead(p) || p.mailbox[0].note.commit.token <= p.checkpoint || p.catchingUp
    requires Shape(p)
    ensures Live(Rest(p), owed)
  {
    var q := Rest(p);
    assert AllAhead(q) == AllAhead(p);
    if CatchUp in p.mailbox {
      assert p.mailbox == [p.mailbox[0]] + q.mailbox;
      assert CatchUp in q.mailbox;
    }
  }

  /** A commit is processed: whichever way it came, the processor goes on to the next one. */
  lemma AcceptLive(p: Proc, persist: bool, owed: int, store: seq<Commit>, pageSize: nat)
    requires ProcOk(store, p) && Live(p, owed) && Accepts(p) && owed <= Head(store) && 0 < pageSize
    ensures Live(Handle(p, Completes(persist), store, pageSize).p, owed)
  {
    var note := p.mailbox[0].note;
    var r := Rest(p);
    RestOk(p, store);
    AdvanceOk(r, note, Completes(persist), store);
    var q := Advance(r, note.commit, Completes(persist)).p;
    HandleChanges(p, Completes(persist), store, pageSize);
    assert p.mailbox == [p.mailbox[0]] + r.mailbox;
    if Streaming(p) {
      InFlightToken(store, p.mailbox, note, p.checkpoint, p.stream.value.queue[0].previous);
      TryAdvanceLive(q, owed, store, pageSize);
    } else if Ending(p, owed) {
      LastToken(store, p.mailbox, note, p.checkpoint, owed);
      FinishedIsIdle(q, owed);
    } else {
      assert Idle(p, owed);
      assert CatchUp in p.mailbox ==> CatchUp in q.mailbox;
    }
  }

  lemma {:induction false} MemberInFlight(mailbox: seq<Msg>, m: Msg, checkpoint: int, token: int)
    requires m in mailbox && IsPair(m, checkpoint, token)
    ensures InFlight(mailbox, checkpoint, token)
    decreases |mailbox|
  {
    if m != mailbox[0] {
      MemberInFlight(mailbox[1..], m, checkpoint, token);
    }
  }

  /** A copy of the commit that comes next is as good as the first one. */
  lemma CopyInFlight(store: seq<Commit>, mailbox: seq<Msg>, m: Msg, checkpoint: int, token: int)
    requires IsStore(store) && MailOk(store, checkpoint, mailbox) && InFlight(mailbox, checkpoint, token)
    requires m in mailbox[1..] && ComesNext(m, checkpoint)
    ensures InFlight(mailbox[1..], checkpoint, token)
  {
    var i :| 0 <= i < |mailbox[1..]| && mailbox[1..][i] == m;
    assert MsgOk(store, checkpoint, mailbox[i + 1]);
    InFlightToken(store, mailbox, m.note, checkpoint, token);
    MemberInFlight(mailbox[1..], m, checkpoint, token);
  }

  /** When the stream is exhausted, every proceeding processor is known to be ahead (else the catch-up has ended). */
  ghost predicate ExhaustedIsAhead(p: Proc) {
    p.stream.Some? && p.stream.value.queue == [] ==> AllAhead(p)
  }

  /** A blocked processor is about to drop the commit that comes next, of which the catch-up stream has been rid
      and the mailbox holds no second copy. */
  ghost predicate DropsLastCopy(p: Proc) {
    && p.catchingUp && !AllAhead(p) && !HeadFollows(p)
    && p.mailbox != [] && ComesNext(p.mailbox[0], p.checkpoint)
    && forall m :: m in p.mailbox[1..] ==> !ComesNext(m, p.checkpoint)
  }

  /** Dropping a commit that is still in the stream, or in the mailbox once more, does no harm. */
  lemma DropLive(p: Proc, owed: int, store: seq<Commit>)
    requires ProcOk(store, p) && Live(p, owed) && ExhaustedIsAhead(p) && !AllAhead(p)
    requires p.mailbox != [] && ComesNext(p.mailbox[0], p.checkpoint) && !DropsLastCopy(p)
    ensures Live(Rest(p), owed)
  {
    assert AllAhead(Rest(p)) == AllAhead(p);
    if p.catchingUp && !HeadFollows(p) {
      assert Streaming(p);
      var m :| m in p.mailbox[1..] && ComesNext(m, p.checkpoint);
      CopyInFlight(store, p.mailbox, m, p.checkpoint, p.stream.value.queue[0].previous);
    }
  }

  lemma OrderedLive(p: Proc, fate: Fate, owed: int, store: seq<Commit>, pageSize: nat)
    requires ProcOk(store, p) && Live(p, owed) && ExhaustedIsAhead(p) && owed <= Head(store) && 0 < pageSize
    requires p.mailbox != [] && p.mailbox[0].Ordered? && !Accepts(p) && !DropsLastCopy(p)
    ensures Live(Handle(p, fate, store, pageSize).p, owed)
  {
    var note := p.mailbox[0].note;
    var r := Rest(p);
    RestOk(p, store);
    assert AllAhead(r) == AllAhead(p);
    if !AllAhead(p) {
      if ComesNext(p.mailbox[0], p.checkpoint) {
        DropLive(p, owed, store);
      } else {
        RestLive(p, owed);
      }
    } else if note.previous < p.checkpoint {
      PastPreviousReachesCommit(store, note, p.checkpoint);
      RestLive(p, owed);
    } else if p.catchingUp {
      RestLive(p, owed);
    } else {
      CatchUpStartLive(r, owed, store, pageSize);
      CatchUpStartOk(r, store, pageSize);
      ContinueLive(CatchUpStart(r, store, pageSize), owed, store, pageSize);
    }
  }

  lemma CurrentCheckpointLive(p: Proc, fate: Fate, owed: int, store: seq<Commit>, pageSize: nat)
    requires ProcOk(store, p) && Live(p, owed) && owed <= Head(store) && 0 < pageSize
    requires p.mailbox != [] && p.mailbox[0].CurrentCheckpoint?
    ensures Live(Handle(p, fate, store, pageSize).p, owed)
  {
    var r := Rest(p);
    RestOk(p, store);
    RestLive(p, owed);
    var m := p.mailbox[0];
    if m.source in r.known && r.known[m.source] != m.checkpoint {
      var q := r.(known := r.known[m.source := m.checkpoint]);
      assert ProcOk(store, q);
      if q.catchingUp {
        TryAdvanceLive(q, owed, store, pageSize);
      } else if AllAhead(q) {
        CatchUpStartLive(q, owed, store, pageSize);
      }
    }
  }

  /** Every message keeps the phases, except when DropsLastCopy. */
  lemma HandleLive(p: Proc, fate: Fate, owed: int, store: seq<Commit>, pageSize: nat)
    requires ProcOk(store, p) && Live(p, owed) && ExhaustedIsAhead(p) && owed <= Head(store) && 0 < pageSize
    requires p.mailbox != [] && !DropsLastCopy(p)
    requires Handle(p, fate, store, pageSize).Running?
    ensures Live(Handle(p, fate, store, pageSize).p, owed)
  {
    HandleChanges(p, fate, store, pageSize);
    RestOk(p, store);
    match p.mailbox[0]
    case Ordered(_, _) =>
      if Accepts(p) {
        AcceptLive(p, fate.persist, owed, store, pageSize);
      } else {
        OrderedLive(p, fate, owed, store, pageSize);
      }
    case CurrentCheckpoint(_, _) => CurrentCheckpointLive(p, fate, owed, store, pageSize);
    case CatchUp => if !p.catchingUp { CatchUpStartLive(Rest(p), owed, store, pageSize); }
    case PersistCheckpoint => RestLive(p, owed);
    case PublishCheckpoint => RestLive(p, owed);
  }

  lemma {:induction false} NothingFollows(mailbox: seq<Msg>, checkpoint: int, token: int, owed: int)
    requires forall m :: m in mailbox ==> !ComesNext(m, checkpoint)
    ensures !InFlight(mailbox, checkpoint, token) && !LastOnItsWay(mailbox, checkpoint, owed)
    decreases |mailbox|
  {
    if mailbox != [] {
      assert mailbox[0] in mailbox;
      NothingFollows(mailbox[1..], checkpoint, token, owed);
    }
  }

  /** The exact condition: handling a message keeps the processor live if and only if the message is not the
      last copy of a catch-up commit, met by a blocked processor. */
  lemma KeptLiveExactlyUnlessDropped(p: Proc, fate: Fate, owed: int, store: seq<Commit>, pageSize: nat)
    requires ProcOk(store, p) && Live(p, owed) && ExhaustedIsAhead(p) && owed <= Head(store) && 0 < pageSize
    requires p.mailbox != [] && Handle(p, fate, store, pageSize).Running?
    ensures Live(Handle(p, fate, store, pageSize).p, owed) <==> !DropsLastCopy(p)
  {
    if DropsLastCopy(p) {
      assert Streaming(p);
      var q := Rest(p);
      assert Handle(p, fate, store, pageSize) == Running(q);
      NothingFollows(q.mailbox, q.checkpoint, q.stream.value.queue[0].previous, owed);
    } else {
      HandleLive(p, fate, owed, store, pageSize);
    }
  }

  // ------------------------------------------------------------------ after the last copy was dropped

  /** `to` is the commit right after the checkpoint `after`. */
  ghost predicate NextToken(store: seq<Commit>, after: int, to: int) {
    exists o :: Truthful(store, o) && o.previous == after && o.commit.token == to
  }

  /** Catching up, with the commit that comes next gone from both the stream and the mailbox. */
  ghost predicate Stuck(store: seq<Commit>, p: Proc) {
    && p.stream.Some? && p.stream.value.queue != []
    && NextToken(store, p.checkpoint, p.stream.value.queue[0].previous)
    && forall m :: m in p.mailbox ==> !ComesNext(m, p.checkpoint)
  }

  /** After the last copy was dropped the processor is stuck. (The stream cannot have come to its end by then:
      that is what ExhaustedIsAhead says.) */
  lemma DroppingSticks(p: Proc, fate: Fate, owed: int, store: seq<Commit>, pageSize: nat)
    requires ProcOk(store, p) && Live(p, owed) && ExhaustedIsAhead(p) && DropsLastCopy(p)
    ensures Handle(p, fate, store, pageSize).Running? && Stuck(store, Handle(p, fate, store, pageSize).p)
  {
    assert Streaming(p);
    var note := p.mailbox[0].note;
    assert MsgOk(store, p.checkpoint, p.mailbox[0]);
    InFlightToken(store, p.mailbox, note, p.checkpoint, p.stream.value.queue[0].previous);
    assert Truthful(store, note);
  }

  /** A stuck processor stays stuck at its checkpoint, whatever message it handles. */
  lemma StuckStays(p: Proc, fate: Fate, store: seq<Commit>, pageSize: nat)
    requires IsStore(store) && Shape(p) && Stuck(store, p) && p.mailbox != []
    ensures var r := Handle(p, fate, store, pageSize);
      r.Running? && Stuck(store, r.p) && r.p.checkpoint == p.checkpoint && r.p.applied == p.applied
  {
    var m := p.mailbox[0];
    assert m in p.mailbox;
    assert forall x :: x in p.mailbox[1..] ==> x in p.mailbox;
  }

  /** Being sent the missing commit once more sets a stuck processor going again. */
  lemma SentAgainIsLive(p: Proc, m: Msg, owed: int, store: seq<Commit>)
    requires IsStore(store) && Stuck(store, p)
    requires m.Ordered? ==> Truthful(store, m.note)
    ensures Stuck(store, p.(mailbox := p.mailbox + [m])) <==> !ComesNext(m, p.checkpoint)
    ensures ComesNext(m, p.checkpoint) ==> Live(p.(mailbox := p.mailbox + [m]), owed)
  {
    if ComesNext(m, p.checkpoint) {
      var token := p.stream.value.queue[0].previous;
      var o :| Truthful(store, o) && o.previous == p.checkpoint && o.commit.token == token;
      SamePreviousSameCommit(store, o, m.note);
      MemberInFlight(p.mailbox + [m], m, p.checkpoint, token);
      assert m in p.mailbox + [m];
    }
  }

  lemma StuckGrows(s: seq<Commit>, s': seq<Commit>, p: Proc)
    requires Grows(s, s') && Stuck(s, p)
    ensures Stuck(s', p)
  {
    var o :| Truthful(s, o) && o.previous == p.checkpoint && o.commit.token == p.stream.value.queue[0].previous;
    TruthfulGrows(s, s', o);
  }

  /** Whatever the message, a processor that is live or stuck is live or stuck afterwards. */
  lemma HandleLiveOrStuck(p: Proc, fate: Fate, owed: int, store: seq<Commit>, pageSize: nat)
    requires ProcOk(store, p) && ExhaustedIsAhead(p) && owed <= Head(store) && 0 < pageSize
    requires Live(p, owed) || Stuck(store, p)
    requires p.mailbox != [] && Handle(p, fate, store, pageSize).Running?
    ensures var q := Handle(p, fate, store, pageSize).p; Live(q, owed) || Stuck(store, q)
  {
    if Stuck(store, p) {
      StuckStays(p, fate, store, pageSize);
    } else if DropsLastCopy(p) {
      DroppingSticks(p, fate, owed, store, pageSize);
    } else {
      HandleLive(p, fate, owed, store, pageSize);
    }
  }

  // ------------------------------------------------------------------ an exhausted stream

  lemma TryAdvanceExhausted(p: Proc, store: seq<Commit>, pageSize: nat)
    requires IsStore(store) && Shape(p) && p.catchingUp
    ensures ExhaustedIsAhead(CatchUpTryAdvance(p, store, pageSize))
  {
    if !p.stream.value.finished && AllAhead(p) {
      assert AllAhead(CatchUpTryAdvance(p, store, pageSize));
    }
  }

  lemma ContinueExhausted(p: Proc, store: seq<Commit>, pageSize: nat)
    requires IsStore(store) && Shape(p)
    ensures ExhaustedIsAhead(Continue(p, store, pageSize))
    ensures ExhaustedIsAhead(CatchUpStart(p, store, pageSize))
    ensures ExhaustedIsAhead(Continue(CatchUpStart(p, store, pageSize), store, pageSize))
  {
    if p.catchingUp {
      TryAdvanceExhausted(p, store, pageSize);
    }
    var q := CatchUpStart(p, store, pageSize);
    TryAdvanceExhausted(p.(catchingUp := true, stream := Some(Start(p.checkpoint, store, pageSize))), store, pageSize);
    if q.catchingUp {
      TryAdvanceExhausted(q, store, pageSize);
    }
  }

  lemma CurrentCheckpointExhausted(p: Proc, source: nat, c: int, store: seq<Commit>, pageSize: nat)
    requires IsStore(store) && Shape(p) && ExhaustedIsAhead(p)
    ensures ExhaustedIsAhead(OnCurrentCheckpoint(p, source, c, store, pageSize))
  {
    if source in p.known {
      ContinueExhausted(p.(known := p.known[source := c]), store, pageSize);
    }
  }

  lemma OrderedExhausted(p: Proc, note: OrderedCommit, fate: Fate, store: seq<Commit>, pageSize: nat)
    requires IsStore(store) && Shape(p) && ExhaustedIsAhead(p)
    requires OnOrdered(p, note, fate, store, pageSize).Running?
    ensures ExhaustedIsAhead(OnOrdered(p, note, fate, store, pageSize).p)
  {
    ContinueExhausted(p, store, pageSize);
    if AllAhead(p) && p.checkpoint == note.previous {
      ContinueExhausted(Advance(p, note.commit, fate).p, store, pageSize);
    }
  }

  lemma HandleExhausted(p: Proc, fate: Fate, store: seq<Commit>, pageSize: nat)
    requires IsStore(store) && Shape(p) && ExhaustedIsAhead(p) && p.mailbox != []
    requires Handle(p, fate, store, pageSize).Running?
    ensures ExhaustedIsAhead(Handle(p, fate, store, pageSize).p)
  {
    assert AllAhead(Rest(p)) == AllAhead(p);
    match p.mailbox[0]
    case Ordered(note, _) => OrderedExhausted(Rest(p), note, fate, store, pageSize);
    case CurrentCheckpoint(source, c) => CurrentCheckpointExhausted(Rest(p), source, c, store, pageSize);
    case CatchUp => ContinueExhausted(Rest(p), store, pageSize);
    case _ =>
  }
}
