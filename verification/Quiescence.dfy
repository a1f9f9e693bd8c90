/** The self-messaging loop of a catch-up comes to an end, and where it ends. */
module Quiescence {
  import opened CommitStore
  import opened OrderedEventStreamer
  import opened StreamProcessor
  import opened ProcessorGraph
  import opened NoStall
  import opened NoStallRuns

  // ------------------------------------------------------------------ the measure

  /** The messages in the mailbox that came from outside. */
  ghost function External(mailbox: seq<Msg>): nat {
    if mailbox == [] then 0
    else (if SelfSent(mailbox[0]) then 0 else 1) + External(mailbox[1..])
  }

  /** The commits the catch-up stream still has to send, and one for ending the catch-up. */
  ghost function Work(p: Proc, store: seq<Commit>): nat
    requires IsStore(store)
  {
    if p.stream.None? then 0 else Remaining(store, p.stream.value) + 1
  }

  lemma {:induction false} ExternalAppend(a: seq<Msg>, b: seq<Msg>)
    requires OnlySelfSent(a, b)
    ensures External(b) == External(a)
    decreases |b|
  {
    if a != [] {
      assert b[0] == a[0];
      assert OnlySelfSent(a[1..], b[1..]) by {
        assert forall i :: |a[1..]| <= i < |b[1..]| ==> b[1..][i] == b[i + 1];
      }
      ExternalAppend(a[1..], b[1..]);
    } else if b != [] {
      assert SelfSent(b[0]);
      assert forall i :: 0 <= i < |b[1..]| ==> b[1..][i] == b[i + 1];
      ExternalAppend([], b[1..]);
    }
  }

  /** Going on after a commit either sends one of the remaining commits, ends the catch-up, or does nothing. */
  lemma ContinueWorks(p: Proc, store: seq<Commit>, pageSize: nat)
    requires ProcOk(store, p) && 0 < pageSize
    ensures var q := Continue(p, store, pageSize);
      Work(q, store) < Work(p, store) || q == p
  {
    if p.catchingUp {
      var st := p.stream.value;
      if !st.finished && AllAhead(p) && st.queue[0].previous == p.checkpoint {
        NextOk(store, st, pageSize);
      }
    }
  }

  /** A self-sent message never starts a catch-up: it is handled with at most one step of the stream. */
  lemma SelfSentWorks(p: Proc, fate: Fate, store: seq<Commit>, pageSize: nat)
    requires ProcOk(store, p) && p.mailbox != [] && SelfSent(p.mailbox[0]) && 0 < pageSize
    requires Handle(p, fate, store, pageSize).Running?
    ensures var q := Handle(p, fate, store, pageSize).p;
      Work(q, store) < Work(p, store) || (Work(q, store) == Work(p, store) && |q.mailbox| < |p.mailbox|)
  {
    RestOk(p, store);
    HandleChanges(p, fate, store, pageSize);
    if Accepts(p) {
      var note := p.mailbox[0].note;
      AdvanceOk(Rest(p), note, fate, store);
      ContinueWorks(Advance(Rest(p), note.commit, fate).p, store, pageSize);
    }
  }

  ghost predicate Smaller(q: Proc, p: Proc, store: seq<Commit>)
    requires IsStore(store)
  {
    || External(q.mailbox) < External(p.mailbox)
    || (External(q.mailbox) == External(p.mailbox)
        && (|| Work(q, store) < Work(p, store)
            || (Work(q, store) == Work(p, store) && |q.mailbox| < |p.mailbox|)))
  }

  lemma HandleDecreases(p: Proc, fate: Fate, store: seq<Commit>, pageSize: nat)
    requires ProcOk(store, p) && p.mailbox != [] && 0 < pageSize
    requires Handle(p, fate, store, pageSize).Running?
    ensures Smaller(Handle(p, fate, store, pageSize).p, p, store)
  {
    HandleMail(p, fate, store, pageSize);
    ExternalAppend(p.mailbox[1..], Handle(p, fate, store, pageSize).p.mailbox);
    if SelfSent(p.mailbox[0]) {
      SelfSentWorks(p, fate, store, pageSize);
    }
  }

  // ------------------------------------------------------------------ running to the end

  function FateOf(m: Msg, fates: Commit -> Fate): Fate {
    if m.Ordered? then fates(m.note.commit) else Completes(false)
  }

  /** Handles messages until the mailbox is empty or processing fails. That this function is well founded for
      any store, mailbox and fates is the termination of catching up. */
  ghost function Settle(p: Proc, fates: Commit -> Fate, store: seq<Commit>, pageSize: nat): (r: Outcome)
    requires ProcOk(store, p) && 0 < pageSize
    ensures r.Running? ==> r.p.mailbox == [] && ProcOk(store, r.p)
    decreases External(p.mailbox), Work(p, store), |p.mailbox|
  {
    if p.mailbox == [] then Running(p)
    else
      var fate := FateOf(p.mailbox[0], fates);
      HandleOk(p, fate, store, pageSize);
      match Handle(p, fate, store, pageSize)
      case Crashed(q) => Crashed(q)
      case Running(q) =>
        HandleDecreases(p, fate, store, pageSize);
        Settle(q, fates, store, pageSize)
  }

  // ------------------------------------------------------------------ where the loop ends

  /** Where the loop ends, whatever the processor hears: at rest in one of the phases, or stuck. */
  lemma {:induction false} SettlesLiveOrStuck(p: Proc, owed: int, fates: Commit -> Fate, store: seq<Commit>,
    pageSize: nat)
    requires ProcOk(store, p) && ExhaustedIsAhead(p) && owed <= Head(store) && 0 < pageSize
    requires Live(p, owed) || Stuck(store, p)
    ensures var r := Settle(p, fates, store, pageSize);
      r.Running? ==> Live(r.p, owed) || Stuck(store, r.p)
    decreases External(p.mailbox), Work(p, store), |p.mailbox|
  {
    if p.mailbox != [] {
      var fate := FateOf(p.mailbox[0], fates);
      var r := Handle(p, fate, store, pageSize);
      if r.Running? {
        HandleOk(p, fate, store, pageSize);
        HandleExhausted(p, fate, store, pageSize);
        HandleLiveOrStuck(p, fate, owed, store, pageSize);
        HandleDecreases(p, fate, store, pageSize);
        SettlesLiveOrStuck(r.p, owed, fates, store, pageSize);
      }
    }
  }

  /** So it ends with a proceeding processor not known to be ahead, with everything owed reached, or stuck; and
      it is stuck, with all proceeding processors ahead, only if it did not end in either of the other ways. */
  lemma SettlesUnstalledUnlessStuck(p: Proc, owed: int, fates: Commit -> Fate, store: seq<Commit>, pageSize: nat)
    requires ProcOk(store, p) && ExhaustedIsAhead(p) && owed <= Head(store) && 0 < pageSize
    requires Live(p, owed) || Stuck(store, p)
    ensures var r := Settle(p, fates, store, pageSize);
      r.Running? && AllAhead(r.p) ==> (!r.p.catchingUp && owed <= r.p.checkpoint <==> !Stuck(store, r.p))
  {
    SettlesLiveOrStuck(p, owed, fates, store, pageSize);
    var r := Settle(p, fates, store, pageSize);
    if r.Running? && Live(r.p, owed) {
      NothingLeftToDo(r.p, owed);
    }
  }

  /** Some message of the loop drops the last copy of a commit that the catch-up needs. */
  ghost predicate DropsOnTheWay(p: Proc, fates: Commit -> Fate, store: seq<Commit>, pageSize: nat)
    requires ProcOk(store, p) && 0 < pageSize
    decreases External(p.mailbox), Work(p, store), |p.mailbox|
  {
    p.mailbox != [] &&
    var fate := FateOf(p.mailbox[0], fates);
    HandleOk(p, fate, store, pageSize);
    var r := Handle(p, fate, store, pageSize);
    DropsLastCopy(p) ||
    (r.Running? &&
      (HandleDecreases(p, fate, store, pageSize);
       DropsOnTheWay(r.p, fates, store, pageSize)))
  }

  lemma {:induction false} StuckSettles(p: Proc, fates: Commit -> Fate, store: seq<Commit>, pageSize: nat)
    requires ProcOk(store, p) && Stuck(store, p) && 0 < pageSize
    ensures var r := Settle(p, fates, store, pageSize); r.Running? && Stuck(store, r.p)
    decreases External(p.mailbox), Work(p, store), |p.mailbox|
  {
    if p.mailbox != [] {
      var fate := FateOf(p.mailbox[0], fates);
      HandleOk(p, fate, store, pageSize);
      StuckStays(p, fate, store, pageSize);
      HandleDecreases(p, fate, store, pageSize);
      StuckSettles(Handle(p, fate, store, pageSize).p, fates, store, pageSize);
    }
  }

  lemma LiveIsNotStuck(p: Proc, owed: int, store: seq<Commit>)
    requires Shape(p) && Live(p, owed) && p.mailbox == []
    ensures !Stuck(store, p)
  {
  }

  /** The exact condition over the whole loop: it ends stuck if and only if a message on the way dropped the
      last copy of a commit the catch-up needs. */
  lemma {:induction false} SettlesStuckExactlyIfDropped(p: Proc, owed: int, fates: Commit -> Fate,
    store: seq<Commit>, pageSize: nat)
    requires ProcOk(store, p) && Live(p, owed) && ExhaustedIsAhead(p) && owed <= Head(store) && 0 < pageSize
    ensures var r := Settle(p, fates, store, pageSize);
      DropsOnTheWay(p, fates, store, pageSize) <==> r.Running? && Stuck(store, r.p)
    decreases External(p.mailbox), Work(p, store), |p.mailbox|
  {
    if p.mailbox == [] {
      LiveIsNotStuck(p, owed, store);
    } else {
      var fate := FateOf(p.mailbox[0], fates);
      HandleOk(p, fate, store, pageSize);
      var r := Handle(p, fate, store, pageSize);
      if DropsLastCopy(p) {
        DroppingSticks(p, fate, owed, store, pageSize);
        HandleDecreases(p, fate, store, pageSize);
        StuckSettles(r.p, fates, store, pageSize);
      } else if r.Running? {
        HandleExhausted(p, fate, store, pageSize);
        HandleLive(p, fate, owed, store, pageSize);
        HandleDecreases(p, fate, store, pageSize);
        SettlesStuckExactlyIfDropped(r.p, owed, fates, store, pageSize);
      }
    }
  }

  /** Without such a message the loop ends waiting for a proceeding processor or with everything owed reached. */
  lemma SettlesUnstalled(p: Proc, owed: int, fates: Commit -> Fate, store: seq<Commit>, pageSize: nat)
    requires ProcOk(store, p) && Live(p, owed) && ExhaustedIsAhead(p) && owed <= Head(store) && 0 < pageSize
    requires !DropsOnTheWay(p, fates, store, pageSize)
    ensures var r := Settle(p, fates, store, pageSize);
      r.Running? ==> !AllAhead(r.p) || (!r.p.catchingUp && owed <= r.p.checkpoint)
  {
    SettlesStuckExactlyIfDropped(p, owed, fates, store, pageSize);
    SettlesUnstalledUnlessStuck(p, owed, fates, store, pageSize);
  }

  /** A processor that follows no other drops nothing. */
  lemma {:induction false} FollowingNoneDropsNothing(p: Proc, fates: Commit -> Fate, store: seq<Commit>, pageSize: nat)
    requires ProcOk(store, p) && p.known.Keys == {} && 0 < pageSize
    ensures !DropsOnTheWay(p, fates, store, pageSize)
    decreases External(p.mailbox), Work(p, store), |p.mailbox|
  {
    assert AllAhead(p);
    if p.mailbox != [] {
      var fate := FateOf(p.mailbox[0], fates);
      var r := Handle(p, fate, store, pageSize);
      if r.Running? {
        HandleOk(p, fate, store, pageSize);
        HandleKnown(p, fate, store, pageSize, 0);
        HandleDecreases(p, fate, store, pageSize);
        FollowingNoneDropsNothing(r.p, fates, store, pageSize);
      }
    }
  }

  /** The log stays right, and when nothing fails the loop does not end in a crash. */
  lemma {:induction false} SettlesInOrder(t: Tracked, fates: Commit -> Fate, store: seq<Commit>, pageSize: nat)
    requires TrackedOk(store, t) && 0 < pageSize
    ensures var r := Settle(t.p, fates, store, pageSize);
      && (r.Running? ==> LogOk(store, t.(p := r.p)) && r.p.known.Keys == t.p.known.Keys)
      && ((forall c :: fates(c).Completes?) ==> r.Running?)
    decreases External(t.p.mailbox), Work(t.p, store), |t.p.mailbox|
  {
    if t.p.mailbox != [] {
      var fate := FateOf(t.p.mailbox[0], fates);
      HandleTracked(t, fate, store, pageSize);
      HandleChanges(t.p, fate, store, pageSize);
      HandleKnown(t.p, fate, store, pageSize, 0);
      var r := Handle(t.p, fate, store, pageSize);
      if r.Running? {
        HandleDecreases(t.p, fate, store, pageSize);
        SettlesInOrder(Progressed(t, r.p), fates, store, pageSize);
      }
    }
  }

  /** The state a settled processor without proceeding ones is in. */
  ghost predicate CaughtUp(t: Tracked, q: Proc, store: seq<Commit>)
    requires IsStore(store)
  {
    && q.mailbox == [] && !q.catchingUp
    && t.owed <= q.checkpoint <= Head(store)
    && t.p.applied <= q.applied
    && LogOk(store, t.(p := q))
  }

  /** A processor that follows no other: if nothing fails, catching up ends, not in a crash but at rest, with
      the processor at everything it owed, having processed all of it in order and exactly once. */
  lemma SettlesCaughtUp(t: Tracked, fates: Commit -> Fate, store: seq<Commit>, pageSize: nat)
    requires TrackedOk(store, t) && Flowing(t) && t.p.known.Keys == {} && 0 < pageSize
    requires forall c :: fates(c).Completes?
    ensures Settle(t.p, fates, store, pageSize).Running?
    ensures CaughtUp(t, Settle(t.p, fates, store, pageSize).p, store)
  {
    FollowingNoneDropsNothing(t.p, fates, store, pageSize);
    SettlesUnstalled(t.p, t.owed, fates, store, pageSize);
    SettlesInOrder(t, fates, store, pageSize);
    SettleAppends(t.p, fates, store, pageSize);
    AtMostHead(store, Settle(t.p, fates, store, pageSize).p.checkpoint);
  }

  /** So after any restart it ends at the store's head, having processed every commit after its saved
      checkpoint. */
  lemma CatchUpReachesHead(t: Tracked, fates: Commit -> Fate, store: seq<Commit>, pageSize: nat)
    requires TrackedOk(store, t) && t.p.known.Keys == {} && 0 < pageSize
    requires forall c :: fates(c).Completes?
    ensures TrackedOk(store, Revived(t, store))
    ensures Settle(Revived(t, store).p, fates, store, pageSize).Running?
    ensures AtHeadOf(store, t, Settle(Revived(t, store).p, fates, store, pageSize).p)
  {
    RevivedOk(t, store);
    RestartLive(t, store);
    assert Revived(t, store).p.known.Keys == {};
    SettlesCaughtUp(Revived(t, store), fates, store, pageSize);
  }

  ghost predicate AtHeadOf(store: seq<Commit>, t: Tracked, q: Proc)
    requires IsStore(store)
  {
    && q.mailbox == [] && !q.catchingUp && q.checkpoint == Head(store)
    && t.p.applied <= q.applied
    && q.applied[|t.p.applied|..] == Slice(store, t.p.saved, Head(store))
  }

  lemma {:induction false} SettleAppends(p: Proc, fates: Commit -> Fate, store: seq<Commit>, pageSize: nat)
    requires ProcOk(store, p) && 0 < pageSize
    ensures Settle(p, fates, store, pageSize).Running? ==> p.applied <= Settle(p, fates, store, pageSize).p.applied
    decreases External(p.mailbox), Work(p, store), |p.mailbox|
  {
    if p.mailbox != [] {
      var fate := FateOf(p.mailbox[0], fates);
      HandleOk(p, fate, store, pageSize);
      HandleChanges(p, fate, store, pageSize);
      var r := Handle(p, fate, store, pageSize);
      if r.Running? {
        HandleDecreases(p, fate, store, pageSize);
        SettleAppends(r.p, fates, store, pageSize);
      }
    }
  }
}
