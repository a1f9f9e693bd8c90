/** No stall over whole runs: exactly when a processor that has nothing left to do is stalled. */
module NoStallRuns {
  import opened Prelude
  import opened CommitStore
  import opened OrderedEventStreamer
  import opened StreamProcessor
  import opened ProcessorGraph
  import opened NoStall

  /** Nothing is taken out of the processor's mailbox unhandled. Messages lost on the way to it were never
      enqueued, and are allowed; so is everything that happens to other processors, and every crash. */
  predicate KeepsMail(steps: seq<Step>, id: nat) {
    steps == [] || (KeepsMail(steps[..|steps| - 1], id) && !Loses(steps[|steps| - 1], id))
  }

  predicate Loses(step: Step, id: nat) {
    step.At? && step.id == id && step.action.Lose?
  }

  ghost predicate LiveOrStuck(store: seq<Commit>, t: Tracked) {
    ExhaustedIsAhead(t.p) && (Live(t.p, t.owed) || Stuck(store, t.p))
  }

  lemma EnqueueLive(t: Tracked, m: Msg, store: seq<Commit>, pageSize: nat)
    requires TrackedOk(store, t) && Live(t.p, t.owed)
    ensures var t' := Act(t, Enqueue(m), store, pageSize); Live(t'.p, t'.owed)
  {
    var t' := Act(t, Enqueue(m), store, pageSize);
    var p := t.p;
    assert t'.p.mailbox == p.mailbox + [m];
    assert AllAhead(t'.p) == AllAhead(p);
    if Streaming(p) {
      InFlightAppend(p.mailbox, [m], p.checkpoint, p.stream.value.queue[0].previous);
    } else if Ending(p, t.owed) {
      LastThenNews(p.mailbox, m, p.checkpoint, t.owed, t'.owed);
    } else if Idle(p, t.owed) {
      assert t'.owed == t.owed || Pending([m], t'.owed);
      PendingAppend(p.mailbox, [m], t'.owed);
    }
  }

  lemma EnqueueLiveOrStuck(t: Tracked, m: Msg, store: seq<Commit>, pageSize: nat)
    requires TrackedOk(store, t) && LiveOrStuck(store, t)
    requires m.Ordered? ==> Truthful(store, m.note)
    ensures LiveOrStuck(store, Act(t, Enqueue(m), store, pageSize))
  {
    var t' := Act(t, Enqueue(m), store, pageSize);
    assert AllAhead(t'.p) == AllAhead(t.p);
    if Live(t.p, t.owed) {
      EnqueueLive(t, m, store, pageSize);
    } else {
      SentAgainIsLive(t.p, m, t'.owed, store);
    }
  }

  lemma RestartLive(t: Tracked, store: seq<Commit>)
    ensures var t' := Revived(t, store); Live(t'.p, t'.owed) && ExhaustedIsAhead(t'.p)
  {
  }

  lemma ActLiveOrStuck(t: Tracked, action: Action, store: seq<Commit>, pageSize: nat)
    requires TrackedOk(store, t) && LiveOrStuck(store, t) && 0 < pageSize && !action.Lose?
    requires action.Enqueue? && action.m.Ordered? ==> Truthful(store, action.m.note)
    ensures LiveOrStuck(store, Act(t, action, store, pageSize))
  {
    match action
    case Enqueue(m) => EnqueueLiveOrStuck(t, m, store, pageSize);
    case HandleNext(fate) =>
      if t.p.mailbox != [] {
        var r := Handle(t.p, fate, store, pageSize);
        if r.Running? {
          HandleExhausted(t.p, fate, store, pageSize);
          HandleLiveOrStuck(t.p, fate, t.owed, store, pageSize);
        } else {
          RestartLive(Progressed(t, r.p), store);
        }
      }
    case Restart => RestartLive(t, store);
  }

  lemma StepLiveOrStuck(g: Graph, step: Step, pageSize: nat, id: nat)
    requires GraphOk(g) && 0 < pageSize && id in g.nodes && LiveOrStuck(g.store, g.nodes[id]) && !Loses(step, id)
    ensures var g' := Apply(g, step, pageSize); id in g'.nodes && LiveOrStuck(g'.store, g'.nodes[id])
  {
    assert TrackedOk(g.store, g.nodes[id]);
    if Possible(g, step) {
      if step.Append? {
        AppendGrows(g.store, step.commit);
        if Stuck(g.store, g.nodes[id].p) {
          StuckGrows(g.store, g.store + [step.commit], g.nodes[id].p);
        }
      } else if step.id == id {
        ActLiveOrStuck(g.nodes[id], step.action, g.store, pageSize);
      }
    }
  }

  /** In every run a processor is in one of the phases or stuck. */
  lemma {:induction false} RunLiveOrStuck(config: map<nat, Setup>, store: seq<Commit>, steps: seq<Step>,
    pageSize: nat, id: nat)
    requires SetupOk(config, store) && 0 < pageSize && id in config && KeepsMail(steps, id)
    ensures var g := Execute(config, store, steps, pageSize); LiveOrStuck(g.store, g.nodes[id])
    decreases |steps|
  {
    if steps != [] {
      var n := |steps| - 1;
      RunLiveOrStuck(config, store, steps[..n], pageSize, id);
      StepLiveOrStuck(Execute(config, store, steps[..n], pageSize), steps[n], pageSize, id);
    }
  }

  lemma ActExhausted(t: Tracked, action: Action, store: seq<Commit>, pageSize: nat)
    requires TrackedOk(store, t) && ExhaustedIsAhead(t.p)
    ensures ExhaustedIsAhead(Act(t, action, store, pageSize).p)
  {
    match action
    case Enqueue(m) => assert AllAhead(Act(t, action, store, pageSize).p) == AllAhead(t.p);
    case Lose(i) => assert AllAhead(Act(t, action, store, pageSize).p) == AllAhead(t.p);
    case HandleNext(fate) =>
      if t.p.mailbox != [] && Handle(t.p, fate, store, pageSize).Running? {
        HandleExhausted(t.p, fate, store, pageSize);
      }
    case Restart =>
  }

  /** In every run whatsoever, no processor that has streamed the last commit of its catch-up is blocked; so the
      last commit of a catch-up is never dropped by the guard on proceeding processors. */
  lemma {:induction false} RunExhausted(config: map<nat, Setup>, store: seq<Commit>, steps: seq<Step>,
    pageSize: nat, id: nat)
    requires SetupOk(config, store) && 0 < pageSize && id in config
    ensures ExhaustedIsAhead(Execute(config, store, steps, pageSize).nodes[id].p)
    decreases |steps|
  {
    if steps != [] {
      var n := |steps| - 1;
      RunExhausted(config, store, steps[..n], pageSize, id);
      StepExhausted(Execute(config, store, steps[..n], pageSize), steps[n], pageSize, id);
    }
  }

  lemma StepExhausted(g: Graph, step: Step, pageSize: nat, id: nat)
    requires GraphOk(g) && 0 < pageSize && id in g.nodes && ExhaustedIsAhead(g.nodes[id].p)
    ensures id in Apply(g, step, pageSize).nodes && ExhaustedIsAhead(Apply(g, step, pageSize).nodes[id].p)
  {
    assert TrackedOk(g.store, g.nodes[id]);
    if Possible(g, step) && step.At? && step.id == id {
      ActExhausted(g.nodes[id], step.action, g.store, pageSize);
    }
  }

  // ------------------------------------------------------------------ when a processor is stalled

  /** With nothing in its mailbox, a processor waits for a proceeding one or has reached all it owes. */
  ghost predicate NotStalled(t: Tracked) {
    t.p.mailbox == [] ==> !AllAhead(t.p) || (!t.p.catchingUp && t.owed <= t.p.checkpoint)
  }

  lemma StalledIffStuck(store: seq<Commit>, t: Tracked)
    requires Shape(t.p) && LiveOrStuck(store, t)
    ensures !NotStalled(t) <==> t.p.mailbox == [] && Stuck(store, t.p) && AllAhead(t.p)
  {
    if t.p.mailbox == [] && Live(t.p, t.owed) {
      NothingLeftToDo(t.p, t.owed);
    }
  }

  /** No stall, exactly: in every run, whenever a processor's mailbox is empty, either some proceeding processor
      is known not to be ahead, or it is not catching up and has reached every commit it was ever sent and the
      store's head as it was when the processor last started, or the commit that comes next was dropped from a
      catch-up and it is stuck. Nothing is assumed about what is heard of proceeding processors. */
  lemma StalledExactlyWhenStuck(config: map<nat, Setup>, store: seq<Commit>, steps: seq<Step>, pageSize: nat, id: nat)
    requires SetupOk(config, store) && 0 < pageSize && id in config && KeepsMail(steps, id)
    ensures var g := Execute(config, store, steps, pageSize);
      && id in g.nodes
      && (!NotStalled(g.nodes[id]) <==>
          g.nodes[id].p.mailbox == [] && Stuck(g.store, g.nodes[id].p) && AllAhead(g.nodes[id].p))
  {
    RunLiveOrStuck(config, store, steps, pageSize, id);
    var g := Execute(config, store, steps, pageSize);
    assert TrackedOk(g.store, g.nodes[id]);
    StalledIffStuck(g.store, g.nodes[id]);
  }

  // ------------------------------------------------------------------ runs that drop no last copy

  ghost predicate DropsAt(g: Graph, step: Step, id: nat) {
    step.At? && step.id == id && id in g.nodes && step.action.HandleNext? && DropsLastCopy(g.nodes[id].p)
  }

  /** Processor id never drops the last copy of a commit its catch-up needs. */
  ghost predicate ReliableRun(config: map<nat, Setup>, store: seq<Commit>, steps: seq<Step>, pageSize: nat, id: nat)
    requires SetupOk(config, store) && 0 < pageSize
    decreases |steps|
  {
    steps == [] ||
    (&& ReliableRun(config, store, steps[..|steps| - 1], pageSize, id)
     && !Loses(steps[|steps| - 1], id)
     && !DropsAt(Execute(config, store, steps[..|steps| - 1], pageSize), steps[|steps| - 1], id))
  }

  ghost predicate Flowing(t: Tracked) {
    ExhaustedIsAhead(t.p) && Live(t.p, t.owed)
  }

  lemma ActFlows(t: Tracked, action: Action, store: seq<Commit>, pageSize: nat)
    requires TrackedOk(store, t) && Flowing(t) && 0 < pageSize
    requires !action.Lose? && (action.HandleNext? ==> !DropsLastCopy(t.p))
    ensures Flowing(Act(t, action, store, pageSize))
  {
    match action
    case Enqueue(m) =>
      assert AllAhead(Act(t, action, store, pageSize).p) == AllAhead(t.p);
      EnqueueLive(t, m, store, pageSize);
    case HandleNext(fate) =>
      if t.p.mailbox != [] {
        var r := Handle(t.p, fate, store, pageSize);
        if r.Running? {
          HandleExhausted(t.p, fate, store, pageSize);
          HandleLive(t.p, fate, t.owed, store, pageSize);
        } else {
          RestartLive(Progressed(t, r.p), store);
        }
      }
    case Restart => RestartLive(t, store);
  }

  lemma StepFlows(g: Graph, step: Step, pageSize: nat, id: nat)
    requires GraphOk(g) && 0 < pageSize && id in g.nodes && Flowing(g.nodes[id])
    requires !Loses(step, id) && !DropsAt(g, step, id)
    ensures id in Apply(g, step, pageSize).nodes && Flowing(Apply(g, step, pageSize).nodes[id])
  {
    assert TrackedOk(g.store, g.nodes[id]);
    if Possible(g, step) && step.At? && step.id == id {
      ActFlows(g.nodes[id], step.action, g.store, pageSize);
    }
  }

  lemma {:induction false} RunFlows(config: map<nat, Setup>, store: seq<Commit>, steps: seq<Step>,
    pageSize: nat, id: nat)
    requires SetupOk(config, store) && 0 < pageSize && id in config
    requires ReliableRun(config, store, steps, pageSize, id)
    ensures Flowing(Execute(config, store, steps, pageSize).nodes[id])
    ensures KeepsMail(steps, id)
    decreases |steps|
  {
    if steps != [] {
      var n := |steps| - 1;
      RunFlows(config, store, steps[..n], pageSize, id);
      StepFlows(Execute(config, store, steps[..n], pageSize), steps[n], pageSize, id);
    }
  }

  lemma FlowingIsNotStalled(g: Graph, id: nat)
    requires GraphOk(g) && id in g.nodes && Flowing(g.nodes[id])
    ensures NotStalled(g.nodes[id])
  {
    assert TrackedOk(g.store, g.nodes[id]);
    if g.nodes[id].p.mailbox == [] {
      NothingLeftToDo(g.nodes[id].p, g.nodes[id].owed);
    }
  }

  /** No stall: a run in which the processor never drops a last copy does not stall it, also when it hears that
      proceeding processors went back. */
  lemma NoStallInAnyRun(config: map<nat, Setup>, store: seq<Commit>, steps: seq<Step>, pageSize: nat, id: nat)
    requires SetupOk(config, store) && 0 < pageSize && id in config
    requires ReliableRun(config, store, steps, pageSize, id)
    ensures id in Execute(config, store, steps, pageSize).nodes
    ensures NotStalled(Execute(config, store, steps, pageSize).nodes[id])
  {
    RunFlows(config, store, steps, pageSize, id);
    FlowingIsNotStalled(Execute(config, store, steps, pageSize), id);
  }

  // ------------------------------------------------------------------ runs that hear of no regress

  /** While catch-up commits are on their way, every proceeding processor is known to be ahead. */
  ghost predicate Unblocked(p: Proc) {
    p.catchingUp && !HeadFollows(p) ==> AllAhead(p)
  }

  /** The message about to be handled does not take back what is known of a proceeding processor. */
  ghost predicate NoRegress(p: Proc) {
    p.mailbox != [] && p.mailbox[0].CurrentCheckpoint? && p.mailbox[0].source in p.known ==>
      p.known[p.mailbox[0].source] <= p.mailbox[0].checkpoint
  }

  lemma UnblockedDropsNothing(p: Proc)
    requires Unblocked(p)
    ensures !DropsLastCopy(p)
  {
  }

  lemma TryAdvanceUnblocked(p: Proc, store: seq<Commit>, pageSize: nat)
    requires IsStore(store) && Shape(p) && p.catchingUp
    requires AllAhead(p) || HeadFollows(p)
    ensures Unblocked(CatchUpTryAdvance(p, store, pageSize))
  {
    assert HeadFollows(p) && !AllAhead(p) ==> CatchUpTryAdvance(p, store, pageSize) == p;
  }

  lemma CatchUpStartUnblocked(p: Proc, store: seq<Commit>, pageSize: nat)
    requires ProcOk(store, p) && 0 < pageSize
    ensures Unblocked(CatchUpStart(p, store, pageSize))
  {
    StartOk(store, p.checkpoint, pageSize);
    var q := p.(catchingUp := true, stream := Some(Start(p.checkpoint, store, pageSize)));
    if q.stream.value.queue != [] {
      TryAdvanceUnblocked(q, store, pageSize);
    }
  }

  lemma ContinueUnblocked(p: Proc, store: seq<Commit>, pageSize: nat)
    requires IsStore(store) && Shape(p) && Unblocked(p)
    ensures Unblocked(Continue(p, store, pageSize))
  {
    if p.catchingUp {
      TryAdvanceUnblocked(p, store, pageSize);
    }
  }

  lemma AcceptUnblocked(p: Proc, persist: bool, owed: int, store: seq<Commit>, pageSize: nat)
    requires ProcOk(store, p) && Live(p, owed) && Accepts(p) && 0 < pageSize
    ensures Unblocked(Handle(p, Completes(persist), store, pageSize).p)
  {
    var note := p.mailbox[0].note;
    RestOk(p, store);
    HandleChanges(p, Completes(persist), store, pageSize);
    var q := Advance(Rest(p), note.commit, Completes(persist)).p;
    if Streaming(p) {
      InFlightToken(store, p.mailbox, note, p.checkpoint, p.stream.value.queue[0].previous);
      TryAdvanceUnblocked(q, store, pageSize);
    }
  }

  lemma OrderedUnblocked(p: Proc, fate: Fate, store: seq<Commit>, pageSize: nat)
    requires ProcOk(store, p) && Unblocked(p) && p.mailbox != [] && p.mailbox[0].Ordered?
    requires !Accepts(p) && 0 < pageSize
    ensures Unblocked(Handle(p, fate, store, pageSize).p)
  {
    var r := Rest(p);
    RestOk(p, store);
    assert AllAhead(r) == AllAhead(p);
    if AllAhead(p) && p.checkpoint < p.mailbox[0].note.previous && !p.catchingUp {
      CatchUpStartUnblocked(r, store, pageSize);
      ContinueUnblocked(CatchUpStart(r, store, pageSize), store, pageSize);
    }
  }

  lemma CurrentCheckpointUnblocked(p: Proc, fate: Fate, store: seq<Commit>, pageSize: nat)
    requires ProcOk(store, p) && Unblocked(p) && NoRegress(p) && p.mailbox != [] && p.mailbox[0].CurrentCheckpoint?
    requires 0 < pageSize
    ensures Unblocked(Handle(p, fate, store, pageSize).p)
  {
    var r := Rest(p);
    RestOk(p, store);
    var m := p.mailbox[0];
    assert AllAhead(r) == AllAhead(p);
    if m.source in r.known && r.known[m.source] != m.checkpoint {
      var q := r.(known := r.known[m.source := m.checkpoint]);
      assert AllAhead(r) ==> AllAhead(q);
      if q.catchingUp {
        TryAdvanceUnblocked(q, store, pageSize);
      } else if AllAhead(q) {
        CatchUpStartUnblocked(q, store, pageSize);
      }
    }
  }

  lemma HandleUnblocked(p: Proc, fate: Fate, owed: int, store: seq<Commit>, pageSize: nat)
    requires ProcOk(store, p) && Live(p, owed) && Unblocked(p) && NoRegress(p) && 0 < pageSize
    requires p.mailbox != [] && Handle(p, fate, store, pageSize).Running?
    ensures Unblocked(Handle(p, fate, store, pageSize).p)
  {
    HandleChanges(p, fate, store, pageSize);
    RestOk(p, store);
    match p.mailbox[0]
    case Ordered(_, _) =>
      if Accepts(p) {
        AcceptUnblocked(p, fate.persist, owed, store, pageSize);
      } else {
        OrderedUnblocked(p, fate, store, pageSize);
      }
    case CurrentCheckpoint(_, _) => CurrentCheckpointUnblocked(p, fate, store, pageSize);
    case CatchUp => if !p.catchingUp { CatchUpStartUnblocked(Rest(p), store, pageSize); }
    case PersistCheckpoint =>
    case PublishCheckpoint =>
  }

  ghost predicate RegressFreeRun(config: map<nat, Setup>, store: seq<Commit>, steps: seq<Step>, pageSize: nat, id: nat)
    requires SetupOk(config, store) && 0 < pageSize
    decreases |steps|
  {
    steps == [] ||
    (&& RegressFreeRun(config, store, steps[..|steps| - 1], pageSize, id)
     && !Loses(steps[|steps| - 1], id)
     && HearsNoRegress(Execute(config, store, steps[..|steps| - 1], pageSize), steps[|steps| - 1], id))
  }

  ghost predicate HearsNoRegress(g: Graph, step: Step, id: nat) {
    step.At? && step.id == id && id in g.nodes && step.action.HandleNext? ==> NoRegress(g.nodes[id].p)
  }

  lemma ActUnblocked(t: Tracked, action: Action, store: seq<Commit>, pageSize: nat)
    requires TrackedOk(store, t) && Flowing(t) && Unblocked(t.p) && 0 < pageSize
    requires !action.Lose? && (action.HandleNext? ==> NoRegress(t.p))
    ensures Unblocked(Act(t, action, store, pageSize).p)
  {
    match action
    case Enqueue(m) => assert AllAhead(Act(t, action, store, pageSize).p) == AllAhead(t.p);
    case HandleNext(fate) =>
      if t.p.mailbox != [] && Handle(t.p, fate, store, pageSize).Running? {
        HandleUnblocked(t.p, fate, t.owed, store, pageSize);
      }
    case Restart =>
  }

  /** Where nothing known of a proceeding processor is ever taken back, no last copy is dropped. */
  lemma {:induction false} RegressFreeIsReliable(config: map<nat, Setup>, store: seq<Commit>, steps: seq<Step>,
    pageSize: nat, id: nat)
    requires SetupOk(config, store) && 0 < pageSize && id in config
    requires RegressFreeRun(config, store, steps, pageSize, id)
    ensures ReliableRun(config, store, steps, pageSize, id)
    ensures Unblocked(Execute(config, store, steps, pageSize).nodes[id].p)
    decreases |steps|
  {
    if steps != [] {
      var n := |steps| - 1;
      RegressFreeIsReliable(config, store, steps[..n], pageSize, id);
      RunFlows(config, store, steps[..n], pageSize, id);
      StepUnblocked(Execute(config, store, steps[..n], pageSize), steps[n], pageSize, id);
    }
  }

  lemma StepUnblocked(g: Graph, step: Step, pageSize: nat, id: nat)
    requires GraphOk(g) && 0 < pageSize && id in g.nodes && Flowing(g.nodes[id]) && Unblocked(g.nodes[id].p)
    requires !Loses(step, id) && HearsNoRegress(g, step, id)
    ensures !DropsAt(g, step, id)
    ensures id in Apply(g, step, pageSize).nodes && Unblocked(Apply(g, step, pageSize).nodes[id].p)
  {
    assert TrackedOk(g.store, g.nodes[id]);
    UnblockedDropsNothing(g.nodes[id].p);
    if Possible(g, step) && step.At? && step.id == id {
      ActUnblocked(g.nodes[id], step.action, g.store, pageSize);
    }
  }
}
