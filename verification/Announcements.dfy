/** What a processor's followers get to hear: checkpoints are not announced during a catch-up, but nothing stays
    unannounced once it is over. */
module Announcements {
  import opened Prelude
  import opened CommitStore
  import opened OrderedEventStreamer
  import opened StreamProcessor
  import opened ProcessorGraph
  import opened NoStallRuns

  function LastAnnounced(p: Proc): int {
    if p.published == [] then 0 else p.published[|p.published| - 1]
  }

  /** Outside a catch-up, the current checkpoint was the last one announced or is about to be announced. */
  ghost predicate Announced(p: Proc) {
    !p.catchingUp ==> LastAnnounced(p) == p.checkpoint || PublishCheckpoint in p.mailbox
  }

  lemma TryAdvanceAnnounces(p: Proc, store: seq<Commit>, pageSize: nat)
    requires IsStore(store) && Shape(p) && p.catchingUp
    ensures Announced(CatchUpTryAdvance(p, store, pageSize))
  {
    assert PublishCheckpoint in CatchUpFinish(p).mailbox;
  }

  lemma ContinueAnnounces(p: Proc, store: seq<Commit>, pageSize: nat)
    requires IsStore(store) && Shape(p) && Announced(p)
    ensures Announced(Continue(p, store, pageSize))
  {
    if p.catchingUp {
      TryAdvanceAnnounces(p, store, pageSize);
    }
  }

  lemma StartAnnounces(p: Proc, store: seq<Commit>, pageSize: nat)
    requires IsStore(store)
    ensures Announced(CatchUpStart(p, store, pageSize))
    ensures Announced(Continue(CatchUpStart(p, store, pageSize), store, pageSize))
  {
    TryAdvanceAnnounces(p.(catchingUp := true, stream := Some(Start(p.checkpoint, store, pageSize))), store, pageSize);
    ContinueAnnounces(CatchUpStart(p, store, pageSize), store, pageSize);
  }

  lemma RestAnnounced(p: Proc)
    requires p.mailbox != [] && p.mailbox[0] != PublishCheckpoint && Announced(p)
    ensures Announced(Rest(p))
  {
    assert p.mailbox == [p.mailbox[0]] + p.mailbox[1..];
  }

  lemma OnOrderedAnnounces(p: Proc, note: OrderedCommit, fate: Fate, store: seq<Commit>, pageSize: nat)
    requires IsStore(store) && Shape(p) && Announced(p) && OnOrdered(p, note, fate, store, pageSize).Running?
    ensures Announced(OnOrdered(p, note, fate, store, pageSize).p)
  {
    StartAnnounces(p, store, pageSize);
    if AllAhead(p) && p.checkpoint == note.previous {
      ContinueAnnounces(Advance(p, note.commit, fate).p, store, pageSize);
    }
  }

  lemma OnCurrentCheckpointAnnounces(p: Proc, source: nat, c: int, store: seq<Commit>, pageSize: nat)
    requires IsStore(store) && Shape(p) && Announced(p)
    ensures Announced(OnCurrentCheckpoint(p, source, c, store, pageSize))
  {
    if source in p.known {
      var q := p.(known := p.known[source := c]);
      StartAnnounces(q, store, pageSize);
      ContinueAnnounces(q, store, pageSize);
    }
  }

  lemma HandleAnnounces(p: Proc, fate: Fate, store: seq<Commit>, pageSize: nat)
    requires IsStore(store) && Shape(p) && p.mailbox != [] && Announced(p)
    requires Handle(p, fate, store, pageSize).Running?
    ensures Announced(Handle(p, fate, store, pageSize).p)
  {
    if p.mailbox[0] != PublishCheckpoint {
      RestAnnounced(p);
    }
    match p.mailbox[0]
    case Ordered(note, _) => OnOrderedAnnounces(Rest(p), note, fate, store, pageSize);
    case CurrentCheckpoint(source, c) => OnCurrentCheckpointAnnounces(Rest(p), source, c, store, pageSize);
    case CatchUp => StartAnnounces(Rest(p), store, pageSize);
    case _ =>
  }

  /** The message that ends a catch-up leaves the checkpoint saved and its announcement on the way. */
  lemma CatchUpEndsSaved(p: Proc, fate: Fate, store: seq<Commit>, pageSize: nat)
    requires IsStore(store) && Shape(p) && p.mailbox != [] && p.catchingUp
    requires Handle(p, fate, store, pageSize).Running? && !Handle(p, fate, store, pageSize).p.catchingUp
    ensures var q := Handle(p, fate, store, pageSize).p;
      Restarted(q).checkpoint == q.checkpoint && q.mailbox != [] && q.mailbox[|q.mailbox| - 1] == PublishCheckpoint
  {
    if Accepts(p) {
      HandleChanges(p, fate, store, pageSize);
    }
  }

  lemma ActAnnounces(t: Tracked, action: Action, store: seq<Commit>, pageSize: nat)
    requires IsStore(store) && Shape(t.p) && Announced(t.p) && !action.Lose?
    ensures Announced(Act(t, action, store, pageSize).p)
  {
    match action
    case HandleNext(fate) =>
      if t.p.mailbox != [] && Handle(t.p, fate, store, pageSize).Running? {
        HandleAnnounces(t.p, fate, store, pageSize);
      }
    case _ =>
  }

  lemma StepAnnounces(g: Graph, step: Step, pageSize: nat, id: nat)
    requires GraphOk(g) && 0 < pageSize && id in g.nodes && Announced(g.nodes[id].p) && !Loses(step, id)
    ensures id in Apply(g, step, pageSize).nodes && Announced(Apply(g, step, pageSize).nodes[id].p)
  {
    assert TrackedOk(g.store, g.nodes[id]);
    if Possible(g, step) && step.At? && step.id == id {
      ActAnnounces(g.nodes[id], step.action, g.store, pageSize);
    }
  }

  /** In every run that takes nothing out of its mailbox unhandled, when a processor is not catching up and its
      mailbox is empty, the last checkpoint it announced is its current one. */
  lemma {:induction false} RunAnnounces(config: map<nat, Setup>, store: seq<Commit>, steps: seq<Step>,
    pageSize: nat, id: nat)
    requires SetupOk(config, store) && 0 < pageSize && id in config && KeepsMail(steps, id)
    ensures Announced(Execute(config, store, steps, pageSize).nodes[id].p)
    decreases |steps|
  {
    if steps != [] {
      var n := |steps| - 1;
      RunAnnounces(config, store, steps[..n], pageSize, id);
      StepAnnounces(Execute(config, store, steps[..n], pageSize), steps[n], pageSize, id);
    }
  }
}
