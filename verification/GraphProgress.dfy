/** A graph of sequenced processors that has come to rest is at the store's head, so it cannot deadlock. */
module GraphProgress {
  import opened CommitStore
  import opened StreamProcessor
  import opened ProcessorGraph
  import opened NoStall
  import opened NoStallRuns
  import opened Announcements
  import Sequencing

  /** "Proceeded by" goes strictly down a ranking. */
  ghost predicate Acyclic(config: map<nat, Setup>, rank: nat -> nat) {
    forall f, p :: f in config && p in config[f].proceeding ==> rank(p) < rank(f)
  }

  /** What f knows of p is p's checkpoint, or the last one p announced. */
  ghost predicate UpToDate(g: Graph, f: nat, p: nat)
    requires f in g.nodes && p in g.nodes[f].p.known
  {
    p in g.nodes &&
    (|| g.nodes[f].p.known[p] == g.nodes[p].p.checkpoint
     || g.nodes[f].p.known[p] == LastAnnounced(g.nodes[p].p))
  }

  /** Nothing is left to handle, the last announcements have arrived, and all have been sent the head commit. */
  ghost predicate AtRest(g: Graph) {
    && (forall id :: id in g.nodes ==> g.nodes[id].p.mailbox == [])
    && (forall f, p :: f in g.nodes && p in g.nodes[f].p.known ==> UpToDate(g, f, p))
    && (forall id :: id in g.nodes ==> Head(g.store) <= g.nodes[id].owed)
  }

  lemma {:induction false} KnownStays(config: map<nat, Setup>, store: seq<Commit>, steps: seq<Step>,
    pageSize: nat, id: nat)
    requires SetupOk(config, store) && 0 < pageSize && id in config
    ensures id in Execute(config, store, steps, pageSize).nodes
    ensures Execute(config, store, steps, pageSize).nodes[id].p.known.Keys == config[id].proceeding
    decreases |steps|
  {
    if steps != [] {
      var n := |steps| - 1;
      KnownStays(config, store, steps[..n], pageSize, id);
      StepKnown(Execute(config, store, steps[..n], pageSize), steps[n], pageSize, id);
    }
  }

  lemma StepKnown(g: Graph, step: Step, pageSize: nat, id: nat)
    requires GraphOk(g) && 0 < pageSize && id in g.nodes
    ensures id in Apply(g, step, pageSize).nodes
    ensures Apply(g, step, pageSize).nodes[id].p.known.Keys == g.nodes[id].p.known.Keys
  {
    if Possible(g, step) && step.At? && step.id == id {
      Sequencing.ActKnown(g.nodes[id], step.action, g.store, pageSize, 0);
    }
  }

  /** At the head, and the followers can know it. */
  ghost predicate HeadAnnounced(g: Graph, id: nat) {
    && id in g.nodes && g.nodes[id].p.checkpoint == Head(g.store)
    && !g.nodes[id].p.catchingUp && LastAnnounced(g.nodes[id].p) == Head(g.store)
  }

  /** A processor behind the head whose proceeding processors have announced the head is not blocked. */
  lemma NotBlocked(g: Graph, id: nat)
    requires AtRest(g) && id in g.nodes && g.nodes[id].p.checkpoint < Head(g.store)
    requires forall p :: p in g.nodes[id].p.known ==> HeadAnnounced(g, p)
    ensures AllAhead(g.nodes[id].p)
  {
    forall p | p in g.nodes[id].p.known ensures g.nodes[id].p.checkpoint < g.nodes[id].p.known[p] {
      assert UpToDate(g, id, p) && HeadAnnounced(g, p);
    }
  }

  /** A processor with an empty mailbox that is at the head has ended its catch-up: nothing follows the head. */
  lemma AtHeadIsIdle(store: seq<Commit>, p: Proc, owed: int)
    requires ProcOk(store, p) && Live(p, owed) && p.mailbox == []
    ensures p.checkpoint <= Head(store)
    ensures p.checkpoint == Head(store) ==> !p.catchingUp
  {
    AtMostHead(store, p.checkpoint);
    if p.checkpoint == Head(store) && p.catchingUp {
      assert HeadFollows(p);
      var o := p.stream.value.queue[0];
      assert Truthful(store, o);
      TokenIsCheckpoint(store, o.commit);
    }
  }

  ghost predicate Ranked(g: Graph, rank: nat -> nat) {
    forall f, p :: f in g.nodes && p in g.nodes[f].p.known ==> p in g.nodes && rank(p) < rank(f)
  }

  ghost predicate Healthy(g: Graph) {
    forall f :: f in g.nodes ==> Live(g.nodes[f].p, g.nodes[f].owed) && Announced(g.nodes[f].p)
  }

  lemma {:induction false} AtHead(g: Graph, rank: nat -> nat, id: nat)
    requires GraphOk(g) && AtRest(g) && id in g.nodes && Ranked(g, rank) && Healthy(g)
    ensures HeadAnnounced(g, id)
    decreases rank(id)
  {
    var t := g.nodes[id];
    assert TrackedOk(g.store, t) && Live(t.p, t.owed) && Announced(t.p);
    AtHeadIsIdle(g.store, t.p, t.owed);
    if t.p.checkpoint < Head(g.store) {
      forall p | p in t.p.known ensures HeadAnnounced(g, p) {
        AtHead(g, rank, p);
      }
      NotBlocked(g, id);
      NothingLeftToDo(t.p, t.owed);
    }
  }

  ghost predicate NoneStuck(g: Graph) {
    forall id :: id in g.nodes ==> !Stuck(g.store, g.nodes[id].p)
  }

  ghost predicate AllAtHead(g: Graph) {
    forall id :: id in g.nodes ==> HeadAnnounced(g, id)
  }

  lemma RunIsRanked(config: map<nat, Setup>, store: seq<Commit>, steps: seq<Step>, pageSize: nat, rank: nat -> nat)
    requires SetupOk(config, store) && 0 < pageSize && Acyclic(config, rank)
    ensures Ranked(Execute(config, store, steps, pageSize), rank)
  {
    var g := Execute(config, store, steps, pageSize);
    forall f | f in g.nodes ensures g.nodes[f].p.known.Keys == config[f].proceeding {
      KnownStays(config, store, steps, pageSize, f);
    }
  }

  lemma AtRestAtHead(g: Graph, rank: nat -> nat)
    requires GraphOk(g) && AtRest(g) && Ranked(g, rank)
    requires forall f :: f in g.nodes ==> LiveOrStuck(g.store, g.nodes[f]) && Announced(g.nodes[f].p)
    ensures AllAtHead(g) <==> NoneStuck(g)
  {
    if NoneStuck(g) {
      forall f | f in g.nodes ensures Live(g.nodes[f].p, g.nodes[f].owed) {
        assert LiveOrStuck(g.store, g.nodes[f]) && !Stuck(g.store, g.nodes[f].p);
      }
      forall id | id in g.nodes ensures HeadAnnounced(g, id) {
        AtHead(g, rank, id);
      }
    }
    if AllAtHead(g) {
      forall id | id in g.nodes ensures !Stuck(g.store, g.nodes[id].p) {
        assert HeadAnnounced(g, id) && TrackedOk(g.store, g.nodes[id]);
      }
    }
  }

  /** Graph progress, exactly: for every acyclic graph and every run, once the graph is at rest, all processors
      are at the store's head, have ended their catch-up and have announced it, if and only if none is stuck
      with a commit dropped from its catch-up. Proceeding processors may restart lower, and be heard to. It is
      enough that announcements have arrived: what a processor passes silently while it catches up cannot block
      its followers for good. */
  lemma GraphReachesHeadUnlessStuck(config: map<nat, Setup>, store: seq<Commit>, steps: seq<Step>,
    pageSize: nat, rank: nat -> nat)
    requires SetupOk(config, store) && 0 < pageSize && Acyclic(config, rank)
    requires forall id :: id in config ==> KeepsMail(steps, id)
    requires AtRest(Execute(config, store, steps, pageSize))
    ensures var g := Execute(config, store, steps, pageSize); AllAtHead(g) <==> NoneStuck(g)
  {
    var g := Execute(config, store, steps, pageSize);
    RunIsRanked(config, store, steps, pageSize, rank);
    forall f | f in g.nodes ensures LiveOrStuck(g.store, g.nodes[f]) && Announced(g.nodes[f].p) {
      RunLiveOrStuck(config, store, steps, pageSize, f);
      RunAnnounces(config, store, steps, pageSize, f);
    }
    AtRestAtHead(g, rank);
  }

  /** So a graph whose processors drop no last copy of a commit they need for catching up cannot deadlock. */
  lemma GraphReachesHead(config: map<nat, Setup>, store: seq<Commit>, steps: seq<Step>, pageSize: nat, rank: nat -> nat)
    requires SetupOk(config, store) && 0 < pageSize && Acyclic(config, rank)
    requires forall id :: id in config ==> ReliableRun(config, store, steps, pageSize, id)
    requires AtRest(Execute(config, store, steps, pageSize))
    ensures AllAtHead(Execute(config, store, steps, pageSize))
  {
    var g := Execute(config, store, steps, pageSize);
    RunIsRanked(config, store, steps, pageSize, rank);
    forall f | f in g.nodes ensures Live(g.nodes[f].p, g.nodes[f].owed) && Announced(g.nodes[f].p) {
      RunFlows(config, store, steps, pageSize, f);
      RunAnnounces(config, store, steps, pageSize, f);
    }
    forall id | id in g.nodes ensures HeadAnnounced(g, id) {
      AtHead(g, rank, id);
    }
  }
}
