/** The two halves of the protocol fit together: what a node's stream actor publishes is what the stream
    processors' runs take as a live commit. */
module Delivery {
  import opened CommitStore
  import opened StreamProcessor
  import opened ProcessorGraph
  import LocalOrdering

  /** Whatever a node has published in any run may be delivered to any processor, at once or later, any number of
      times: it is a possible step of every graph over the same store or one that has grown since. */
  lemma PublishedMayBeDelivered(store: seq<Commit>, capacity: nat, steps: seq<LocalOrdering.Step>, i: nat,
    g: Graph, id: nat)
    requires IsStore(store) && id in g.nodes
    requires var sys := LocalOrdering.Execute(store, capacity, steps);
      Grows(sys.store, g.store) && i < |sys.node.published|
    ensures var sys := LocalOrdering.Execute(store, capacity, steps);
      Possible(g, At(id, Enqueue(Ordered(sys.node.published[i], false))))
  {
    var sys := LocalOrdering.Execute(store, capacity, steps);
    LocalOrdering.PublishedFromCheckpoints(store, capacity, steps, i);
    TruthfulGrows(sys.store, g.store, sys.node.published[i]);
  }
}
