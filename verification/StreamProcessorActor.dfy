/** The stream processor as the actor it is: fields that its message handlers update step by step. Each
    handler is proved to compute the function of StreamProcessor.dfy of the same name. The store is passed in
    as it is when the handler runs; fate says how ProcessAsync ends. */
module StreamProcessorActor {
  import opened Prelude
  import opened CommitStore
  import opened OrderedEventStreamer
  import P = StreamProcessor

  class Processor {
    const pageSize: nat
    var checkpoint: int
    var isCatchingUp: bool
    var catchupCommitStream: EventStreamer?
    var proceedingStreamProcessors: map<nat, int>
    var mailbox: seq<P.Msg>
    var savedCheckpoint: int
    var eventStream: seq<int>
    var applied: seq<Commit>

    ghost predicate Valid()
      reads this, catchupCommitStream
    {
      && isCatchingUp == (catchupCommitStream != null)
      && (catchupCommitStream != null ==>
          && catchupCommitStream.pageSize == pageSize
          && catchupCommitStream.isFinished == (catchupCommitStream.queue == []))
    }

    ghost function State(): P.Proc
      reads this, catchupCommitStream
    {
      P.Proc(checkpoint, isCatchingUp,
        if catchupCommitStream == null then None else Some(catchupCommitStream.State()),
        proceedingStreamProcessors, mailbox, savedCheckpoint, eventStream, applied)
    }

    /** Construction with its ProceededBy calls, and PreStart. `persisted` is the saved row, if there is one;
        what earlier incarnations announced and applied is carried over. */
    constructor (persisted: Option<int>, proceeding: set<nat>, pageSize: nat, announced: seq<int>,
      appliedBefore: seq<Commit>)
      ensures Valid() && this.pageSize == pageSize && catchupCommitStream == null
      ensures persisted.None? && announced == [] && appliedBefore == [] ==> State() == P.Created(0, proceeding)
      ensures forall p: P.Proc ::
        (&& persisted == Some(p.saved) && proceeding == p.known.Keys
         && announced == p.published && appliedBefore == p.applied)
        ==> State() == P.Restarted(p)
    {
      this.pageSize := pageSize;
      isCatchingUp := false;
      catchupCommitStream := null;
      proceedingStreamProcessors := map t | t in proceeding :: 0;
      var initial := if persisted.Some? then persisted.value else 0;
      checkpoint := initial;
      eventStream := announced + [initial];
      savedCheckpoint := initial;
      mailbox := [P.CatchUp];
      applied := appliedBefore;
    }

    /** ProceededBy: registers a proceeding processor that is not registered yet. */
    method ProceededBy(other: nat)
      modifies this`proceedingStreamProcessors
      ensures other in proceedingStreamProcessors
      ensures proceedingStreamProcessors
        == if other in old(proceedingStreamProcessors) then old(proceedingStreamProcessors)
           else old(proceedingStreamProcessors)[other := 0]
    {
      if other !in proceedingStreamProcessors {
        proceedingStreamProcessors := proceedingStreamProcessors[other := 0];
      }
    }

    predicate AllProceedingStreamProcessorsAhead()
      reads this
    {
      forall t :: t in proceedingStreamProcessors ==> checkpoint < proceedingStreamProcessors[t]
    }

    method SetCheckpoint(c: int)
      requires Valid()
      modifies this`checkpoint, this`eventStream
      ensures Valid() && State() == P.SetCheckpoint(old(State()), c)
    {
      checkpoint := c;
      if !isCatchingUp {
        eventStream := eventStream + [checkpoint];
      }
    }

    method PersistCheckpoint()
      modifies this`savedCheckpoint
      ensures savedCheckpoint == checkpoint
    {
      savedCheckpoint := checkpoint;
    }

    method TellSelf(m: P.Msg)
      modifies this`mailbox
      ensures mailbox == old(mailbox) + [m]
    {
      mailbox := mailbox + [m];
    }

    method CatchUpFinish()
      requires Valid()
      modifies this
      ensures Valid() && catchupCommitStream == null
      ensures State() == P.CatchUpFinish(old(State()))
    {
      isCatchingUp := false;
      catchupCommitStream := null;
      PersistCheckpoint();
      TellSelf(P.PublishCheckpoint);
    }

    method CatchUpTryAdvance(store: seq<Commit>)
      requires Valid() && isCatchingUp && IsStore(store)
      modifies this, catchupCommitStream
      ensures Valid() && (catchupCommitStream == old(catchupCommitStream) || catchupCommitStream == null)
      ensures State() == P.CatchUpTryAdvance(old(State()), store, pageSize)
    {
      if catchupCommitStream.isFinished {
        CatchUpFinish();
        return;
      }
      if !AllProceedingStreamProcessorsAhead() {
        return;
      }
      var nextCommit := catchupCommitStream.Peek(store);
      assert nextCommit.Some?;  // the queue is not empty, as the stream is not finished
      if nextCommit.value.previous != checkpoint {
        return;
      }
      var msg := catchupCommitStream.Next(store);
      TellSelf(P.Ordered(msg, true));
    }

    method CatchUpStart(store: seq<Commit>)
      requires Valid() && !isCatchingUp && IsStore(store)
      modifies this
      ensures Valid() && (catchupCommitStream == null || fresh(catchupCommitStream))
      ensures State() == P.CatchUpStart(old(State()), store, pageSize)
    {
      isCatchingUp := true;
      catchupCommitStream := new EventStreamer(checkpoint, store, pageSize);
      CatchUpTryAdvance(store);
    }

    /** Processes the commit and advances to it; a failure saves the checkpoint and is thrown on. */
    method Advance(msg: OrderedCommit, fate: P.Fate) returns (crashed: bool)
      requires Valid()
      modifies this`checkpoint, this`eventStream, this`savedCheckpoint, this`applied
      ensures Valid()
      ensures (if crashed then P.Crashed(State()) else P.Running(State())) == P.Advance(old(State()), msg.commit, fate)
    {
      crashed := !fate.Completes?;
      match fate
      case Completes(persist) =>
        applied := applied + [msg.commit];
        SetCheckpoint(msg.commit.token);
        if persist {
          PersistCheckpoint();
        }
      case Throws(committed) =>
        if committed {
          applied := applied + [msg.commit];
        }
        PersistCheckpoint();
      case ThrowsAhead =>
        SetCheckpoint(msg.commit.token);
        PersistCheckpoint();
      case Dies(committed, announced) =>
        if committed {
          applied := applied + [msg.commit];
        }
        if announced {
          SetCheckpoint(msg.commit.token);
        }
    }

    method ReceivedOrderedCommitNotification(msg: OrderedCommit, fate: P.Fate, store: seq<Commit>)
      returns (crashed: bool)
      requires Valid() && IsStore(store)
      modifies this, catchupCommitStream
      ensures Valid()
      ensures (if crashed then P.Crashed(State()) else P.Running(State()))
        == P.OnOrdered(old(State()), msg, fate, store, pageSize)
    {
      crashed := false;
      if !AllProceedingStreamProcessorsAhead() {
        return;
      }
      if checkpoint > msg.previous {
        return;
      }
      if checkpoint == msg.previous {
        crashed := Advance(msg, fate);
        if crashed {
          return;
        }
      } else {
        if isCatchingUp {
          return;
        }
        CatchUpStart(store);
      }
      if isCatchingUp {
        CatchUpTryAdvance(store);
      }
    }

    method ReceivedCurrentCheckpoint(source: nat, c: int, store: seq<Commit>)
      requires Valid() && IsStore(store)
      modifies this, catchupCommitStream
      ensures Valid()
      ensures State() == P.OnCurrentCheckpoint(old(State()), source, c, store, pageSize)
    {
      if source in proceedingStreamProcessors {
        if proceedingStreamProcessors[source] == c {
          return;
        }
        proceedingStreamProcessors := proceedingStreamProcessors[source := c];
        if isCatchingUp {
          CatchUpTryAdvance(store);
        } else if AllProceedingStreamProcessorsAhead() {
          CatchUpStart(store);
        }
      }
    }

    method ReceivedCatchUp(store: seq<Commit>)
      requires Valid() && IsStore(store)
      modifies this
      ensures Valid() && State() == P.OnCatchUp(old(State()), store, pageSize)
    {
      if !isCatchingUp {
        CatchUpStart(store);
      }
    }

    /** The actor's loop body: takes the first message and dispatches it to its handler. */
    method Receive(fate: P.Fate, store: seq<Commit>) returns (crashed: bool)
      requires Valid() && IsStore(store) && mailbox != []
      modifies this, catchupCommitStream
      ensures Valid()
      ensures (if crashed then P.Crashed(State()) else P.Running(State()))
        == P.Handle(old(State()), fate, store, pageSize)
    {
      crashed := false;
      var m := mailbox[0];
      mailbox := mailbox[1..];
      match m
      case Ordered(note, _) =>
        crashed := ReceivedOrderedCommitNotification(note, fate, store);
      case CurrentCheckpoint(source, c) =>
        ReceivedCurrentCheckpoint(source, c, store);
      case CatchUp =>
        ReceivedCatchUp(store);
      case PersistCheckpoint =>
        PersistCheckpoint();
      case PublishCheckpoint =>
        eventStream := eventStream + [checkpoint];
    }
  }
}
