/** Saving an aggregate with optimistic concurrency: the retry loop of EventStoreRepository.Save. */
module EventStoreRepository {
  import opened Prelude
  import opened CommitStore

  /** What the event store does with one attempt to commit; Concurrent also loads what others committed. */
  datatype Attempt = Accepted | Duplicate | Concurrent(others: seq<Event>) | StorageFails

  datatype SaveResult = Committed | AlreadyCommitted | Conflict | CheckThrew | StorageFailed | StillTrying

  /** The stream after a Save, and whether the aggregate's events were cleared. */
  datatype Saved = Saved(result: SaveResult, committed: seq<Event>, uncommitted: seq<Event>, cleared: bool)

  function NonNull(events: seq<Event>): seq<Event> {
    if events == [] then []
    else NonNull(events[..|events| - 1]) + (if !events[|events| - 1].NullEvent? then [events[|events| - 1]] else [])
  }

  /** positions lists, in order and without omission, where the non-null events are. */
  ghost predicate AllNonNull(events: seq<Event>, positions: seq<nat>) {
    && (forall k :: 0 <= k < |positions| ==> positions[k] < |events|)
    && (forall k, l :: 0 <= k < l < |positions| ==> positions[k] < positions[l])
    && (forall i: nat :: i < |events| ==> (!events[i].NullEvent? <==> i in positions))
  }

  ghost predicate EventsAt(events: seq<Event>, positions: seq<nat>, kept: seq<Event>)
    requires AllNonNull(events, positions)
  {
    |kept| == |positions| && forall k :: 0 <= k < |positions| ==> kept[k] == events[positions[k]]
  }

  /** Every event that is not null is kept once, in order, and no null. */
  lemma {:induction false} NonNullInOrder(events: seq<Event>) returns (positions: seq<nat>)
    ensures AllNonNull(events, positions)
    ensures EventsAt(events, positions, NonNull(events))
  {
    if events == [] {
      positions := [];
    } else {
      var n := |events| - 1;
      var rest := NonNullInOrder(events[..n]);
      positions := if events[n].NullEvent? then rest else rest + [n];
      OneMoreNonNull(events, rest, positions);
    }
  }

  lemma OneMoreNonNull(events: seq<Event>, rest: seq<nat>, positions: seq<nat>)
    requires events != [] && AllNonNull(events[..|events| - 1], rest)
    requires positions == if events[|events| - 1].NullEvent? then rest else rest + [|events| - 1]
    ensures AllNonNull(events, positions)
    ensures forall k :: 0 <= k < |rest| ==> events[rest[k]] == events[..|events| - 1][rest[k]]
  {
    var n := |events| - 1;
    forall i: nat | i < |events| ensures !events[i].NullEvent? <==> i in positions {
      if i < n {
        assert events[..n][i] == events[i];
      }
    }
  }

  /** What comes of asking the conflict detector. It is handed the bodies of the committed events one by one as
      it asks for them, and getting the body of a null event throws. */
  datatype Verdict = Clear | Clash | Throws

  /** The verdict on (uncommitted, committed). */
  type Detector = (seq<Event>, seq<Event>) -> Verdict

  /** One turn of the loop. StillTrying stands for going round again. When the check for conflicts throws,
      the uncommitted events are not cleared away. */
  function Once(committed: seq<Event>, uncommitted: seq<Event>, mine: seq<Event>, attempt: Attempt,
    conflicts: Detector): Saved
  {
    var pending := uncommitted + NonNull(mine);
    match attempt
    case Accepted => Saved(Committed, committed + pending, [], true)
    case Duplicate => Saved(AlreadyCommitted, committed, [], false)
    case StorageFails => Saved(StorageFailed, committed, pending, false)
    case Concurrent(others) =>
      match conflicts(pending, others)
      case Clear => Saved(StillTrying, committed + others, [], false)
      case Clash => Saved(Conflict, committed + others, [], false)
      case Throws => Saved(CheckThrew, committed + others, pending, false)
  }

  /** The loop, over the outcomes of its attempts in turn. */
  function Save(committed: seq<Event>, uncommitted: seq<Event>, mine: seq<Event>, attempts: seq<Attempt>,
    conflicts: Detector): Saved
    decreases |attempts|
  {
    if attempts == [] then Saved(StillTrying, committed, uncommitted, false)
    else
      var r := Once(committed, uncommitted, mine, attempts[0], conflicts);
      if r.result.StillTrying? then Save(r.committed, r.uncommitted, mine, attempts[1..], conflicts) else r
  }

  lemma SaveFrom(committed: seq<Event>, uncommitted: seq<Event>, mine: seq<Event>, attempts: seq<Attempt>, i: nat,
    conflicts: Detector)
    requires i < |attempts|
    ensures var r := Once(committed, uncommitted, mine, attempts[i], conflicts);
      Save(committed, uncommitted, mine, attempts[i..], conflicts)
        == if r.result.StillTrying? then Save(r.committed, r.uncommitted, mine, attempts[i + 1..], conflicts) else r
  {
    assert attempts[i..][1..] == attempts[i + 1..];
  }

  // ------------------------------------------------------------------ what a Save guarantees

  /** How many attempts failed on other writers before the deciding one. */
  function Retries(attempts: seq<Attempt>): (k: nat)
    ensures k <= |attempts|
    ensures forall i :: 0 <= i < k ==> attempts[i].Concurrent?
    ensures k < |attempts| ==> !attempts[k].Concurrent?
    decreases |attempts|
  {
    if attempts == [] || !attempts[0].Concurrent? then 0 else 1 + Retries(attempts[1..])
  }

  /** Everything other writers committed over the given attempts. */
  function Others(attempts: seq<Attempt>): seq<Event>
    requires forall i :: 0 <= i < |attempts| ==> attempts[i].Concurrent?
  {
    if attempts == [] then [] else attempts[0].others + Others(attempts[1..])
  }

  /** Every batch that others committed in the given attempts was checked and found clear. */
  ghost predicate AllClear(mine: seq<Event>, attempts: seq<Attempt>, conflicts: Detector, k: nat)
    requires k <= Retries(attempts)
  {
    forall i :: 0 <= i < k ==> conflicts(mine, attempts[i].others) == Clear
  }

  lemma AllClearLater(mine: seq<Event>, attempts: seq<Attempt>, conflicts: Detector, k: nat)
    requires attempts != [] && attempts[0].Concurrent? && k <= Retries(attempts[1..])
    ensures AllClear(mine, attempts, conflicts, k + 1)
      <==> conflicts(mine, attempts[0].others) == Clear && AllClear(mine, attempts[1..], conflicts, k)
  {
    assert forall i :: 0 <= i < k ==> attempts[1..][i] == attempts[i + 1];
    assert forall i :: 0 < i < k + 1 ==> attempts[i] == attempts[1..][i - 1];
  }

  /** Optimistic save: a Save commits if and only if every attempt before the first that is no concurrency
      failure was checked clear, and that one is accepted. It then has appended after the other writers' events
      exactly the aggregate's non-null events, once and in order. */
  lemma {:induction false} CommittedSave(committed: seq<Event>, mine: seq<Event>, attempts: seq<Attempt>,
    conflicts: Detector)
    ensures CommitsExactly(Save(committed, [], mine, attempts, conflicts), committed, NonNull(mine), attempts,
      conflicts)
    decreases |attempts|
  {
    assert [] + NonNull(mine) == NonNull(mine);
    if attempts == [] {
    } else if attempts[0].Concurrent? {
      CommittedSave(committed + attempts[0].others, mine, attempts[1..], conflicts);
      CommitsLater(Save(committed, [], mine, attempts, conflicts), committed, NonNull(mine), attempts, conflicts);
    } else {
      assert committed + Others(attempts[..0]) == committed;
    }
  }

  ghost predicate CommitsExactly(r: Saved, committed: seq<Event>, own: seq<Event>, attempts: seq<Attempt>,
    conflicts: Detector)
  {
    var k := Retries(attempts);
    && (r.result == Committed <==>
        k < |attempts| && attempts[k] == Accepted && AllClear(own, attempts, conflicts, k))
    && (r.result == Committed ==> r == Saved(Committed, committed + Others(attempts[..k]) + own, [], true))
  }

  lemma CommitsLater(r: Saved, committed: seq<Event>, own: seq<Event>, attempts: seq<Attempt>, conflicts: Detector)
    requires attempts != [] && attempts[0].Concurrent?
    requires if conflicts(own, attempts[0].others) == Clear
      then CommitsExactly(r, committed + attempts[0].others, own, attempts[1..], conflicts)
      else r.result != Committed
    ensures CommitsExactly(r, committed, own, attempts, conflicts)
  {
    var k := Retries(attempts[1..]);
    AllClearLater(own, attempts, conflicts, k);
    MoreOthers(committed, attempts, k);
  }

  /** How many batches are appended by others before a Save that does not commit gives up: up to and
      including the first one not found clear, else all of them. */
  function Batches(mine: seq<Event>, attempts: seq<Attempt>, conflicts: Detector): (k: nat)
    ensures k <= Retries(attempts)
    decreases |attempts|
  {
    if attempts == [] || !attempts[0].Concurrent? then 0
    else if conflicts(mine, attempts[0].others) != Clear then 1
    else 1 + Batches(mine, attempts[1..], conflicts)
  }

  /** The first batch that is not found clear gets the given verdict. */
  ghost predicate FirstVerdictAt(mine: seq<Event>, attempts: seq<Attempt>, conflicts: Detector, k: nat, v: Verdict)
    requires k < Retries(attempts)
  {
    conflicts(mine, attempts[k].others) == v && AllClear(mine, attempts, conflicts, k)
  }

  /** What a Save that does not commit leaves: nothing of the aggregate's is appended and its events are kept; it
      ends in a conflict, or in an exception of the check, exactly when the first batch not found clear says so;
      and the stream holds the aggregate's events afterwards if the check threw or storage failed. */
  ghost predicate GaveUp(r: Saved, committed: seq<Event>, own: seq<Event>, attempts: seq<Attempt>,
    conflicts: Detector)
  {
    var k := Batches(own, attempts, conflicts);
    && !r.cleared
    && r.committed == committed + Others(attempts[..k])
    && (r.result == Conflict <==> 0 < k && FirstVerdictAt(own, attempts, conflicts, k - 1, Clash))
    && (r.result == CheckThrew <==> 0 < k && FirstVerdictAt(own, attempts, conflicts, k - 1, Throws))
    && r.uncommitted == if r.result.CheckThrew? || r.result.StorageFailed? then own else []
  }

  lemma {:induction false} UncommittedSave(committed: seq<Event>, mine: seq<Event>, attempts: seq<Attempt>,
    conflicts: Detector)
    requires Save(committed, [], mine, attempts, conflicts).result != Committed
    ensures GaveUp(Save(committed, [], mine, attempts, conflicts), committed, NonNull(mine), attempts, conflicts)
    decreases |attempts|
  {
    assert [] + NonNull(mine) == NonNull(mine);
    if attempts == [] || !attempts[0].Concurrent? {
      assert committed + Others(attempts[..0]) == committed;
    } else if conflicts(NonNull(mine), attempts[0].others) != Clear {
      assert attempts[..1][1..] == [];
      assert Others(attempts[..1]) == attempts[0].others + [] == attempts[0].others;
    } else {
      UncommittedSave(committed + attempts[0].others, mine, attempts[1..], conflicts);
      GaveUpLater(Save(committed, [], mine, attempts, conflicts), committed, NonNull(mine), attempts, conflicts);
    }
  }

  lemma GaveUpLater(r: Saved, committed: seq<Event>, own: seq<Event>, attempts: seq<Attempt>, conflicts: Detector)
    requires attempts != [] && attempts[0].Concurrent? && conflicts(own, attempts[0].others) == Clear
    requires GaveUp(r, committed + attempts[0].others, own, attempts[1..], conflicts)
    ensures GaveUp(r, committed, own, attempts, conflicts)
  {
    var k := Batches(own, attempts[1..], conflicts);
    MoreOthers(committed, attempts, k);
    if 0 < k {
      FirstVerdictLater(own, attempts, conflicts, k, Clash);
      FirstVerdictLater(own, attempts, conflicts, k, Throws);
    }
  }

  lemma FirstVerdictLater(mine: seq<Event>, attempts: seq<Attempt>, conflicts: Detector, k: nat, v: Verdict)
    requires attempts != [] && attempts[0].Concurrent? && conflicts(mine, attempts[0].others) == Clear
    requires 0 < k <= Retries(attempts[1..])
    ensures FirstVerdictAt(mine, attempts, conflicts, k, v)
      <==> FirstVerdictAt(mine, attempts[1..], conflicts, k - 1, v)
  {
    AllClearLater(mine, attempts, conflicts, k - 1);
  }

  lemma MoreOthers(committed: seq<Event>, attempts: seq<Attempt>, k: nat)
    requires attempts != [] && attempts[0].Concurrent? && k <= Retries(attempts[1..])
    ensures (committed + attempts[0].others) + Others(attempts[1..][..k]) == committed + Others(attempts[..k + 1])
  {
    var rest := attempts[1..];
    assert attempts[..k + 1][1..] == rest[..k];
    Associative(committed, attempts[0].others, Others(rest[..k]));
  }

  /** What the deciding attempt makes of a Save. */
  function Decision(attempt: Attempt): SaveResult
    requires !attempt.Concurrent?
  {
    match attempt
    case Accepted => Committed
    case Duplicate => AlreadyCommitted
    case StorageFails => StorageFailed
  }

  /** How a Save from a clean stream ends. If all batches of other writers were found clear, the first attempt that
      is no concurrency failure decides; if there is none, it goes on trying. */
  lemma {:induction false} SaveEnds(committed: seq<Event>, mine: seq<Event>, attempts: seq<Attempt>,
    conflicts: Detector)
    ensures var k := Retries(attempts); var r := Save(committed, [], mine, attempts, conflicts);
      if AllClear(NonNull(mine), attempts, conflicts, k)
      then r.result == (if k == |attempts| then StillTrying else Decision(attempts[k]))
      else r.result == Conflict || r.result == CheckThrew
    decreases |attempts|
  {
    assert [] + NonNull(mine) == NonNull(mine);
    if attempts != [] && attempts[0].Concurrent? {
      var rest := attempts[1..];
      if conflicts(NonNull(mine), attempts[0].others) == Clear {
        SaveEnds(committed + attempts[0].others, mine, rest, conflicts);
      }
      AllClearLater(NonNull(mine), attempts, conflicts, Retries(rest));
    }
  }

  ghost predicate DecidedBy(mine: seq<Event>, attempts: seq<Attempt>, conflicts: Detector, attempt: Attempt) {
    var k := Retries(attempts);
    k < |attempts| && attempts[k] == attempt && AllClear(NonNull(mine), attempts, conflicts, k)
  }

  /** Exactly when a Save ends in each way that is no conflict; and what it leaves when the commit was a duplicate:
      the other writers' events, none of the aggregate's, and a clean stream. */
  lemma SaveEndsExactly(committed: seq<Event>, mine: seq<Event>, attempts: seq<Attempt>, conflicts: Detector)
    ensures var k := Retries(attempts); var r := Save(committed, [], mine, attempts, conflicts);
      && (r.result == Committed <==> DecidedBy(mine, attempts, conflicts, Accepted))
      && (r.result == AlreadyCommitted <==> DecidedBy(mine, attempts, conflicts, Duplicate))
      && (r.result == StorageFailed <==> DecidedBy(mine, attempts, conflicts, StorageFails))
      && (r.result == StillTrying <==> k == |attempts| && AllClear(NonNull(mine), attempts, conflicts, k))
      && (r.result == AlreadyCommitted ==>
          r == Saved(AlreadyCommitted, committed + Others(attempts[..k]), [], false))
  {
    var r := Save(committed, [], mine, attempts, conflicts);
    SaveEnds(committed, mine, attempts, conflicts);
    if r.result == AlreadyCommitted {
      UncommittedSave(committed, mine, attempts, conflicts);
      ClearBatches(NonNull(mine), attempts, conflicts);
    }
  }

  lemma {:induction false} ClearBatches(mine: seq<Event>, attempts: seq<Attempt>, conflicts: Detector)
    requires AllClear(mine, attempts, conflicts, Retries(attempts))
    ensures Batches(mine, attempts, conflicts) == Retries(attempts)
    decreases |attempts|
  {
    if attempts != [] && attempts[0].Concurrent? {
      AllClearLater(mine, attempts, conflicts, Retries(attempts[1..]));
      ClearBatches(mine, attempts[1..], conflicts);
    }
  }

  /** Saving again after a duplicate commit appends the events once: nothing was left on the stream. */
  lemma SavingAgainAfterDuplicate(committed: seq<Event>, mine: seq<Event>, conflicts: Detector)
    ensures var first := Save(committed, [], mine, [Duplicate], conflicts);
      && first == Saved(AlreadyCommitted, committed, [], false)
      && Save(first.committed, first.uncommitted, mine, [Accepted], conflicts)
         == Saved(Committed, committed + NonNull(mine), [], true)
  {
    assert [] + NonNull(mine) == NonNull(mine);
  }

  // ------------------------------------------------------------------ detectors that compare event by event

  ghost predicate ClashesWithOne(mine: seq<Event>, other: Event, clash: (Event, Event) -> bool) {
    exists x :: x in mine && clash(x, other)
  }

  /** The detector reads all committed events, and compares event by event. */
  ghost predicate EventByEvent(conflicts: Detector, clash: (Event, Event) -> bool) {
    forall u: seq<Event>, c: seq<Event> {:trigger conflicts(u, c)} ::
      conflicts(u, c) ==
        if NullEvent in c then Throws
        else if exists y :: y in c && ClashesWithOne(u, y, clash) then Clash
        else Clear
  }

  /** An event of another writer that stands in the way of neither the check nor the save. */
  ghost predicate Harmless(mine: seq<Event>, other: Event, clash: (Event, Event) -> bool) {
    !other.NullEvent? && !ClashesWithOne(mine, other, clash)
  }

  /** Checking batch by batch checks all that others committed since the first attempt. */
  lemma {:induction false} ClearMeansHarmless(mine: seq<Event>, attempts: seq<Attempt>, conflicts: Detector,
    clash: (Event, Event) -> bool, k: nat)
    requires EventByEvent(conflicts, clash) && k <= Retries(attempts)
    ensures AllClear(mine, attempts, conflicts, k)
      <==> forall y :: y in Others(attempts[..k]) ==> Harmless(mine, y, clash)
    decreases k
  {
    if 0 < k {
      var rest := attempts[1..];
      ClearMeansHarmless(mine, rest, conflicts, clash, k - 1);
      AllClearLater(mine, attempts, conflicts, k - 1);
      assert attempts[..k][1..] == rest[..k - 1];
      assert Others(attempts[..k]) == attempts[0].others + Others(rest[..k - 1]);
      ClearBatch(mine, attempts[0].others, conflicts, clash);
    }
  }

  lemma ClearBatch(mine: seq<Event>, others: seq<Event>, conflicts: Detector, clash: (Event, Event) -> bool)
    requires EventByEvent(conflicts, clash)
    ensures conflicts(mine, others) == Clear <==> forall y :: y in others ==> Harmless(mine, y, clash)
  {
    if NullEvent in others {
      assert !Harmless(mine, NullEvent, clash);
    }
  }

  /** The exact condition for such a detector: given an accepted attempt after the concurrency failures, the
      Save commits if and only if no event that others committed meanwhile is null or clashes with an event of
      the aggregate. */
  lemma CommitsExactlyIfHarmless(committed: seq<Event>, mine: seq<Event>, attempts: seq<Attempt>,
    conflicts: Detector, clash: (Event, Event) -> bool)
    requires EventByEvent(conflicts, clash)
    requires Retries(attempts) < |attempts| && attempts[Retries(attempts)] == Accepted
    ensures Save(committed, [], mine, attempts, conflicts).result == Committed
      <==> forall y :: y in Others(attempts[..Retries(attempts)]) ==> Harmless(NonNull(mine), y, clash)
  {
    CommittedSave(committed, mine, attempts, conflicts);
    ClearMeansHarmless(NonNull(mine), attempts, conflicts, clash, Retries(attempts));
  }

  /** The skip counts telescope: after a Save that commits, every event on the stream between those that were
      there at first and those it appended has been checked, whichever turn it was loaded in. */
  lemma EveryOtherEventChecked(committed: seq<Event>, mine: seq<Event>, attempts: seq<Attempt>,
    conflicts: Detector, clash: (Event, Event) -> bool)
    requires EventByEvent(conflicts, clash)
    requires Save(committed, [], mine, attempts, conflicts).result == Committed
    ensures var r := Save(committed, [], mine, attempts, conflicts).committed; var own := NonNull(mine);
      && |committed| + |own| <= |r| && r[..|committed|] == committed && r[|r| - |own|..] == own
      && forall i :: |committed| <= i < |r| - |own| ==> Harmless(own, r[i], clash)
  {
    var own := NonNull(mine);
    var others := Others(attempts[..Retries(attempts)]);
    var r := Save(committed, [], mine, attempts, conflicts).committed;
    CommittedSave(committed, mine, attempts, conflicts);
    ClearMeansHarmless(own, attempts, conflicts, clash, Retries(attempts));
    assert r == committed + others + own;
    forall i | |committed| <= i < |r| - |own| ensures Harmless(own, r[i], clash) {
      assert r[i] == others[i - |committed|];
    }
  }

  /** The assumption of a clean stream, made exact: a Save that commits appends exactly the aggregate's events
      if and only if nothing was left uncommitted on the stream or a concurrency failure cleared it away. */
  lemma AppendsExactlyMine(committed: seq<Event>, left: seq<Event>, mine: seq<Event>, attempts: seq<Attempt>,
    conflicts: Detector)
    requires Save(committed, left, mine, attempts, conflicts).result == Committed
    ensures var r := Save(committed, left, mine, attempts, conflicts);
      (r.committed == committed + Others(attempts[..Retries(attempts)]) + NonNull(mine)) <==>
        (left == [] || 0 < Retries(attempts))
  {
    var r := Save(committed, left, mine, attempts, conflicts);
    var k := Retries(attempts);
    if k == 0 {
      assert Others(attempts[..0]) == [] && committed + [] == committed;
      assert r.committed == committed + (left + NonNull(mine));
      assert |r.committed| == |committed| + |left| + |NonNull(mine)|;
      assert left == [] ==> left + NonNull(mine) == NonNull(mine);
    } else {
      var rest := attempts[1..];
      CommittedSave(committed + attempts[0].others, mine, rest, conflicts);
      MoreOthers(committed, attempts, Retries(rest));
    }
  }

  /** A storage failure leaves the events on the stream, so saving the same aggregate again appends them twice. */
  lemma SavingAgainAfterStorageFailure(committed: seq<Event>, mine: seq<Event>, conflicts: Detector)
    ensures var first := Save(committed, [], mine, [StorageFails], conflicts);
      && first.result == StorageFailed && !first.cleared
      && Save(first.committed, first.uncommitted, mine, [Accepted], conflicts).committed
         == committed + (NonNull(mine) + NonNull(mine))
  {
    assert [] + NonNull(mine) == NonNull(mine);
  }

  /** So does a null event that another writer committed: the check for conflicts throws on it before the
      stream is cleared. */
  lemma SavingAgainAfterNullCommitted(committed: seq<Event>, mine: seq<Event>, conflicts: Detector,
    clash: (Event, Event) -> bool)
    requires EventByEvent(conflicts, clash)
    ensures var first := Save(committed, [], mine, [Concurrent([NullEvent])], conflicts);
      && first.result == CheckThrew && !first.cleared
      && Save(first.committed, first.uncommitted, mine, [Accepted], conflicts).committed
         == (committed + [NullEvent]) + (NonNull(mine) + NonNull(mine))
  {
    assert [] + NonNull(mine) == NonNull(mine);
  }

  // ------------------------------------------------------------------ the repository

  class Aggregate {
    var uncommittedEvents: seq<Event>

    method ClearUncommittedEvents()
      modifies this
      ensures uncommittedEvents == []
    {
      uncommittedEvents := [];
    }
  }

  class EventStream {
    var committed: seq<Event>
    var uncommitted: seq<Event>

    constructor (committed: seq<Event>)
      ensures this.committed == committed && uncommitted == []
    {
      this.committed := committed;
      uncommitted := [];
    }

    method Add(e: Event)
      modifies this`uncommitted
      ensures uncommitted == old(uncommitted) + [e]
    {
      uncommitted := uncommitted + [e];
    }

    method ClearChanges()
      modifies this`uncommitted
      ensures uncommitted == []
    {
      uncommitted := [];
    }

    /** The event store's side of an attempt. */
    method CommitChanges(attempt: Attempt)
      modifies this
      ensures committed == match attempt
        case Accepted => old(committed) + old(uncommitted)
        case Concurrent(others) => old(committed) + others
        case _ => old(committed)
      ensures uncommitted == if attempt.Accepted? then [] else old(uncommitted)
    {
      match attempt
      case Accepted =>
        committed := committed + uncommitted;
        uncommitted := [];
      case Concurrent(others) =>
        committed := committed + others;
      case _ =>
    }
  }

  class Repository {
    var streams: map<string, EventStream>

    /** No two ids share a stream. */
    ghost predicate Valid()
      reads this
    {
      forall a, b :: a in streams && b in streams && a != b ==> streams[a] != streams[b]
    }

    /** Nothing but the one stream was touched. */
    twostate predicate OthersUntouched(streamId: string)
      reads this, streams.Values
    {
      forall id :: id in old(streams) && id != streamId ==>
        && id in streams && streams[id] == old(streams[id])
        && streams[id].committed == old(streams[id].committed)
        && streams[id].uncommitted == old(streams[id].uncommitted)
    }

    constructor ()
      ensures Valid() && streams == map[]
    {
      streams := map[];
    }

    function CommittedOn(streamId: string): seq<Event>
      reads this, streams.Values
    {
      if streamId in streams then streams[streamId].committed else []
    }

    function UncommittedOn(streamId: string): seq<Event>
      reads this, streams.Values
    {
      if streamId in streams then streams[streamId].uncommitted else []
    }

    /** Finds the stream, or creates it. */
    method FindStream(streamId: string) returns (stream: EventStream)
      requires Valid()
      modifies this
      ensures Valid() && OthersUntouched(streamId) && streams.Keys == old(streams.Keys) + {streamId}
      ensures streamId in streams && streams[streamId] == stream
      ensures stream in old(streams.Values) || fresh(stream)
      ensures streams.Values <= old(streams.Values) + {stream}
      ensures stream.committed == old(CommittedOn(streamId)) && stream.uncommitted == old(UncommittedOn(streamId))
    {
      if streamId !in streams {
        stream := new EventStream([]);
        streams := streams[streamId := stream];
      } else {
        stream := streams[streamId];
      }
    }

    /** Finds or creates the stream, and adds the aggregate's non-null events to it. */
    method PrepareStream(streamId: string, aggregate: Aggregate) returns (stream: EventStream)
      requires Valid()
      modifies this, streams.Values
      ensures Valid() && OthersUntouched(streamId) && streams.Keys == old(streams.Keys) + {streamId}
      ensures streamId in streams && streams[streamId] == stream
      ensures stream in old(streams.Values) || fresh(stream)
      ensures streams.Values <= old(streams.Values) + {stream}
      ensures stream.committed == old(CommittedOn(streamId))
      ensures stream.uncommitted == old(UncommittedOn(streamId)) + NonNull(aggregate.uncommittedEvents)
    {
      stream := FindStream(streamId);
      var events := aggregate.uncommittedEvents;
      ghost var left := stream.uncommitted;
      for i := 0 to |events|
        invariant stream.uncommitted == left + NonNull(events[..i])
        modifies stream`uncommitted
      {
        assert events[..i + 1][..i] == events[..i];
        if !events[i].NullEvent? {
          stream.Add(events[i]);
        }
      }
      assert events[..|events|] == events;
    }

    /** Asks the detector about the committed events after those that were there before. */
    method ThrowOnConflict(stream: EventStream, skip: nat, conflicts: Detector) returns (verdict: Verdict)
      ensures forall before, others ::
        (stream.committed == before + others && |before| == skip ==> verdict == conflicts(stream.uncommitted, others))
      ensures |stream.committed| <= skip ==> verdict == conflicts(stream.uncommitted, [])
    {
      var committed := if skip <= |stream.committed| then stream.committed[skip..] else [];
      verdict := conflicts(stream.uncommitted, committed);
    }

    /** One turn of the retry loop, against the outcome the event store gives it. */
    method TryOnce(streamId: string, aggregate: Aggregate, attempt: Attempt, conflicts: Detector)
      returns (result: SaveResult)
      requires Valid()
      modifies this, aggregate, streams.Values
      ensures Valid() && OthersUntouched(streamId) && streams.Keys == old(streams.Keys) + {streamId}
      ensures fresh(streams.Values - old(streams.Values))
      ensures var r := Once(old(CommittedOn(streamId)), old(UncommittedOn(streamId)),
          old(aggregate.uncommittedEvents), attempt, conflicts);
        && result == r.result
        && CommittedOn(streamId) == r.committed && UncommittedOn(streamId) == r.uncommitted
        && aggregate.uncommittedEvents == (if r.cleared then [] else old(aggregate.uncommittedEvents))
    {
      var stream := PrepareStream(streamId, aggregate);
      var commitEventCount := |stream.committed|;
      ghost var before := stream.committed;
      stream.CommitChanges(attempt);
      match attempt
      case Accepted =>
        aggregate.ClearUncommittedEvents();
        result := Committed;
      case Duplicate =>
        stream.ClearChanges();
        result := AlreadyCommitted;
      case StorageFails =>
        result := StorageFailed;
      case Concurrent(others) =>
        assert stream.committed == before + others;
        var verdict := ThrowOnConflict(stream, commitEventCount, conflicts);
        if verdict.Throws? {
          return CheckThrew;
        }
        stream.ClearChanges();
        result := if verdict.Clash? then Conflict else StillTrying;
    }

    /** Save: goes round until an attempt is decided. attempts are the outcomes the event store gives. */
    method SaveAggregate(streamId: string, aggregate: Aggregate, attempts: seq<Attempt>, conflicts: Detector)
      returns (result: SaveResult)
      requires Valid()
      modifies this, aggregate, streams.Values
      ensures Valid() && OthersUntouched(streamId)
      ensures var r := Save(old(CommittedOn(streamId)), old(UncommittedOn(streamId)),
          old(aggregate.uncommittedEvents), attempts, conflicts);
        && result == r.result
        && CommittedOn(streamId) == r.committed && UncommittedOn(streamId) == r.uncommitted
        && aggregate.uncommittedEvents == (if r.cleared then [] else old(aggregate.uncommittedEvents))
    {
      ghost var mine := aggregate.uncommittedEvents;
      ghost var wanted := Save(CommittedOn(streamId), UncommittedOn(streamId), mine, attempts, conflicts);
      result := StillTrying;
      var i := 0;
      while i < |attempts|
        invariant 0 <= i <= |attempts|
        invariant aggregate.uncommittedEvents == mine
        invariant Valid() && OthersUntouched(streamId)
        invariant fresh(streams.Values - old(streams.Values))
        invariant wanted == Save(CommittedOn(streamId), UncommittedOn(streamId), mine, attempts[i..], conflicts)
      {
        SaveFrom(CommittedOn(streamId), UncommittedOn(streamId), mine, attempts, i, conflicts);
        var r := TryOnce(streamId, aggregate, attempts[i], conflicts);
        if r != StillTrying {
          return r;
        }
        i := i + 1;
      }
    }
  }
}
