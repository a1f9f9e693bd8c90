/** The legacy projector: effects and checkpoint saved in one transaction. */
module LegacyProjector {
  import opened Prelude
  import opened CommitStore
  import opened StreamProcessor
  import opened CrashRecovery
  import opened SqlProjector

  /** The projection methods in registration order: each with the event kind it is defined for. */
  type Functions = seq<(nat, nat)>

  predicate IsDefined(f: (nat, nat), e: Event) {
    e.Event? && e.kind == f.0
  }

  /** The dispatcher's optional predicate over commits. */
  datatype Dispatcher = Dispatcher(functions: Functions, canProjectPredicate: Option<Commit -> bool>)

  predicate CanProject(d: Dispatcher, commit: Commit) {
    && (d.canProjectPredicate.Some? ==> d.canProjectPredicate.value(commit))
    && exists i :: 0 <= i < |commit.events| && commit.events[i].Event?
        && exists k :: 0 <= k < |d.functions| && IsDefined(d.functions[k], commit.events[i])
  }

  /** Testing whether a function is defined for an event message without a body throws. */
  predicate HitsNullBody(functions: Functions, events: seq<Event>) {
    functions != [] && NullBody in events
  }

  /** The commit passes the dispatcher's predicate, and cannot be projected for want of a body. */
  predicate Unprojectable(d: Dispatcher, commit: Commit) {
    && (d.canProjectPredicate.Some? ==> d.canProjectPredicate.value(commit))
    && HitsNullBody(d.functions, commit.events)
  }

  /** commit.Events.Any(...) as it runs: it stops at the first event that some function is defined for; None
      stands for the exception. */
  function AnyDefined(functions: Functions, events: seq<Event>): Option<bool> {
    if events == [] then Some(false)
    else if events[0].NullBody? && functions != [] then None
    else if exists k :: 0 <= k < |functions| && IsDefined(functions[k], events[0]) then Some(true)
    else AnyDefined(functions, events[1..])
  }

  function CanProjectOrThrow(d: Dispatcher, commit: Commit): Option<bool> {
    if d.canProjectPredicate.Some? && !d.canProjectPredicate.value(commit) then Some(false)
    else AnyDefined(d.functions, commit.events)
  }

  ghost predicate DefinedForOne(functions: Functions, events: seq<Event>) {
    exists i :: 0 <= i < |events| && SomeDefined(functions, events[i])
  }

  lemma {:induction false} AnyDefinedIs(functions: Functions, events: seq<Event>)
    ensures !HitsNullBody(functions, events) ==> AnyDefined(functions, events) == Some(DefinedForOne(functions, events))
    ensures HitsNullBody(functions, events) ==> AnyDefined(functions, events) != Some(false)
    decreases |events|
  {
    if events != [] {
      var rest := events[1..];
      AnyDefinedIs(functions, rest);
      assert events == [events[0]] + rest;
      assert DefinedForOne(functions, events) <==>
        SomeDefined(functions, events[0]) || DefinedForOne(functions, rest) by {
        if DefinedForOne(functions, rest) {
          var i :| 0 <= i < |rest| && SomeDefined(functions, rest[i]);
          assert SomeDefined(functions, events[i + 1]);
        }
        if DefinedForOne(functions, events) {
          var i :| 0 <= i < |events| && SomeDefined(functions, events[i]);
          assert 0 < i ==> rest[i - 1] == events[i];
        }
      }
    }
  }

  /** CanProject returns what the events say, unless the commit is unprojectable: then it throws, or finds an
      event to project before it comes to the one without a body. */
  lemma CanProjectReturns(d: Dispatcher, commit: Commit)
    ensures !Unprojectable(d, commit) ==> CanProjectOrThrow(d, commit) == Some(CanProject(d, commit))
    ensures Unprojectable(d, commit) ==> CanProjectOrThrow(d, commit) != Some(false)
  {
    AnyDefinedIs(d.functions, commit.events);
    assert DefinedForOne(d.functions, commit.events) <==>
      exists i :: 0 <= i < |commit.events| && commit.events[i].Event?
        && exists k :: 0 <= k < |d.functions| && IsDefined(d.functions[k], commit.events[i]) by
    {
      forall i | 0 <= i < |commit.events| ensures SomeDefined(d.functions, commit.events[i]) <==>
        (commit.events[i].Event? && exists k :: 0 <= k < |d.functions| && IsDefined(d.functions[k], commit.events[i]))
      {
      }
    }
  }

  /** What one event makes the registered functions do, in registration order. */
  function EventEffects(functions: Functions, token: int, e: Event): seq<Effect> {
    if functions == [] then []
    else
      EventEffects(functions[..|functions| - 1], token, e)
      + (if IsDefined(functions[|functions| - 1], e) then [Effect(functions[|functions| - 1].1, token, e)] else [])
  }

  /** All effects of a commit: its events in order, null events skipped. */
  function LegacyEffects(functions: Functions, token: int, events: seq<Event>): seq<Effect> {
    if events == [] then []
    else LegacyEffects(functions, token, events[..|events| - 1]) + EventEffects(functions, token, events[|events| - 1])
  }

  ghost predicate SomeDefined(functions: Functions, e: Event) {
    exists k :: 0 <= k < |functions| && IsDefined(functions[k], e)
  }

  ghost predicate SomeEffect(functions: Functions, token: int, events: seq<Event>) {
    exists i :: 0 <= i < |events| && EventEffects(functions, token, events[i]) != []
  }

  lemma {:induction false} EventEffectsIff(functions: Functions, token: int, e: Event)
    ensures EventEffects(functions, token, e) != [] <==> SomeDefined(functions, e)
  {
    if functions != [] {
      var n := |functions| - 1;
      EventEffectsIff(functions[..n], token, e);
      assert SomeDefined(functions, e) <==> SomeDefined(functions[..n], e) || IsDefined(functions[n], e) by {
        if SomeDefined(functions[..n], e) {
          var k :| 0 <= k < n && IsDefined(functions[..n][k], e);
          assert IsDefined(functions[k], e);
        }
        if SomeDefined(functions, e) {
          var k :| 0 <= k < |functions| && IsDefined(functions[k], e);
          assert k < n ==> functions[..n][k] == functions[k];
        }
      }
    }
  }

  /** positions lists, in order and without omission, which functions are defined for the event. */
  ghost predicate AllDefined(functions: Functions, e: Event, positions: seq<nat>) {
    && (forall k :: 0 <= k < |positions| ==> positions[k] < |functions|)
    && (forall k, l :: 0 <= k < l < |positions| ==> positions[k] < positions[l])
    && (forall i: nat :: i < |functions| ==> (IsDefined(functions[i], e) <==> i in positions))
  }

  /** effects are, in order, what these functions do to the event. */
  ghost predicate RunsAll(functions: Functions, token: int, e: Event, positions: seq<nat>, effects: seq<Effect>)
    requires AllDefined(functions, e, positions)
  {
    && |effects| == |positions|
    && forall k :: 0 <= k < |positions| ==> effects[k] == Effect(functions[positions[k]].1, token, e)
  }

  ghost predicate AreEventEffects(functions: Functions, token: int, e: Event, effects: seq<Effect>) {
    exists positions :: AllDefined(functions, e, positions) && RunsAll(functions, token, e, positions, effects)
  }

  /** Every function that is defined for the event runs on it once, in registration order, and no other does. */
  lemma {:induction false} EventEffectsInOrder(functions: Functions, token: int, e: Event)
    returns (positions: seq<nat>)
    ensures AllDefined(functions, e, positions)
    ensures RunsAll(functions, token, e, positions, EventEffects(functions, token, e))
  {
    if functions == [] {
      positions := [];
    } else {
      var n := |functions| - 1;
      var rest := EventEffectsInOrder(functions[..n], token, e);
      positions := if IsDefined(functions[n], e) then rest + [n] else rest;
      OneMoreFunction(functions, e, rest, positions);
    }
  }

  lemma OneMoreFunction(functions: Functions, e: Event, rest: seq<nat>, positions: seq<nat>)
    requires functions != [] && AllDefined(functions[..|functions| - 1], e, rest)
    requires positions == if IsDefined(functions[|functions| - 1], e) then rest + [|functions| - 1] else rest
    ensures AllDefined(functions, e, positions)
    ensures forall k :: 0 <= k < |rest| ==> functions[rest[k]] == functions[..|functions| - 1][rest[k]]
  {
    var n := |functions| - 1;
    forall i: nat | i < |functions| ensures IsDefined(functions[i], e) <==> i in positions {
      if i < n {
        assert functions[..n][i] == functions[i];
      }
    }
  }

  /** The effects of a commit are those of its events, one event after the other. */
  ghost predicate AreCommitEffects(functions: Functions, token: int, events: seq<Event>, effects: seq<Effect>) {
    exists cuts :: CutsInto(functions, token, events, effects, cuts)
  }

  ghost predicate IsCut(functions: Functions, token: int, e: Event, effects: seq<Effect>, from: nat, to: nat) {
    from <= to <= |effects| && AreEventEffects(functions, token, e, effects[from..to])
  }

  /** Between cuts[i] and cuts[i + 1] lie the effects of event i. */
  ghost predicate CutsInto(functions: Functions, token: int, events: seq<Event>, effects: seq<Effect>, cuts: seq<nat>) {
    && |cuts| == |events| + 1 && cuts[0] == 0 && cuts[|events|] == |effects|
    && forall i, j :: 0 <= i < j < |cuts| && j == i + 1 ==>
        IsCut(functions, token, events[i], effects, cuts[i], cuts[j])
  }

  lemma {:induction false} LegacyEffectsInOrder(functions: Functions, token: int, events: seq<Event>)
    returns (cuts: seq<nat>)
    ensures CutsInto(functions, token, events, LegacyEffects(functions, token, events), cuts)
  {
    if events == [] {
      cuts := [0];
    } else {
      var n := |events| - 1;
      var rest := LegacyEffectsInOrder(functions, token, events[..n]);
      cuts := rest + [|LegacyEffects(functions, token, events)|];
      var positions := EventEffectsInOrder(functions, token, events[n]);
      OneMoreEvent(functions, token, events[..n], events[n], LegacyEffects(functions, token, events[..n]),
        EventEffects(functions, token, events[n]), rest);
      LastOff(events);
    }
  }

  lemma OneMoreEvent(functions: Functions, token: int, before: seq<Event>, e: Event, effects: seq<Effect>,
    own: seq<Effect>, cuts: seq<nat>)
    requires CutsInto(functions, token, before, effects, cuts) && AreEventEffects(functions, token, e, own)
    ensures CutsInto(functions, token, before + [e], effects + own, cuts + [|effects + own|])
  {
    var cuts', all := cuts + [|effects + own|], effects + own;
    Slices(effects, own);
    forall i, j | 0 <= i < j < |cuts'| && j == i + 1
      ensures IsCut(functions, token, (before + [e])[i], all, cuts'[i], cuts'[j])
    {
      if j < |cuts| {
        assert IsCut(functions, token, before[i], effects, cuts[i], cuts[j]);
        CutStays(functions, token, before[i], effects, own, cuts[i], cuts[j]);
      }
    }
  }

  lemma CutStays(functions: Functions, token: int, e: Event, effects: seq<Effect>, own: seq<Effect>, from: nat, to: nat)
    requires IsCut(functions, token, e, effects, from, to)
    ensures IsCut(functions, token, e, effects + own, from, to)
  {
    Slices(effects, own);
    assert (effects + own)[from..to] == effects[from..to];
  }

  lemma SomeEffectStep(functions: Functions, token: int, events: seq<Event>)
    requires events != []
    ensures var n := |events| - 1;
      SomeEffect(functions, token, events) <==>
        (SomeEffect(functions, token, events[..n]) || EventEffects(functions, token, events[n]) != [])
  {
    var n := |events| - 1;
    assert forall i :: 0 <= i < n ==> events[..n][i] == events[i];
  }

  lemma {:induction false} LegacyEffectsIff(functions: Functions, token: int, events: seq<Event>)
    ensures LegacyEffects(functions, token, events) != [] <==> SomeEffect(functions, token, events)
  {
    if events != [] {
      LegacyEffectsIff(functions, token, events[..|events| - 1]);
      SomeEffectStep(functions, token, events);
    }
  }

  /** CanProject holds exactly when projecting the commit does anything and the predicate over commits, if there
      is one, lets it. */
  lemma CanProjectIffEffects(d: Dispatcher, commit: Commit)
    ensures CanProject(d, commit) <==>
      && (d.canProjectPredicate == None || d.canProjectPredicate.value(commit))
      && LegacyEffects(d.functions, commit.token, commit.events) != []
  {
    LegacyEffectsIff(d.functions, commit.token, commit.events);
    forall i | 0 <= i < |commit.events|
      ensures EventEffects(d.functions, commit.token, commit.events[i]) != []
        <==> (commit.events[i].Event? && SomeDefined(d.functions, commit.events[i]))
    {
      EventEffectsIff(d.functions, commit.token, commit.events[i]);
    }
  }

  function NullsIn(events: seq<Event>): nat {
    if events == [] then 0
    else NullsIn(events[..|events| - 1]) + (if events[|events| - 1].NullEvent? then 1 else 0)
  }

  /** Dispatching the commit throws. */
  predicate Fails(functions: Functions, commit: Commit, fault: Fault) {
    || HitsNullBody(functions, commit.events)
    || (fault.InEffect? && fault.at < |LegacyEffects(functions, commit.token, commit.events)|)
  }

  /** The number of positions that hold a null event. */
  lemma {:induction false} NullsInIs(events: seq<Event>)
    ensures NullsIn(events) == |set i | 0 <= i < |events| && events[i].NullEvent?|
  {
    if events != [] {
      var n := |events| - 1;
      NullsInIs(events[..n]);
      var before := set i | 0 <= i < n && events[..n][i].NullEvent?;
      var all := set i | 0 <= i < |events| && events[i].NullEvent?;
      assert all == before + (if events[n].NullEvent? then {n} else {});
    }
  }

  /** tx holds the effects of the first i events, none of which failed. */
  ghost predicate Dispatched(functions: Functions, commit: Commit, i: nat, tx: seq<Effect>, fault: Fault) {
    && i <= |commit.events|
    && tx == LegacyEffects(functions, commit.token, commit.events[..i])
    && (fault.InEffect? ==> |tx| <= fault.at)
    && forall j :: 0 <= j < i ==> !commit.events[j].NullBody? || functions == []
  }

  lemma DispatchedOneMore(functions: Functions, commit: Commit, i: nat, before: seq<Effect>, tx: seq<Effect>,
    fault: Fault)
    requires i < |commit.events| && Dispatched(functions, commit, i, before, fault)
    requires tx == before + EventEffects(functions, commit.token, commit.events[i])
    requires fault.InEffect? ==> |tx| <= fault.at
    requires !commit.events[i].NullBody? || functions == []
    ensures Dispatched(functions, commit, i + 1, tx, fault)
    ensures NullsIn(commit.events[..i + 1])
      == NullsIn(commit.events[..i]) + (if commit.events[i].NullEvent? then 1 else 0)
  {
    EffectsStep(functions, commit.token, commit.events, i);
  }

  lemma DispatchedAll(functions: Functions, commit: Commit, tx: seq<Effect>, fault: Fault)
    requires Dispatched(functions, commit, |commit.events|, tx, fault)
    ensures !Fails(functions, commit, fault) && tx == LegacyEffects(functions, commit.token, commit.events)
    ensures commit.events[..|commit.events|] == commit.events
  {
    assert commit.events[..|commit.events|] == commit.events;
  }

  lemma FailedWithin(functions: Functions, commit: Commit, fault: Fault, i: nat, before: seq<Effect>)
    requires i < |commit.events| && Dispatched(functions, commit, i, before, fault)
    requires
      || (commit.events[i].NullBody? && functions != [])
      || (fault.InEffect? && fault.at < |before + EventEffects(functions, commit.token, commit.events[i])|)
    ensures Fails(functions, commit, fault)
    ensures commit.events[i].NullBody? || (fault.InEffect? && FailsIn(functions, commit, fault.at, i))
  {
    EffectsStep(functions, commit.token, commit.events, i);
    assert commit.events[i] in commit.events;
    LegacyEffectsPrefix(functions, i + 1, commit.token, commit.events);
  }

  lemma EffectsStep(functions: Functions, token: int, events: seq<Event>, i: nat)
    requires i < |events|
    ensures LegacyEffects(functions, token, events[..i + 1])
      == LegacyEffects(functions, token, events[..i]) + EventEffects(functions, token, events[i])
    ensures NullsIn(events[..i + 1]) == NullsIn(events[..i]) + (if events[i].NullEvent? then 1 else 0)
    ensures events[i].NullEvent? ==> EventEffects(functions, token, events[i]) == []
  {
    assert events[..i + 1][..i] == events[..i];
    EventEffectsIff(functions, token, events[i]);
  }

  /** Effect number `at` is one of those of event i. */
  ghost predicate FailsIn(functions: Functions, commit: Commit, at: nat, i: nat) {
    && i < |commit.events|
    && |LegacyEffects(functions, commit.token, commit.events[..i])| <= at
    && at < |LegacyEffects(functions, commit.token, commit.events[..i + 1])|
  }

  /** The effects of a log of commits: those of the commits that can be projected. */
  function LogEffects(d: Dispatcher, s: seq<Commit>): seq<Effect> {
    if s == [] then []
    else
      var c := s[|s| - 1];
      LogEffects(d, s[..|s| - 1]) + (if CanProject(d, c) then LegacyEffects(d.functions, c.token, c.events) else [])
  }

  /** So the theorems of CrashRecovery about projectable commits are about the projection database. */
  lemma {:induction false} EffectsOfProjectable(d: Dispatcher, s: seq<Commit>)
    ensures LogEffects(d, s) == LogEffects(d, Only(c => CanProject(d, c), s))
  {
    if s != [] {
      var before := s[..|s| - 1];
      var c := s[|s| - 1];
      var kept := Only(c => CanProject(d, c), before);
      EffectsOfProjectable(d, before);
      if CanProject(d, c) {
        assert (kept + [c])[..|kept|] == kept;
      } else {
        assert Only(c => CanProject(d, c), s) == kept + [] == kept;
      }
    }
  }

  /** What goes wrong while a commit is projected. */
  datatype Fault = NoFault | InEffect(at: nat) | InSave | InCommit

  class Projecter {
    const dispatcher: Dispatcher
    var checkpoint: int        // the projector's checkpoint, in memory
    var row: int               // its persisted checkpoint
    var db: seq<Effect>        // the projection database, in which the row lives too
    var nullsHandled: nat
    ghost var applied: seq<Commit>

    ghost predicate Valid()
      reads this
    {
      db == LogEffects(dispatcher, applied)
    }

    constructor (dispatcher: Dispatcher, checkpoint: int)
      ensures Valid() && applied == []
      ensures this.dispatcher == dispatcher && this.checkpoint == checkpoint && row == checkpoint && db == []
    {
      this.dispatcher := dispatcher;
      this.checkpoint := checkpoint;
      row := checkpoint;
      db := [];
      nullsHandled := 0;
      applied := [];
    }

    /** AdvanceProjectorCheckpoint. */
    method AdvanceProjectorCheckpoint(commit: Commit)
      modifies this`checkpoint
      ensures checkpoint == commit.token
    {
      checkpoint := commit.token;
    }

    /** The functions defined for one event, run in order inside the transaction. */
    method RunFunctions(commit: Commit, e: Event, pending: seq<Effect>, fault: Fault)
      returns (tx: seq<Effect>, threw: bool)
      requires fault.InEffect? ==> |pending| <= fault.at
      ensures threw ==>
        fault.InEffect? && fault.at < |pending + EventEffects(dispatcher.functions, commit.token, e)|
      ensures !threw ==> tx == pending + EventEffects(dispatcher.functions, commit.token, e)
      ensures !threw && fault.InEffect? ==> |tx| <= fault.at
      ensures !threw ==>
        pending <= tx && AreEventEffects(dispatcher.functions, commit.token, e, tx[|pending|..])
    {
      var functions := dispatcher.functions;
      ghost var positions := EventEffectsInOrder(functions, commit.token, e);
      tx := pending;
      threw := false;
      for k := 0 to |functions|
        invariant tx == pending + EventEffects(functions[..k], commit.token, e)
        invariant fault.InEffect? ==> |tx| <= fault.at
      {
        assert functions[..k + 1][..k] == functions[..k];
        if IsDefined(functions[k], e) {
          if fault.InEffect? && fault.at == |tx| {
            threw := true;
            EventEffectsPrefix(functions, k + 1, commit.token, e);
            return;
          }
          tx := tx + [Effect(functions[k].1, commit.token, e)];
        }
      }
      assert functions[..|functions|] == functions;
      assert tx[|pending|..] == EventEffects(functions, commit.token, e);
    }

    /** One event of it: a null event is reported, one without a body makes the test of the functions throw. */
    method DispatchEvent(commit: Commit, e: Event, pending: seq<Effect>, fault: Fault)
      returns (tx: seq<Effect>, threw: bool)
      requires fault.InEffect? ==> |pending| <= fault.at
      modifies this`nullsHandled
      ensures threw ==>
        || (e.NullBody? && dispatcher.functions != [])
        || (fault.InEffect? && fault.at < |pending + EventEffects(dispatcher.functions, commit.token, e)|)
      ensures !threw ==>
        && (!e.NullBody? || dispatcher.functions == [])
        && tx == pending + EventEffects(dispatcher.functions, commit.token, e)
        && (fault.InEffect? ==> |tx| <= fault.at)
      ensures nullsHandled == old(nullsHandled) + (if e.NullEvent? then 1 else 0)
      ensures e.NullEvent? ==> !threw
    {
      tx, threw := pending, false;
      if e.NullEvent? {
        nullsHandled := nullsHandled + 1;
        EventEffectsIff(dispatcher.functions, commit.token, e);
      } else if e.NullBody? && dispatcher.functions != [] {
        threw := true;
      } else {
        tx, threw := RunFunctions(commit, e, pending, fault);
      }
    }

    /** The dispatcher's Project: runs the effects of every event, then sets the checkpoint. When it throws,
        `failed` is the event it came to: one without a body, or that of the failing effect. */
    method Dispatch(commit: Commit, fault: Fault) returns (tx: seq<Effect>, threw: bool, ghost failed: nat)
      modifies this`checkpoint, this`nullsHandled
      ensures threw <==> Fails(dispatcher.functions, commit, fault)
      ensures threw ==> checkpoint == old(checkpoint)
      ensures threw ==>
        && failed < |commit.events|
        && (|| commit.events[failed].NullBody?
            || (fault.InEffect? && FailsIn(dispatcher.functions, commit, fault.at, failed)))
        && nullsHandled == old(nullsHandled) + NullsIn(commit.events[..failed])
      ensures !threw ==>
        && checkpoint == commit.token
        && tx == LegacyEffects(dispatcher.functions, commit.token, commit.events)
        && nullsHandled == old(nullsHandled) + NullsIn(commit.events)
    {
      tx, threw, failed := [], false, 0;
      for i := 0 to |commit.events|
        invariant Dispatched(dispatcher.functions, commit, i, tx, fault)
        invariant nullsHandled == old(nullsHandled) + NullsIn(commit.events[..i])
        invariant checkpoint == old(checkpoint)
      {
        ghost var before := tx;
        tx, threw := DispatchEvent(commit, commit.events[i], tx, fault);
        if threw {
          FailedWithin(dispatcher.functions, commit, fault, i, before);
          failed := i;
          return;
        }
        DispatchedOneMore(dispatcher.functions, commit, i, before, tx, fault);
      }
      DispatchedAll(dispatcher.functions, commit, tx, fault);
      AdvanceProjectorCheckpoint(commit);
    }

    /** LegacyProjectorConventionBasedCommitProjecter.Project. Effects and row change together or not at all.
        A failure leaves the checkpoint in memory where it was, except when the save or the commit of the
        transaction fails: by then it has moved, and the outcome is ThrowsAhead. saveNow is the one chance in
        99 with which a commit without effects saves its checkpoint. */
    method Project(commit: Commit, fault: Fault, saveNow: bool) returns (fate: Fate)
      requires Valid()
      modifies this
      ensures Valid() && applied == if fate.Completes? then old(applied) + [commit] else old(applied)
      ensures LegacyFate(c => CanProject(dispatcher, c), commit, fate) || fate.ThrowsAhead?
      ensures fate.Completes? || fate == Throws(false) || fate.ThrowsAhead?
      ensures fate.Completes? ==>
        checkpoint == commit.token && fate == Completes(CanProject(dispatcher, commit) || saveNow)
      ensures fate == Throws(false) ==> checkpoint == old(checkpoint)
      ensures fate.ThrowsAhead? ==> checkpoint == commit.token
      ensures db == if fate.Completes? && CanProject(dispatcher, commit)
        then old(db) + LegacyEffects(dispatcher.functions, commit.token, commit.events) else old(db)
      ensures fate.Completes? && CanProject(dispatcher, commit) ==>
        && old(db) <= db
        && AreCommitEffects(dispatcher.functions, commit.token, commit.events, db[|old(db)|..])
      ensures row == if fate.Completes? && (CanProject(dispatcher, commit) || saveNow) then commit.token else old(row)
      ensures fate == Throws(false) <==>
        || Unprojectable(dispatcher, commit)
        || (CanProject(dispatcher, commit) && Fails(dispatcher.functions, commit, fault))
      ensures fate.ThrowsAhead? <==>
        !Unprojectable(dispatcher, commit) &&
        (|| (fault.InSave? && (CanProject(dispatcher, commit) || saveNow))
         || (fault.InCommit? && CanProject(dispatcher, commit)))
    {
      assert (applied + [commit])[..|applied|] == applied;
      CanProjectReturns(dispatcher, commit);
      var canProject := CanProjectOrThrow(dispatcher, commit);
      if canProject.None? {
        return Throws(false);
      }
      if canProject.value {
        var tx, threw, _ := Dispatch(commit, fault);
        if threw {
          return Throws(false);
        }
        var pendingRow := checkpoint;
        if fault.InSave? || fault.InCommit? {
          return ThrowsAhead;  // the transaction is rolled back, the checkpoint in memory is not
        }
        db := db + tx;
        assert db[|old(db)|..] == tx;
        ghost var cuts := LegacyEffectsInOrder(dispatcher.functions, commit.token, commit.events);
        row := pendingRow;
        applied := applied + [commit];
        fate := Completes(true);
      } else {
        AdvanceProjectorCheckpoint(commit);
        if saveNow {
          if fault.InSave? {
            return ThrowsAhead;
          }
          row := checkpoint;
        }
        applied := applied + [commit];
        fate := Completes(saveNow);
      }
    }

    /** The stream processor's Advance around it, with the error handler that saves the checkpoint: checkpoint,
        saved row and applied commits change as in the state machine. */
    method Advance(commit: Commit, fault: Fault, saveNow: bool) returns (fate: Fate)
      requires Valid()
      modifies this
      ensures Valid()
      ensures LegacyFate(c => CanProject(dispatcher, c), commit, fate) || fate.ThrowsAhead?
      ensures forall p: Proc {:trigger StreamProcessor.Advance(p, commit, fate)} ::
        p.checkpoint == old(checkpoint) && p.saved == old(row) && p.applied == old(applied) ==>
          var q := StreamProcessor.Advance(p, commit, fate).p;
          checkpoint == q.checkpoint && row == q.saved && applied == q.applied
    {
      fate := Project(commit, fault, saveNow);
      if fate.Completes? {
        checkpoint := commit.token;
        if fate.persist {
          row := checkpoint;
        }
      } else {
        row := checkpoint;
      }
    }
  }

  lemma {:induction false} EventEffectsPrefix(functions: Functions, k: nat, token: int, e: Event)
    requires k <= |functions|
    ensures EventEffects(functions[..k], token, e) <= EventEffects(functions, token, e)
    decreases |functions|
  {
    if k == |functions| {
      assert functions[..k] == functions;
    } else {
      var n := |functions| - 1;
      EventEffectsPrefix(functions[..n], k, token, e);
      assert functions[..n][..k] == functions[..k];
    }
  }

  lemma {:induction false} LegacyEffectsPrefix(functions: Functions, k: nat, token: int, events: seq<Event>)
    requires k <= |events|
    ensures LegacyEffects(functions, token, events[..k]) <= LegacyEffects(functions, token, events)
    decreases |events|
  {
    if k == |events| {
      assert events[..k] == events;
    } else {
      var n := |events| - 1;
      LegacyEffectsPrefix(functions, k, token, events[..n]);
      assert events[..n][..k] == events[..k];
    }
  }
}
