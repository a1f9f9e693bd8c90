/** SqlProjector: which commits have effects, one transaction for all effects of a commit, and the table its
    checkpoint is saved in. */
module SqlProjector {
  import opened Prelude
  import opened CommitStore
  import opened StreamProcessor
  import opened CrashRecovery

  /** The dispatch table: event kind to projection method. */
  type Table = map<nat, nat>

  /** One call of a projection method. */
  datatype Effect = Effect(projection: nat, token: int, event: Event)

  // ------------------------------------------------------------------ ConventionBasedEventDispatcher

  predicate Dispatches(table: Table, e: Event) {
    e.Event? && e.kind in table
  }

  /** GetProjectionMethods: the method and event for each dispatched event of the commit, in order. */
  function ProjectionMethods(table: Table, events: seq<Event>): seq<(nat, Event)> {
    if events == [] then []
    else
      var e := events[|events| - 1];
      ProjectionMethods(table, events[..|events| - 1]) + (if Dispatches(table, e) then [(table[e.kind], e)] else [])
  }

  function Projects(table: Table): Commit -> bool {
    (c: Commit) => ProjectionMethods(table, c.events) != []
  }

  /** positions lists, in order and without omission, where the dispatched events are. */
  ghost predicate AllDispatched(table: Table, events: seq<Event>, positions: seq<nat>) {
    && (forall k :: 0 <= k < |positions| ==> positions[k] < |events|)
    && (forall k, l :: 0 <= k < l < |positions| ==> positions[k] < positions[l])
    && (forall i: nat :: i < |events| ==> (Dispatches(table, events[i]) <==> i in positions))
  }

  /** methods are the calls for the events at the given positions. */
  ghost predicate CallsAt(table: Table, events: seq<Event>, positions: seq<nat>, methods: seq<(nat, Event)>)
    requires AllDispatched(table, events, positions)
  {
    && |methods| == |positions|
    && forall k :: 0 <= k < |positions| ==>
        && Dispatches(table, events[positions[k]])
        && methods[k] == (table[events[positions[k]].kind], events[positions[k]])
  }

  /** Every non-null event with a method is dispatched once, to its method, in the commit's order; null events
      and events without a method are skipped. */
  lemma {:induction false} ProjectionMethodsInOrder(table: Table, events: seq<Event>) returns (positions: seq<nat>)
    ensures AllDispatched(table, events, positions)
    ensures CallsAt(table, events, positions, ProjectionMethods(table, events))
  {
    if events == [] {
      positions := [];
    } else {
      var rest := ProjectionMethodsInOrder(table, events[..|events| - 1]);
      positions := OneMoreDispatched(table, events, events[..|events| - 1], rest);
    }
  }

  lemma OneMoreDispatched(table: Table, events: seq<Event>, before: seq<Event>, rest: seq<nat>)
    returns (positions: seq<nat>)
    requires events != [] && before == events[..|events| - 1]
    requires AllDispatched(table, before, rest) && CallsAt(table, before, rest, ProjectionMethods(table, before))
    ensures AllDispatched(table, events, positions)
    ensures CallsAt(table, events, positions, ProjectionMethods(table, events))
  {
    var e := events[|events| - 1];
    LastOff(events);
    positions := if Dispatches(table, e) then rest + [|before|] else rest;
    OneMorePosition(table, before, e, events, rest, positions);
    OneMoreCall(table, before, e, events, rest, positions, ProjectionMethods(table, before),
      ProjectionMethods(table, events));
  }

  lemma OneMorePosition(table: Table, before: seq<Event>, e: Event, events: seq<Event>, rest: seq<nat>,
    positions: seq<nat>)
    requires AllDispatched(table, before, rest) && events == before + [e]
    requires positions == if Dispatches(table, e) then rest + [|before|] else rest
    ensures AllDispatched(table, events, positions)
  {
    forall i: nat | i < |events| ensures Dispatches(table, events[i]) <==> i in positions {
      assert i in rest ==> i in positions;
    }
  }

  lemma OneMoreCall(table: Table, before: seq<Event>, e: Event, events: seq<Event>, rest: seq<nat>,
    positions: seq<nat>, calls: seq<(nat, Event)>, calls': seq<(nat, Event)>)
    requires AllDispatched(table, before, rest) && CallsAt(table, before, rest, calls)
    requires events == before + [e] && AllDispatched(table, events, positions)
    requires positions == if Dispatches(table, e) then rest + [|before|] else rest
    requires calls' == calls + (if Dispatches(table, e) then [(table[e.kind], e)] else [])
    ensures CallsAt(table, events, positions, calls')
  {
    assert forall k :: 0 <= k < |rest| ==> events[rest[k]] == before[rest[k]];
  }

  /** A commit has effects exactly when some event of it is dispatched. */
  lemma ProjectsIff(table: Table, c: Commit)
    ensures Projects(table)(c) <==> exists e :: e in c.events && Dispatches(table, e)
  {
    var positions := ProjectionMethodsInOrder(table, c.events);
    if positions != [] {
      assert c.events[positions[0]] in c.events;
    }
    if e :| e in c.events && Dispatches(table, e) {
      var i :| 0 <= i < |c.events| && c.events[i] == e;
      assert i in positions;
    }
  }

  // ------------------------------------------------------------------ effects

  function Effects(methods: seq<(nat, Event)>, token: int): (r: seq<Effect>)
    ensures |r| == |methods|
  {
    seq(|methods|, k requires 0 <= k < |methods| => Effect(methods[k].0, token, methods[k].1))
  }

  function CommitEffects(table: Table, c: Commit): seq<Effect> {
    Effects(ProjectionMethods(table, c.events), c.token)
  }

  /** effects are, one by one and in order, what the methods do to the dispatched events of the commit. */
  ghost predicate EffectsAt(table: Table, c: Commit, positions: seq<nat>, effects: seq<Effect>)
    requires AllDispatched(table, c.events, positions)
  {
    && |effects| == |positions|
    && forall k :: 0 <= k < |positions| ==>
        && Dispatches(table, c.events[positions[k]])
        && effects[k] == Effect(table[c.events[positions[k]].kind], c.token, c.events[positions[k]])
  }

  ghost predicate AreEffectsOf(table: Table, c: Commit, effects: seq<Effect>) {
    exists positions :: AllDispatched(table, c.events, positions) && EffectsAt(table, c, positions, effects)
  }

  /** The effects of a commit: for each event that has a method, in the commit's order, that method on that event. */
  lemma CommitEffectsInOrder(table: Table, c: Commit)
    ensures AreEffectsOf(table, c, CommitEffects(table, c))
  {
    var positions := ProjectionMethodsInOrder(table, c.events);
    assert EffectsAt(table, c, positions, CommitEffects(table, c));
  }

  lemma GrowsInOrder(table: Table, c: Commit, before: seq<Effect>, after: seq<Effect>)
    requires after == before + CommitEffects(table, c)
    ensures before <= after && AreEffectsOf(table, c, after[|before|..])
  {
    Slices(before, CommitEffects(table, c));
    CommitEffectsInOrder(table, c);
  }

  function AllEffects(table: Table, s: seq<Commit>): seq<Effect> {
    if s == [] then [] else AllEffects(table, s[..|s| - 1]) + CommitEffects(table, s[|s| - 1])
  }

  /** The effects of a log are those of its commits with effects, so the theorems of CrashRecovery, which
      speak of those commits, speak of the effects. */
  lemma {:induction false} EffectsOfProjecting(table: Table, s: seq<Commit>)
    ensures AllEffects(table, s) == AllEffects(table, Only(Projects(table), s))
  {
    if s != [] {
      var before := s[..|s| - 1];
      var c := s[|s| - 1];
      EffectsOfProjecting(table, before);
      if Projects(table)(c) {
        var kept := Only(Projects(table), before);
        assert (kept + [c])[..|kept|] == kept;
      } else {
        assert Only(Projects(table), s) == Only(Projects(table), before) + [] == Only(Projects(table), before);
        assert CommitEffects(table, c) == [];
      }
    }
  }

  // ------------------------------------------------------------------ ProcessAsync

  /** How the transaction goes: an effect fails, or all succeed and the commit ends in one of three ways. */
  datatype Tx = EffectFails(at: nat) | Commits | CommitFails | CommitsButThrows

  class Projector {
    const table: Table
    var db: seq<Effect>       // the projection database
    ghost var applied: seq<Commit>

    ghost predicate Valid()
      reads this
    {
      db == AllEffects(table, applied)
    }

    constructor (table: Table)
      ensures Valid() && this.table == table && db == []
    {
      this.table := table;
      db := [];
      applied := [];
    }

    /** All or nothing: either every effect of the commit becomes durable, in order, or none does; the
        checkpoint is to be saved exactly when there were effects. Every outcome is a SqlFate. An event message
        without a body makes the look-up of its type throw, before anything is done. */
    method ProcessAsync(commit: Commit, tx: Tx) returns (fate: Fate)
      requires Valid()
      modifies this
      ensures Valid()
      ensures SqlFate(Projects(table), commit, fate)
      ensures fate.Completes? || fate.Throws?
      ensures applied == if fate == Throws(false) then old(applied) else old(applied) + [commit]
      ensures db == if fate == Throws(false) then old(db) else old(db) + CommitEffects(table, commit)
      ensures fate != Throws(false) ==> old(db) <= db && AreEffectsOf(table, commit, db[|old(db)|..])
      ensures fate == Throws(true) <==> NullBody !in commit.events && Projects(table)(commit) && tx.CommitsButThrows?
      ensures fate.Completes? <==>
        && NullBody !in commit.events
        && (|| !Projects(table)(commit) || tx.Commits?
            || (tx.EffectFails? && |ProjectionMethods(table, commit.events)| <= tx.at))
    {
      ghost var before := applied;
      assert (before + [commit])[..|before|] == before;
      if NullBody in commit.events {
        return Throws(false);
      }
      var projectionMethods := ProjectionMethods(table, commit.events);
      if projectionMethods == [] {
        GrowsInOrder(table, commit, db, db + []);
        applied := applied + [commit];
        return Completes(false);
      }
      var pending: seq<Effect> := [];
      for i := 0 to |projectionMethods|
        invariant pending == Effects(projectionMethods, commit.token)[..i]
        invariant db == old(db) && applied == before
        invariant tx.EffectFails? ==> i <= tx.at
      {
        if tx.EffectFails? && tx.at == i {
          return Throws(false);  // the transaction is disposed without a commit
        }
        pending := pending + [Effect(projectionMethods[i].0, commit.token, projectionMethods[i].1)];
      }
      assert pending == CommitEffects(table, commit);
      if tx.CommitFails? {
        return Throws(false);
      }
      db := db + pending;
      GrowsInOrder(table, commit, old(db), db);
      applied := applied + [commit];
      fate := if tx.CommitsButThrows? then Throws(true) else Completes(true);
    }
  }

  // ------------------------------------------------------------------ the checkpoint table

  const MAX_NAME: nat := 800

  /** GetPersistedName: names are cut to what the table's key column holds. */
  function PersistedName(fullName: string): string {
    if |fullName| <= MAX_NAME then fullName else fullName[..MAX_NAME]
  }

  function InitialCheckpoint(rows: map<string, int>, fullName: string): int {
    if PersistedName(fullName) in rows then rows[PersistedName(fullName)] else 0
  }

  function Persisted(rows: map<string, int>, fullName: string, checkpoint: int): map<string, int> {
    rows[PersistedName(fullName) := checkpoint]
  }

  /** A saved checkpoint is read back, and by exactly those processors whose names agree in the part kept. */
  lemma ReadBack(rows: map<string, int>, saver: string, checkpoint: int, reader: string)
    ensures InitialCheckpoint(Persisted(rows, saver, checkpoint), saver) == checkpoint
    ensures PersistedName(reader) != PersistedName(saver) ==>
      InitialCheckpoint(Persisted(rows, saver, checkpoint), reader) == InitialCheckpoint(rows, reader)
    ensures PersistedName(reader) == PersistedName(saver) <==>
      (reader == saver || (MAX_NAME <= |reader| && MAX_NAME <= |saver| && reader[..MAX_NAME] == saver[..MAX_NAME]))
  {
    if |reader| == MAX_NAME {
      assert reader[..MAX_NAME] == reader;
    }
    if |saver| == MAX_NAME {
      assert saver[..MAX_NAME] == saver;
    }
  }

  /** Names of at most 800 characters never get in each other's way. */
  lemma ShortNamesAreApart(rows: map<string, int>, saver: string, checkpoint: int, reader: string)
    requires |saver| <= 800 && |reader| <= 800 && saver != reader
    ensures InitialCheckpoint(Persisted(rows, saver, checkpoint), reader) == InitialCheckpoint(rows, reader)
  {
    ReadBack(rows, saver, checkpoint, reader);
  }

  lemma NamesAreCutAt800(name: string)
    ensures PersistedName(name) <= name
    ensures |PersistedName(name)| == if |name| <= 800 then |name| else 800
  {
  }

  /** One call to save a checkpoint. */
  datatype Save = Save(name: string, checkpoint: int)

  /** The table after a history of saves, oldest first. */
  function Rows(saves: seq<Save>): map<string, int> {
    if saves == [] then map[]
    else var s := saves[|saves| - 1]; Persisted(Rows(saves[..|saves| - 1]), s.name, s.checkpoint)
  }

  predicate SameRow(s: Save, name: string) {
    PersistedName(s.name) == PersistedName(name)
  }

  ghost predicate NoneSavedFrom(saves: seq<Save>, name: string, from: nat) {
    forall j :: from <= j < |saves| ==> !SameRow(saves[j], name)
  }

  lemma OneMoreSave(rows: map<string, int>, s: Save, name: string)
    ensures InitialCheckpoint(Persisted(rows, s.name, s.checkpoint), name)
      == if SameRow(s, name) then s.checkpoint else InitialCheckpoint(rows, name)
  {
  }

  /** What a processor starts from: 0 if no checkpoint was ever saved under the kept part of its name, ... */
  lemma {:induction false} NeverSavedIsZero(saves: seq<Save>, name: string)
    requires NoneSavedFrom(saves, name, 0)
    ensures InitialCheckpoint(Rows(saves), name) == 0
  {
    if saves != [] {
      var n := |saves| - 1;
      assert NoneSavedFrom(saves[..n], name, 0) by {
        assert forall j :: 0 <= j < n ==> saves[..n][j] == saves[j];
      }
      NeverSavedIsZero(saves[..n], name);
      OneMoreSave(Rows(saves[..n]), saves[n], name);
    }
  }

  /** ... else the one saved last. */
  lemma {:induction false} LastSavedIsRead(saves: seq<Save>, name: string, i: nat)
    requires i < |saves| && SameRow(saves[i], name) && NoneSavedFrom(saves, name, i + 1)
    ensures InitialCheckpoint(Rows(saves), name) == saves[i].checkpoint
    decreases |saves|
  {
    var n := |saves| - 1;
    OneMoreSave(Rows(saves[..n]), saves[n], name);
    if i < n {
      assert NoneSavedFrom(saves[..n], name, i + 1) by {
        assert forall j :: 0 <= j < n ==> saves[..n][j] == saves[j];
      }
      LastSavedIsRead(saves[..n], name, i);
    }
  }

  class CheckpointTable {
    var rows: map<string, int>

    method GetInitialCheckpointAsync(fullName: string) returns (c: int)
      ensures c == InitialCheckpoint(rows, fullName)
    {
      var name := PersistedName(fullName);
      if name in rows {
        return rows[name];
      }
      return 0;
    }

    /** The upsert: insert the row if there is none, then update it. */
    method PersistCheckpointAsync(fullName: string, checkpoint: int)
      modifies this
      ensures rows == Persisted(old(rows), fullName, checkpoint)
    {
      var name := PersistedName(fullName);
      if name !in rows {
        rows := rows[name := checkpoint];
      }
      rows := rows[name := checkpoint];
    }
  }
}
