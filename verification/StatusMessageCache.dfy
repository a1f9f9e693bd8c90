/** The ring buffer that keeps a stream processor's last status messages. */
module StatusMessageCache {
  import opened Prelude

  /** The next index after `last`; -1 before the first message. */
  function NextIndex(last: int, capacity: nat): int
    requires 0 < capacity && -1 <= last
  {
    (last + 1) % capacity
  }

  lemma NextIndexIs(n: nat, capacity: nat)
    requires 0 < capacity
    ensures NextIndex(if n == 0 then -1 else (n - 1) % capacity, capacity) == n % capacity
  {
    if 0 < n {
      var q, r := (n - 1) / capacity, (n - 1) % capacity;
      assert n - 1 == q * capacity + r;
      if r + 1 < capacity {
        ModIs(n, capacity, q, r + 1);
      } else {
        assert n == (q + 1) * capacity;
        ModIs(n, capacity, q + 1, 0);
      }
    }
  }

  /** A multiple of k is 0 or at least k away from it. */
  lemma Multiples(d: int, k: nat)
    ensures d == 0 ==> d * k == 0
    ensures 1 <= d ==> k <= d * k
    ensures d <= -1 ==> d * k + k <= 0
  {
    if 1 <= d {
      assert (d - 1) * k >= 0;
    } else if d <= -1 {
      assert (-d - 1) * k >= 0;
    }
  }

  lemma ModIs(n: int, k: nat, q: int, r: nat)
    requires 0 < k && r < k && n == q * k + r
    ensures n % k == r
  {
    var d := q - n / k;
    Multiples(d, k);
    assert n == (n / k) * k + n % k;
    assert d * k == q * k - (n / k) * k;
  }

  /** Two messages fewer than `capacity` apart are in different slots. */
  lemma DistinctSlots(j: nat, n: nat, capacity: nat)
    requires j < n < j + capacity
    ensures j % capacity != n % capacity
  {
    var d := n / capacity - j / capacity;
    Multiples(d, capacity);
    assert d * capacity == (n / capacity) * capacity - (j / capacity) * capacity;
    assert n - j == d * capacity + (n % capacity - j % capacity);
  }

  lemma SlotInRange(j: nat, capacity: nat)
    requires 0 < capacity
    ensures 0 <= j % capacity < capacity
    ensures j < capacity ==> j % capacity == j
  {
  }

  /** Message j sits in slot j mod capacity for each of the last `capacity` messages; a slot that has not been
      reached yet is empty. */
  ghost predicate HoldsLast<T>(slots: seq<Option<T>>, history: seq<T>, capacity: nat)
    requires 0 < capacity
  {
    && |slots| == capacity
    && (forall j: nat :: j < |history| && |history| - capacity <= j ==> Slot(slots, j, capacity) == Some(history[j]))
    && (forall i :: |history| <= i < capacity ==> slots[i] == None)
  }

  function Slot<T>(slots: seq<Option<T>>, j: nat, capacity: nat): Option<T>
    requires 0 < capacity && |slots| == capacity
  {
    SlotInRange(j, capacity);
    slots[j % capacity]
  }

  /** The buffer after a history of messages, with the index used last. */
  function AddAll<T>(history: seq<T>, capacity: nat): (r: (seq<Option<T>>, int))
    requires 0 < capacity
    ensures |r.0| == capacity && -1 <= r.1 < capacity
  {
    if history == [] then (seq(capacity, i => None), -1)
    else
      var (slots, last) := AddAll(history[..|history| - 1], capacity);
      var next := NextIndex(last, capacity);
      (slots[next := Some(history[|history| - 1])], next)
  }

  lemma AddHoldsLast<T>(slots: seq<Option<T>>, history: seq<T>, m: T, capacity: nat)
    requires 0 < capacity && HoldsLast(slots, history, capacity)
    ensures 0 <= |history| % capacity < capacity
    ensures HoldsLast(slots[|history| % capacity := Some(m)], history + [m], capacity)
  {
    var n := |history|;
    SlotInRange(n, capacity);
    var slots' := slots[n % capacity := Some(m)];
    forall j: nat | j < n + 1 && n + 1 - capacity <= j ensures Slot(slots', j, capacity) == Some((history + [m])[j]) {
      if j < n {
        DistinctSlots(j, n, capacity);
        assert Slot(slots, j, capacity) == Some(history[j]);
      }
    }
  }

  /** After any messages the buffer holds exactly the last ones, each in its slot. */
  lemma {:induction false} RingBufferHoldsLast<T>(history: seq<T>, capacity: nat)
    requires 0 < capacity
    ensures HoldsLast(AddAll(history, capacity).0, history, capacity)
    ensures AddAll(history, capacity).1 == if history == [] then -1 else (|history| - 1) % capacity
  {
    if history != [] {
      var before := history[..|history| - 1];
      var m := history[|history| - 1];
      RingBufferHoldsLast(before, capacity);
      NextIndexIs(|before|, capacity);
      AddHoldsLast(AddAll(before, capacity).0, before, m, capacity);
      assert before + [m] == history;
    }
  }

  class StatusCache<T> {
    const statuses: array<Option<T>>
    var lastStatusIndex: int
    ghost var history: seq<T>

    ghost predicate Valid()
      reads this, statuses
    {
      0 < statuses.Length && (statuses[..], lastStatusIndex) == AddAll(history, statuses.Length)
    }

    /** A capacity of 0 would make AddStatus divide by zero. */
    constructor (numberOfStatusToKeep: nat)
      requires 0 < numberOfStatusToKeep
      ensures Valid() && fresh(statuses) && statuses.Length == numberOfStatusToKeep && history == []
    {
      statuses := new Option<T>[numberOfStatusToKeep](_ => None);
      lastStatusIndex := -1;
      history := [];
      new;
      assert statuses[..] == seq(numberOfStatusToKeep, i => None);
    }

    method AddStatus(internalState: T)
      requires Valid()
      modifies this, statuses
      ensures Valid() && history == old(history) + [internalState]
      ensures HoldsLast(statuses[..], history, statuses.Length)
    {
      lastStatusIndex := (lastStatusIndex + 1) % statuses.Length;
      statuses[lastStatusIndex] := Some(internalState);
      history := history + [internalState];
      assert history[..|history| - 1] == old(history);
      RingBufferHoldsLast(history, statuses.Length);
    }
  }
}
