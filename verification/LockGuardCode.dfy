/** `NCacheLockGuard` as code: making sure a key exists, the wait for its lock, and the guarded action. */
module LockGuardCode {
  import opened Cache
  import opened LockGuard

  /** What one turn of the wait loop finds: a lock record on the cheap check, `LockKey`'s answer, and the
      time waited when it asks. */
  datatype Turn = Turn(taken: bool, locked: bool, elapsed: nat)

  predicate Gets(t: Turn) {
    !t.taken && t.locked
  }

  /** The lock is got on turn `k`: no turn before it got it, nor ran out of time. */
  predicate GetsAt(turns: seq<Turn>, maxWait: nat, k: nat) {
    k < |turns| && Gets(turns[k]) && forall i :: 0 <= i < k ==> !Gets(turns[i]) && turns[i].elapsed < maxWait
  }

  predicate RunsOutAt(turns: seq<Turn>, maxWait: nat, k: nat) {
    k < |turns| && turns[k].elapsed >= maxWait && !Gets(turns[k])
    && forall i :: 0 <= i < k ==> !Gets(turns[i]) && turns[i].elapsed < maxWait
  }

  /** The value of a key; an absent one reads as its empty value. */
  function Read<V>(data: map<Key, V>, k: Key, empty: V): V {
    if k in data then data[k] else empty
  }

  /** Tries at least once, and again until it has the lock or has waited long enough. The clock passes the
      limit on some turn. */
  method Acquire(turns: seq<Turn>, maxWait: nat) returns (got: bool, turn: nat)
    requires exists i :: 0 <= i < |turns| && turns[i].elapsed >= maxWait
    ensures got ==> GetsAt(turns, maxWait, turn)
    ensures !got ==> RunsOutAt(turns, maxWait, turn)
  {
    var i := 0;
    while true
      invariant i < |turns| && forall j :: 0 <= j < i ==> !Gets(turns[j]) && turns[j].elapsed < maxWait
      invariant exists k :: i <= k < |turns| && turns[k].elapsed >= maxWait
      decreases |turns| - i
    {
      if !turns[i].taken {
        if turns[i].locked {
          return true, i;
        }
      }
      if turns[i].elapsed >= maxWait {
        return false, i;
      }
      i := i + 1;
    }
  }

  /** The two outcomes exclude each other, so what `Acquire` returns is settled by the turns alone. */
  lemma OneOutcome(turns: seq<Turn>, maxWait: nat, j: nat, k: nat)
    ensures !(GetsAt(turns, maxWait, j) && RunsOutAt(turns, maxWait, k))
    ensures GetsAt(turns, maxWait, j) && GetsAt(turns, maxWait, k) ==> j == k
  {
    if j < |turns| && k < |turns| {
      assert Gets(turns[j]) || !Gets(turns[j]);
      assert Gets(turns[k]) || !Gets(turns[k]);
    }
  }

  lemma NeverGets(turns: seq<Turn>, maxWait: nat, k: nat)
    requires RunsOutAt(turns, maxWait, k)
    ensures forall j :: !GetsAt(turns, maxWait, j)
  {
    forall j ensures !GetsAt(turns, maxWait, j) {
      OneOutcome(turns, maxWait, j, k);
    }
  }

  class GuardedCache<V> {
    var data: map<Key, V>

    /** `raced`: the value another process adds between the check and the `Add`. */
    method EnsureKeyExists(k: Key, factory: () -> V, raced: Option<V>)
      modifies this
      ensures data == if k in old(data) then old(data)
                      else old(data)[k := if raced.Some? then raced.value else factory()]
    {
      if k in data { return; }
      if raced.Some? {
        data := data[k := raced.value];
      }
      if k !in data {
        data := data[k := factory()];
      }
    }

    /** With the lock, the action takes effect once, on the value it read; without it, not at all. */
    method Execute(k: Key, act: Action<V>, empty: V, turns: seq<Turn>, maxWait: nat) returns (thrown: bool, turn: nat)
      requires exists i :: 0 <= i < |turns| && turns[i].elapsed >= maxWait
      modifies this
      ensures thrown ==> RunsOutAt(turns, maxWait, turn) && data == old(data)
      ensures !thrown ==> GetsAt(turns, maxWait, turn) && data - {k} == old(data) - {k}
      ensures !thrown ==> Read(data, k, empty) == Effect(empty, act, Read(old(data), k, empty))
    {
      var got;
      got, turn := Acquire(turns, maxWait);
      if !got {
        return true, turn;
      }
      thrown := false;
      var value := Read(data, k, empty);
      match act(value)
      case Put(w) => data := data[k := w];
      case Leave =>
      case Drop => data := data - {k};
    }

    method TryExecute(k: Key, act: Action<V>, empty: V, turns: seq<Turn>, maxWait: nat) returns (done: bool)
      requires exists i :: 0 <= i < |turns| && turns[i].elapsed >= maxWait
      modifies this
      ensures done <==> exists n :: GetsAt(turns, maxWait, n)
      ensures !done ==> data == old(data)
      ensures done ==> Read(data, k, empty) == Effect(empty, act, Read(old(data), k, empty)) && data - {k} == old(data) - {k}
    {
      var thrown, turn;
      thrown, turn := Execute(k, act, empty, turns, maxWait);
      done := !thrown;
      if thrown {
        NeverGets(turns, maxWait, turn);
      }
    }
  }
}
