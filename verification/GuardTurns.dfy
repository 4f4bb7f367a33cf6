/** Undisturbed turns of one client through the guard: exactly what `Execute` comes to. */
module GuardTurns {
  import opened Cache
  import KeyLock
  import opened LockGuard

  /** The client goes on alone. */
  ghost predicate OnlyBy<V>(p: nat, es: seq<Event<V>>) {
    forall i :: 0 <= i < |es| ==> (es[i].Submit? || es[i].Step? || es[i].Retry?) && es[i].p == p
  }

  /** `k` steps of client `p`. */
  function Steps<V>(p: nat, k: nat): (es: seq<Event<V>>)
    ensures OnlyBy(p, es)
  {
    if k == 0 then [] else [Step(p)] + Steps(p, k - 1)
  }

  lemma First<V>(s: Guard<V>, e: Event<V>, es: seq<Event<V>>)
    ensures Exec(s, [e] + es) == Exec(Next(s, e), es)
  {
    assert ([e] + es)[1..] == es;
    hide Next;
  }

  lemma OneStep<V>(s: Guard<V>, p: nat, k: nat)
    requires k > 0
    ensures Exec(s, Steps(p, k)) == Exec(Next(s, Step(p)), Steps(p, k - 1))
  {
    First(s, Step(p), Steps(p, k - 1));
    hide Next;
  }

  lemma NoSteps<V>(s: Guard<V>, p: nat)
    ensures Exec(s, Steps(p, 0)) == s
  {
  }

  lemma LockStep<V>(s: Guard<V>, lock: KeyLock.State, p: nat)
    requires p < |s.points| && s.points[p].Locking?
    requires p < |lock.procs| && !lock.procs[p].Crashed? && !KeyLock.Holds(lock, p, s.points[p].key)
    ensures Next(s.(lock := lock), Step(p)) == s.(lock := KeyLock.CallOf(lock, p, s.points[p].key in s.data))
  {
  }

  /** Wherever it is in `LockKey`, with the key there and unlocked, its steps lock it. */
  lemma {:induction false} GoesOn<V>(s: Guard<V>, lock: KeyLock.State, p: nat, k: nat)
    requires p < |s.points| && s.points[p].Locking? && s.points[p].key in s.data
    requires KeyLock.Approaching(lock, p) && lock.procs[p].key == s.points[p].key
    ensures Exec(s.(lock := lock), Steps(p, k + KeyLock.CallsLeft(lock.procs[p]))) ==
            Exec(s.(lock := KeyLock.Reached(lock, p)), Steps(p, k))
    decreases KeyLock.CallsLeft(lock.procs[p])
  {
    hide Exec, Steps, Next, KeyLock.CallOf, KeyLock.Reached;
    if lock.procs[p].Held? {
      KeyLock.Arrived(lock, p);
    } else {
      KeyLock.Nearer(lock, p);
      LockStep(s, lock, p);
      OneStep(s.(lock := lock), p, k + KeyLock.CallsLeft(lock.procs[p]));
      GoesOn(s, KeyLock.CallOf(lock, p, true), p, k);
    }
  }

  /** The client holds the lock that it took in `s`. */
  ghost function Inside<V>(s: Guard<V>, p: nat, lease: Duration): Guard<V>
    requires p < |s.points| && s.points[p].Locking? && p < |s.lock.procs|
  {
    s.(lock := KeyLock.Locked(s.lock, p, s.points[p].key, Some(lease)))
  }

  /** With the key there and unlocked, one turn of `Acquire`, cheap check included, locks it. */
  lemma LockKeyOf<V>(s: Guard<V>, p: nat, lease: Duration, k: nat)
    requires Waiting(s, p) && s.points[p].key in s.data && s.points[p].key !in s.lock.locks
    ensures Exec(s, [Retry(p, lease)] + Steps(p, k + 5)) == Exec(Inside(s, p, lease), Steps(p, k))
  {
    var ph := KeyLock.Peek(s.points[p].key, Some(lease));
    First(s, Retry(p, lease), Steps(p, k + 5));
    assert Next(s, Retry(p, lease)) == s.(lock := KeyLock.At(s.lock, p, ph));
    KeyLock.LockedFrom(s.lock, p, ph, s.points[p].key, Some(lease));
    GoesOn(s, KeyLock.At(s.lock, p, ph), p, k);
    hide Exec, Steps;
  }

  /** What an `Execute` by `p` makes of the state in which it waits for the lock. */
  ghost function Executed<V>(s: Guard<V>, p: nat): Guard<V>
    requires p < |s.points| && s.points[p].Locking? && p < |s.lock.procs|
  {
    var k, act := s.points[p].key, s.points[p].act;
    s.(lock := KeyLock.Freed(s.lock, p), data := Changed(s, k, act, Current(s, k)),
       points := s.points[p := Done(k, act, |s.log|)], log := s.log + [Entry(p, k, |s.lock.issuers|, act)])
  }

  /** The read and the write under the lock, and the way out of it. */
  lemma Inner<V>(s: Guard<V>, p: nat, lease: Duration)
    requires Waiting(s, p) && s.points[p].key in s.data && s.points[p].key !in s.lock.locks
    ensures Exec(Inside(s, p, lease), Steps(p, 5)) == Executed(s, p)
  {
    var k, act, l := s.points[p].key, s.points[p].act, KeyLock.Locked(s.lock, p, s.points[p].key, Some(lease));
    KeyLock.TurnEnds(s.lock, p, k, Some(lease));
    var s1 := Inside(s, p, lease);
    var s2 := Next(s1, Step(p));
    assert s2 == At(s1, p, Writing(k, act, Current(s, k)));
    var s3 := Next(s2, Step(p));
    var l0 := KeyLock.Next(l, KeyLock.BeginUnlock(p));
    assert s3.lock == l0 && s3.points == s.points[p := Leaving(k, act, |s.log|)];
    var s4 := Next(s3, Step(p));
    assert s4 == s3.(lock := KeyLock.CallOf(l0, p, true));
    var s5 := Next(s4, Step(p));
    assert s5 == s3.(lock := KeyLock.Freed(s.lock, p));
    assert Next(s5, Step(p)).points == s.points[p := Done(k, act, |s.log|)];
    assert Next(s5, Step(p)) == Executed(s, p);
    hide Exec, Steps, Next, Inside, Executed;
    OneStep(s1, p, 5);
    OneStep(s2, p, 4);
    OneStep(s3, p, 3);
    OneStep(s4, p, 2);
    OneStep(s5, p, 1);
    NoSteps(Executed(s, p), p);
  }

  /** A client that waits for a key that is there and unlocked completes its `Execute`. */
  lemma WaiterExecutes<V>(s: Guard<V>, p: nat, lease: Duration)
    requires Waiting(s, p) && s.points[p].key in s.data && s.points[p].key !in s.lock.locks
    ensures Exec(s, [Retry(p, lease)] + Steps(p, 10)) == Executed(s, p)
  {
    hide Exec, Steps, Executed, Inside;
    LockKeyOf(s, p, lease, 5);
    Inner(s, p, lease);
  }

  /** Up to the loop of `Acquire`: the key is there, by `EnsureKeyExists` or before. */
  lemma ToTheLoop<V>(s: Guard<V>, p: nat, k: Key, act: Action<V>, lease: Duration, ensure: bool) returns (es: seq<Event<V>>)
    requires Ready(s, p) && (ensure || k in s.data)
    ensures OnlyBy(p, es)
    ensures Exec(s, es) == At(s, p, Locking(k, act)).(data := if k in s.data then s.data else s.data[k := s.empty(k)])
  {
    var submit := Submit(p, k, act, lease, ensure);
    var s1 := Next(s, submit);
    var n := if !ensure then 0 else if k in s.data then 1 else 2;
    es := [submit] + Steps(p, n);
    First(s, submit, Steps(p, n));
    var goal := At(s, p, Locking(k, act)).(data := if k in s.data then s.data else s.data[k := s.empty(k)]);
    assert Next(Next(s1, Step(p)), Step(p)).points == goal.points || !ensure || k in s.data;
    if n > 0 {
      OneStep(s1, p, n);
    }
    if n > 1 {
      OneStep(Next(s1, Step(p)), p, 1);
    }
    NoSteps(goal, p);
    hide Exec, Steps;
  }

  /** An undisturbed `Execute` on a key whose lock is free returns: its action has taken effect on the value that was
      there, by the one new entry of the log; the lock is free again, and no other key or client is touched. */
  lemma ExecuteAlone<V>(s: Guard<V>, p: nat, k: Key, act: Action<V>, lease: Duration, ensure: bool) returns (es: seq<Event<V>>)
    requires Inv(s) && Ready(s, p) && k !in s.lock.locks && (ensure || k in s.data)
    ensures OnlyBy(p, es)
    ensures var s' := Exec(s, es);
      && s'.points == s.points[p := Done(k, act, |s.log|)]
      && s'.log == s.log + [Entry(p, k, |s.lock.issuers|, act)]
      && s'.lock.locks == s.lock.locks && s'.lock.procs == s.lock.procs[p := KeyLock.Idle]
      && Current(s', k) == Effect(s.empty(k), act, Current(s, k))
      && forall j :: j != k ==> Current(s', j) == Current(s, j) && (j in s'.data <==> j in s.data)
  {
    assert PointOk(s, p);
    var pre := ToTheLoop(s, p, k, act, lease, ensure);
    var s1 := Exec(s, pre);
    WaiterExecutes(s1, p, lease);
    ExecConcat(s, pre, [Retry(p, lease)] + Steps(p, 10));
    es := pre + ([Retry(p, lease)] + Steps(p, 10));
    assert s1.points[p := Done(k, act, |s.log|)] == s.points[p := Done(k, act, |s.log|)];
    assert s1.lock == s.lock && s1.log == s.log && s1.empty == s.empty && forall j :: Current(s1, j) == Current(s, j);
    hide Exec, Steps;
  }

  lemma {:induction false} ExecConcat<V>(s: Guard<V>, a: seq<Event<V>>, b: seq<Event<V>>)
    ensures Exec(s, a + b) == Exec(Exec(s, a), b)
    decreases |a|
  {
    if a == [] {
      assert a + b == b;
    } else {
      assert (a + b)[1..] == a[1..] + b;
      hide Next;
      ExecConcat(Next(s, a[0]), a[1..], b);
    }
  }

  /** A turn of `Acquire` on a key that is locked or absent gets nothing and changes nothing; the client may try
      again, or give up. */
  lemma TurnRefused<V>(s: Guard<V>, p: nat, lease: Duration)
    requires Waiting(s, p) && (s.points[p].key !in s.data || s.points[p].key in s.lock.locks)
    ensures var s' := Exec(s, [Retry(p, lease)] + Steps(p, 2));
      && s' == s.(lock := KeyLock.At(s.lock, p, KeyLock.Refused(s.points[p].key, None))) && Waiting(s', p)
      && Next(s', GiveUp(p)) == At(s', p, TimedOut)
  {
    var k := s.points[p].key;
    var s1 := Next(s, Retry(p, lease));
    var s2 := Next(s1, Step(p));
    var refused := s.(lock := KeyLock.At(s.lock, p, KeyLock.Refused(k, None)));
    assert s1 == s.(lock := KeyLock.At(s.lock, p, KeyLock.Peek(k, Some(lease))));
    LockStep(s, s1.lock, p);
    LockStep(s, s2.lock, p);
    assert Next(s2, Step(p)).lock.procs == refused.lock.procs;
    assert Next(s2, Step(p)) == refused;
    First(s, Retry(p, lease), Steps(p, 2));
    hide Exec, Steps;
    OneStep(s1, p, 2);
    OneStep(s2, p, 1);
    NoSteps(refused, p);
  }

  /** The holder of a key's lock dies, and time passes to the end of its lease. */
  lemma LockComesFree<V>(s: Guard<V>, p: nat, k: Key, d: nat)
    requires Inv(s) && Alive(s, p) && KeyLock.Owns(s.lock, p, k) && k in s.lock.locks && s.lock.locks[k].ends == Some(s.lock.now + d)
    requires KeyLock.LeasesKept(KeyLock.Next(s.lock, KeyLock.Crash(p)), s.lock.now + d)
    ensures var s' := Next(Next(s, Die(p)), Wait(d));
      && Inv(s') && k !in s'.lock.locks && s'.data == s.data && s'.log == s.log && s'.points == s.points && s'.empty == s.empty
      && !Alive(s', p) && forall q :: 0 <= q < |s.points| && q != p ==> q < |s'.lock.procs| && s'.lock.procs[q] == s.lock.procs[q]
  {
    assert KeyLock.ClientOk(s.lock, p);
    var s1 := Next(s, Die(p));
    NextInv(s, Die(p));
    NextInv(s1, Wait(d));
    KeyLock.LapsedIsPurged(s1.lock, k, s.lock.now + d);
    hide Inv, StepOf;
  }

  /** When a client dies with the lock in hand, the next `Execute` gets it once the lease has ended, and works on the value
      that the log says: an action whose write was not made yet has no effect. */
  lemma DeadHolderIsOvercome<V>(s: Guard<V>, p: nat, k: Key, d: nat, q: nat, act: Action<V>, lease: Duration, ensure: bool)
    returns (es: seq<Event<V>>)
    requires Inv(s) && Alive(s, p) && KeyLock.Owns(s.lock, p, k) && k in s.lock.locks && s.lock.locks[k].ends == Some(s.lock.now + d)
    requires KeyLock.LeasesKept(KeyLock.Next(s.lock, KeyLock.Crash(p)), s.lock.now + d)
    requires Ready(s, q) && q != p && (ensure || k in s.data)
    ensures var s' := Exec(s, [Die(p)] + ([Wait(d)] + es));
      && OnlyBy(q, es) && !Alive(s', p) && s'.points == s.points[q := Done(k, act, |s.log|)]
      && Current(s', k) == Effect(s.empty(k), act, Current(s, k)) && |s'.log| == |s.log| + 1
  {
    LockComesFree(s, p, k, d);
    var s1 := Next(s, Die(p));
    var s2 := Next(s1, Wait(d));
    es := ExecuteAlone(s2, q, k, act, lease, ensure);
    First(s, Die(p), [Wait(d)] + es);
    First(s1, Wait(d), es);
    hide Exec, Next;
  }
}
