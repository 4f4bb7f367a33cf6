/** Undisturbed turns of one client at the tag index: exactly what an add and a removal come to. */
module TagTurns {
  import opened Cache
  import KeyLock
  import opened TagIndex

  /** In `n` steps of its own the client comes from `s` to `s'`. */
  predicate Comes(s: Index, p: nat, n: nat, s': Index) {
    Exec(s, Steps(p, n)) == s'
  }

  lemma Stays(s: Index, p: nat)
    ensures Comes(s, p, 0, s)
  {
  }

  lemma Onward(s: Index, p: nat, s1: Index, n: nat, s': Index)
    requires Next(s, Step(p)) == s1 && Comes(s1, p, n, s')
    ensures Comes(s, p, n + 1, s')
  {
    OneStep(s, p, n + 1);
    hide Next, Steps;
  }

  lemma {:induction false} Further(s: Index, p: nat, n: nat, s1: Index, k: nat, s': Index)
    requires Comes(s, p, n, s1) && Comes(s1, p, k, s')
    ensures Comes(s, p, n + k, s')
    decreases n
  {
    hide Next, Steps, Exec;
    if n == 0 {
      NoSteps(s, p);
    } else {
      OneStep(s, p, n);
      OneStep(s, p, n + k);
      Further(Next(s, Step(p)), p, n - 1, s1, k, s');
    }
  }

  /** The client holds the tag's lock, which it took in `s`. */
  function Inner(s: Index, p: nat, lease: Option<Duration>): Index
    requires p < |s.lock.procs|
  {
    s.(lock := KeyLock.Locked(s.lock, p, TAG, lease))
  }

  lemma LocksTag(s: Index, lease: Option<Duration>, p: nat)
    requires p < |s.points| && p < |s.lock.procs| && Locking(s.points[p]) && s.list.Some? && TAG !in s.lock.locks
    ensures Comes(s.(lock := KeyLock.At(s.lock, p, KeyLock.CheckKey(TAG, lease))), p, 4, Inner(s, p, lease))
  {
    var ph := KeyLock.CheckKey(TAG, lease);
    KeyLock.LockedFrom(s.lock, p, ph, TAG, lease);
    GoesOn(s, KeyLock.At(s.lock, p, ph), p, 0);
    NoSteps(Inner(s, p, lease), p);
    hide Exec, Steps;
  }

  /** The tag's list and the cached items, as a turn leaves them, and its books. */
  function LeaveWith(s: Index, p: nat, pt: Point, list: Option<seq<nat>>, items: set<nat>, books: Index): Index
    requires p < |s.points|
  {
    s.(points := s.points[p := pt], list := list, items := items, since := books.since, swept := books.swept,
       written := books.written, lock := KeyLock.Next(s.lock, KeyLock.BeginUnlock(p)))
  }

  /** The turn is over, and its client has left the lock as it found it. */
  function Over(s: Index, p: nat, pt: Point, list: Option<seq<nat>>, items: set<nat>, books: Index): Index
    requires p < |s.points| && p < |s.lock.procs|
  {
    s.(points := s.points[p := pt], list := list, items := items, since := books.since, swept := books.swept,
       written := books.written, lock := KeyLock.Freed(s.lock, p))
  }

  /** The point after the unlock. */
  function Finished(pt: Point): Point {
    if pt.UnlockAdd? then Added(pt.key) else Removed
  }

  lemma UnlockStep(s: Index, p: nat)
    requires Alive(s, p) && Unlocking(s.points[p])
    ensures Next(s, Step(p)) ==
      if s.lock.procs[p].Idle? then At(s, p, Finished(s.points[p])) else s.(lock := KeyLock.CallOf(s.lock, p, true))
  {
  }

  /** Three steps unlock the tag and finish the turn. */
  lemma WayOut(s: Index, p: nat, lease: Option<Duration>, pt: Point, list: Option<seq<nat>>, items: set<nat>, books: Index)
    requires p < |s.points| && p < |s.lock.procs| && TAG !in s.lock.locks && Unlocking(pt)
    ensures Comes(LeaveWith(Inner(s, p, lease), p, pt, list, items, books), p, 3, Over(s, p, Finished(pt), list, items, books))
  {
    KeyLock.TurnEnds(s.lock, p, TAG, lease);
    var s1, end := LeaveWith(Inner(s, p, lease), p, pt, list, items, books), Over(s, p, Finished(pt), list, items, books);
    var s2 := s1.(lock := KeyLock.CallOf(s1.lock, p, true));
    var s3 := s1.(lock := KeyLock.Freed(s.lock, p));
    assert At(s3, p, Finished(pt)).points == end.points;
    UnlockStep(s1, p);
    UnlockStep(s2, p);
    UnlockStep(s3, p);
    hide Next, Comes, KeyLock.CallOf, KeyLock.Locked, KeyLock.Next, Finished;
    Stays(end, p);
    Onward(s3, p, end, 0, end);
    Onward(s2, p, s3, 1, end);
    Onward(s1, p, s2, 2, end);
  }

  // ---- An add ----

  /** The books of an add. */
  function AddBooks(s: Index, k: nat): Index {
    s.(since := s.since + [k], written := s.written + {k})
  }

  lemma AddCalls(s: Index, p: nat, k: nat)
    requires Alive(s, p) && KeyLock.Holds(s.lock, p, TAG) && s.points[p] == LockAdd(k)
    ensures Comes(s, p, 3, LeaveWith(s, p, UnlockAdd(k), Some(Listed(s) + [k]), s.items + {k}, AddBooks(s, k)))
  {
    var s1 := At(s, p, WriteItem(k, Listed(s)));
    var s2 := At(s, p, WriteList(k, Listed(s))).(items := s.items + {k}, written := s.written + {k});
    var end := LeaveWith(s, p, UnlockAdd(k), Some(Listed(s) + [k]), s.items + {k}, AddBooks(s, k));
    assert Next(s, Step(p)) == s1 && Next(s1, Step(p)) == s2 && Next(s2, Step(p)) == end;
    hide Next, Comes, LeaveWith;
    Stays(end, p);
    Onward(s2, p, end, 0, end);
    Onward(s1, p, s2, 1, end);
    Onward(s, p, s1, 2, end);
  }

  lemma AddTurn(s: Index, p: nat, k: nat)
    requires Waiting(s, p) && s.points[p] == LockAdd(k) && s.list.Some? && TAG !in s.lock.locks
    ensures Exec(s, [Retry(p)] + Steps(p, 10)) == Over(s, p, Added(k), Some(Listed(s) + [k]), s.items + {k}, AddBooks(s, k))
  {
    var s1 := s.(lock := KeyLock.At(s.lock, p, KeyLock.CheckKey(TAG, None)));
    var s2 := Inner(s, p, None);
    var list, items := Some(Listed(s) + [k]), s.items + {k};
    First(s, Retry(p), Steps(p, 10));
    assert Next(s, Retry(p)) == s1;
    LocksTag(s, None, p);
    AddCalls(s2, p, k);
    assert LeaveWith(s2, p, UnlockAdd(k), list, items, AddBooks(s2, k)) == LeaveWith(s2, p, UnlockAdd(k), list, items, AddBooks(s, k));
    hide Next, LeaveWith, Over, Inner;
    WayOut(s, p, None, UnlockAdd(k), list, items, AddBooks(s, k));
    Further(s2, p, 3, LeaveWith(s2, p, UnlockAdd(k), list, items, AddBooks(s, k)), 3, Over(s, p, Added(k), list, items, AddBooks(s, k)));
    Further(s1, p, 4, s2, 6, Over(s, p, Added(k), list, items, AddBooks(s, k)));
  }

  /** What one client's undisturbed operation comes to; the lock and all other clients are as before. */
  predicate Returns(s: Index, s': Index, p: nat, pt: Point, list: Option<seq<nat>>, items: set<nat>) {
    && p < |s.points| && p < |s.lock.procs|
    && s'.points == s.points[p := pt] && s'.list == list && s'.items == items
    && s'.lock.locks == s.lock.locks && |s'.lock.procs| == |s.lock.procs|
    && forall q :: 0 <= q < |s.lock.procs| && q != p ==> s'.lock.procs[q] == s.lock.procs[q]
  }

  ghost predicate OnlyBy(p: nat, es: seq<Event>) {
    forall i :: 0 <= i < |es| ==> (es[i].SubmitAdd? || es[i].SubmitRemove? || es[i].Retry? || es[i].Step?) && es[i].p == p
  }

  lemma {:induction false} StepsOnlyBy(p: nat, k: nat)
    ensures OnlyBy(p, Steps(p, k))
  {
    if k > 0 { StepsOnlyBy(p, k - 1); }
  }

  /** Up to the loop around `LockKey`, with the tag there. */
  lemma ToAddLoop(s: Index, p: nat, k: nat) returns (n: nat)
    requires Alive(s, p) && s.points[p] == Look(k)
    ensures Comes(s, p, n, At(s, p, LockAdd(k)).(list := Some(Listed(s))))
  {
    var goal := At(s, p, LockAdd(k)).(list := Some(Listed(s)));
    var s1 := Next(s, Step(p));
    n := if s.list.None? then 2 else 1;
    assert if n == 1 then s1 == goal else s1 == At(s, p, AddTag(k)) && Next(s1, Step(p)) == goal;
    hide Next, Comes;
    Stays(goal, p);
    if n == 2 { Onward(s1, p, goal, 0, goal); }
    Onward(s, p, s1, n - 1, goal);
  }

  /** With the tag unlocked, an undisturbed add returns: its key is the last of the list, and its item in the cache. */
  lemma AddAlone(s: Index, p: nat, k: nat) returns (es: seq<Event>)
    requires Inv(s) && Ready(s, p) && TAG !in s.lock.locks
    ensures OnlyBy(p, es) && Returns(s, Exec(s, es), p, Added(k), Some(Listed(s) + [k]), s.items + {k})
  {
    assert PointOk(s, p);
    var s1 := At(s, p, Look(k));
    var n := ToAddLoop(s1, p, k);
    var s2 := At(s, p, LockAdd(k)).(list := Some(Listed(s)));
    assert At(s1, p, LockAdd(k)).(list := Some(Listed(s1))) == s2;
    AddTurn(s2, p, k);
    First(s, SubmitAdd(p, k), Steps(p, n) + ([Retry(p)] + Steps(p, 10)));
    ExecConcat(s1, Steps(p, n), [Retry(p)] + Steps(p, 10));
    es := [SubmitAdd(p, k)] + (Steps(p, n) + ([Retry(p)] + Steps(p, 10)));
    StepsOnlyBy(p, n);
    StepsOnlyBy(p, 10);
    assert s2.points[p := Added(k)] == s.points[p := Added(k)];
    hide Exec, Steps;
  }

  // ---- A removal ----

  function RemoveBooks(s: Index): Index {
    s.(since := [], swept := {})
  }

  /** How many steps it takes under the lock. */
  function RemoveLength(s: Index): nat {
    if Listed(s) == [] then 2 else 3
  }

  lemma RemoveCalls(s: Index, p: nat)
    requires Alive(s, p) && KeyLock.Holds(s.lock, p, TAG) && s.points[p].LockRem?
    ensures Comes(s, p, RemoveLength(s), LeaveWith(s, p, UnlockRem, None, s.items - Elements(Listed(s)), RemoveBooks(s)))
  {
    var end := LeaveWith(s, p, UnlockRem, None, s.items - Elements(Listed(s)), RemoveBooks(s));
    Stays(end, p);
    if Listed(s) == [] {
      var s1 := At(s, p, RemTag);
      assert s.items - Elements(Listed(s)) == s.items;
      assert Next(s, Step(p)) == s1 && Next(s1, Step(p)) == end;
      hide Next, Comes, LeaveWith;
      Onward(s1, p, end, 0, end);
      Onward(s, p, s1, 1, end);
    } else {
      var s1 := At(s, p, RemBulk(Listed(s)));
      var s2 := At(s, p, RemTag).(items := s.items - Elements(Listed(s)), swept := s.swept + Elements(Listed(s)));
      assert Next(s, Step(p)) == s1 && Next(s1, Step(p)) == s2 && Next(s2, Step(p)) == end;
      hide Next, Comes, LeaveWith;
      Onward(s2, p, end, 0, end);
      Onward(s1, p, s2, 1, end);
      Onward(s, p, s1, 2, end);
    }
  }

  lemma RemoveTurn(s: Index, p: nat)
    requires Alive(s, p) && s.points[p].LockRem? && s.list.Some? && TAG !in s.lock.locks
    requires s.lock.procs[p] == KeyLock.CheckKey(TAG, Some(LEASE))
    ensures Comes(s, p, RemoveLength(s) + 7, Over(s, p, Removed, None, s.items - Elements(Listed(s)), RemoveBooks(s)))
  {
    var items, n := s.items - Elements(Listed(s)), RemoveLength(s);
    var s2, end := Inner(s, p, Some(LEASE)), Over(s, p, Removed, None, s.items - Elements(Listed(s)), RemoveBooks(s));
    LocksTag(s, Some(LEASE), p);
    assert s.(lock := KeyLock.At(s.lock, p, KeyLock.CheckKey(TAG, Some(LEASE)))) == s;
    RemoveCalls(s2, p);
    assert LeaveWith(s2, p, UnlockRem, None, items, RemoveBooks(s2)) == LeaveWith(s2, p, UnlockRem, None, items, RemoveBooks(s));
    hide Next, LeaveWith, Over, Inner;
    WayOut(s, p, Some(LEASE), UnlockRem, None, items, RemoveBooks(s));
    Further(s2, p, n, LeaveWith(s2, p, UnlockRem, None, items, RemoveBooks(s)), 3, end);
    Further(s, p, 4, s2, n + 3, end);
  }

  /** With the tag unlocked, an undisturbed removal returns: the tag and all the items it listed are gone. */
  lemma RemoveAlone(s: Index, p: nat) returns (es: seq<Event>)
    requires Inv(s) && Ready(s, p) && TAG !in s.lock.locks
    ensures OnlyBy(p, es) && Returns(s, Exec(s, es), p, Removed, None, s.items - Elements(Listed(s)))
  {
    assert PointOk(s, p);
    var s1 := At(s, p, RemLook);
    var n := if s.list.None? then 1 else RemoveLength(s) + 8;
    var s2 := Next(s1, Step(p));
    es := [SubmitRemove(p)] + Steps(p, n);
    First(s, SubmitRemove(p), Steps(p, n));
    OneStep(s1, p, n);
    StepsOnlyBy(p, n);
    if s.list.None? {
      assert s2 == At(s1, p, Removed) && s.items - Elements(Listed(s)) == s.items;
      NoSteps(s2, p);
    } else {
      RemoveTurn(s2, p);
      assert s2.points[p := Removed] == s.points[p := Removed];
    }
    hide Exec, Steps;
  }

  /** The tag is locked by a client that died as it was adding: its lock has no lease. */
  ghost predicate Blocked(s: Index, p: nat) {
    && Inv(s) && KeyLock.OwnerAt(s.lock, TAG, p) && p < |s.points| && s.lock.procs[p].Crashed? && s.lock.locks[TAG].ends.None?
  }

  /** So it is, once such a client has died. */
  lemma DyingAdderBlocks(s: Index, p: nat)
    requires Inv(s) && Alive(s, p) && KeyLock.Owns(s.lock, p, TAG) && TAG in s.lock.locks && s.lock.locks[TAG].ends.None?
    ensures Blocked(Next(s, Die(p)), p)
  {
    assert KeyLock.ClientOk(s.lock, p);
    NextInv(s, Die(p));
  }

  /** A remover's lock has a lease: when the remover dies with it in hand, the next add gets in once that has ended. */
  lemma DeadRemoverIsOvercome(s: Index, p: nat, d: nat, q: nat, k: nat) returns (es: seq<Event>)
    requires Inv(s) && Alive(s, p) && KeyLock.Owns(s.lock, p, TAG) && TAG in s.lock.locks && s.lock.locks[TAG].ends == Some(s.lock.now + d)
    requires KeyLock.LeasesKept(KeyLock.Next(s.lock, KeyLock.Crash(p)), s.lock.now + d) && Ready(s, q) && q != p
    ensures var s' := Exec(s, [Die(p)] + ([Wait(d)] + es));
      OnlyBy(q, es) && q < |s'.points| && s'.points[q] == Added(k) && s'.list == Some(Listed(s) + [k]) && s'.items == s.items + {k}
  {
    assert KeyLock.ClientOk(s.lock, p);
    var s1 := Next(s, Die(p));
    var s2 := Next(s1, Wait(d));
    NextInv(s, Die(p));
    NextInv(s1, Wait(d));
    KeyLock.LapsedIsPurged(s1.lock, TAG, s.lock.now + d);
    es := AddAlone(s2, q, k);
    First(s, Die(p), [Wait(d)] + es);
    First(s1, Wait(d), es);
    hide Exec, Next, Inv;
  }

  lemma LockMoves(s: Index, e: Event) returns (le: seq<KeyLock.Event>)
    requires |s.points| == |s.lock.procs|
    ensures KeyLock.Orderly(le) && |le| <= 1 && Next(s, e).lock == KeyLock.Exec(s.lock, le)
  {
    var l' := Next(s, e).lock;
    if l' == s.lock {
      le := [];
    } else {
      le := if e.Wait? then [KeyLock.Tick(e.d)] else if e.Die? then [KeyLock.Crash(e.p)]
        else if e.Retry? then [if s.points[e.p].LockRem? then KeyLock.Begin(e.p, TAG, Some(LEASE), false) else KeyLock.Begin(e.p, TAG, None, false)]
        else if s.points[e.p].RemLook? then [KeyLock.Begin(e.p, TAG, Some(LEASE), false)]
        else if KeyLock.Holds(s.lock, e.p, TAG) then [KeyLock.BeginUnlock(e.p)]
        else if Locking(s.points[e.p]) then [KeyLock.Call(e.p, s.list.Some?)]
        else [KeyLock.Call(e.p, true)];
      KeyLock.ExecOne(s.lock, le[0]);
    }
  }

  lemma BlockedStep(s: Index, e: Event, p: nat)
    requires Blocked(s, p)
    ensures Blocked(Next(s, e), p)
  {
    NextInv(s, e);
    var le := LockMoves(s, e);
    KeyLock.NoLeaseNeverLapses(s.lock, le, p, TAG);
    KeyLock.ExecCrashed(s.lock, p, le);
    assert KeyLock.OwnerAt(s.lock, TAG, p) && KeyLock.OwnerAt(Next(s, e).lock, TAG, p);
    hide Next, Inv;
  }

  lemma NobodyElseHolds(s: Index, p: nat)
    requires Blocked(s, p)
    ensures forall q: nat :: !KeyLock.Holds(s.lock, q, TAG)
  {
    forall q: nat ensures !KeyLock.Holds(s.lock, q, TAG) {
      if q < |s.lock.procs| {
        assert KeyLock.ClientOk(s.lock, q) && KeyLock.ClientOk(s.lock, p);
      }
    }
  }

  /** An adder that dies with the tag's lock in hand blocks the tag for good: in every later run, however much time passes,
      nobody gets the lock, so that no add or removal is ever completed again and the list stays as it is. */
  lemma {:induction false} DeadAdderBlocksForGood(s: Index, p: nat, es: seq<Event>)
    requires Blocked(s, p)
    ensures Blocked(Exec(s, es), p) && forall q: nat :: !KeyLock.Holds(Exec(s, es).lock, q, TAG)
    ensures s.list.Some? ==> Exec(s, es).list == s.list
    decreases |es|
  {
    NobodyElseHolds(s, p);
    if es != [] {
      BlockedStep(s, es[0], p);
      if s.list.Some? { ListStays(s, es[0]); }
      hide Next, Blocked;
      DeadAdderBlocksForGood(Next(s, es[0]), p, es[1..]);
    }
  }

  lemma ListStays(s: Index, e: Event)
    requires s.list.Some? && forall q: nat :: !KeyLock.Holds(s.lock, q, TAG)
    ensures Next(s, e).list == s.list
  {
  }
}
