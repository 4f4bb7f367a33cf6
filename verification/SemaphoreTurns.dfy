/** Undisturbed turns of one client at the semaphore, and what a disposed handle leaves behind. */
module SemaphoreTurns {
  import opened Cache
  import KeyLock
  import opened Semaphore
  import opened SemaphoreCode

  // ---- A disposed handle has left the semaphore ----

  /** The client has taken its slot off the list. */
  predicate OffList(pt: Point) {
    pt.DisRemove? || pt.DisUnlock? || pt.Disposed?
  }

  /** And its record out of the cache. */
  predicate OffCache(pt: Point) {
    pt.DisUnlock? || pt.Disposed?
  }

  predicate Left(s: Sem, pt: Point) {
    && (OffList(pt) ==> pt.mine.id !in Ids(s.list))
    && (OffCache(pt) ==> pt.mine.id !in s.records)
  }

  ghost predicate AllLeft(s: Sem) {
    forall p :: 0 <= p < |s.points| ==> Left(s, s.points[p])
  }

  /** A step of `p` that takes no identity of another client back. */
  lemma OthersLeft(s: Sem, s': Sem, p: nat)
    requires Inv(s) && AllLeft(s) && p < |s.points| && Own(s.points[p]).Some?
    requires |s'.points| == |s.points| && s'.points == s.points[p := s'.points[p]] && Left(s', s'.points[p])
    requires Ids(s'.list) <= Ids(s.list) + {s.points[p].mine.id}
    requires forall id :: id in s'.records ==> id in s.records || id == s.points[p].mine.id
    ensures AllLeft(s')
  {
    forall q | 0 <= q < |s'.points| ensures Left(s', s'.points[q]) {
      assert PointOk(s, p) && PointOk(s, q) && Left(s, s.points[q]);
    }
  }

  lemma StoreLeft(s: Sem, p: nat)
    requires Inv(s) && AllLeft(s) && Enabled(s, p) && (s.points[p].Store? || s.points[p].AddRecord?)
    ensures AllLeft(DataStep(s, p))
  {
    assert PointOk(s, p);
    if s.points[p].Store? {
      WithoutIds(s.list, s.points[p].dead);
      IdsSnoc(Without(s.list, s.points[p].dead), s.points[p].mine);
    }
    OthersLeft(s, DataStep(s, p), p);
  }

  lemma DisposeLeft(s: Sem, p: nat)
    requires Inv(s) && AllLeft(s) && Enabled(s, p) && (s.points[p].DisStore? || s.points[p].DisRemove? || s.points[p].DisLock?)
    ensures AllLeft(DataStep(s, p))
  {
    assert PointOk(s, p) && Left(s, s.points[p]);
    WithoutIds(s.list, {s.points[p].mine.id});
    OthersLeft(s, DataStep(s, p), p);
  }

  /** A step that changes neither list nor records, and leaves its client as far as it was. */
  lemma QuietLeft(s: Sem, s': Sem, p: nat)
    requires AllLeft(s) && p < |s.points| && |s'.points| == |s.points| && s'.points == s.points[p := s'.points[p]]
    requires s'.list == s.list && s'.records == s.records && Left(s, s'.points[p])
    ensures AllLeft(s')
  {
    forall q | 0 <= q < |s'.points| ensures Left(s', s'.points[q]) {
      assert Left(s, s.points[q]);
    }
  }

  lemma StepLeft(s: Sem, p: nat)
    requires Inv(s) && AllLeft(s) && Alive(s, p)
    ensures AllLeft(StepOf(s, p))
  {
    var pt := s.points[p];
    assert PointOk(s, p) && Left(s, pt);
    if Enabled(s, p) {
      if pt.Store? || pt.AddRecord? { StoreLeft(s, p); }
      else if pt.DisStore? || pt.DisRemove? || pt.DisLock? { DisposeLeft(s, p); }
      else { QuietLeft(s, DataStep(s, p), p); }
    } else {
      QuietLeft(s, StepOf(s, p), p);
    }
  }

  lemma NextLeft(s: Sem, e: Event)
    requires Inv(s) && AllLeft(s)
    ensures AllLeft(Next(s, e))
  {
    var s' := Next(s, e);
    if e.Step? {
      if Alive(s, e.p) { StepLeft(s, e.p); }
    } else if (e.Acquire? || e.Dispose? || e.GiveUp?) && e.p < |s.points| {
      QuietLeft(s, s', e.p);
    } else {
      forall q | 0 <= q < |s'.points| ensures Left(s', s'.points[q]) {
        assert Left(s, s.points[q]);
      }
    }
  }

  lemma {:induction false} ExecLeft(s: Sem, es: seq<Event>)
    requires Inv(s) && AllLeft(s)
    ensures AllLeft(Exec(s, es))
    decreases |es|
  {
    if es != [] {
      NextInv(s, es[0]);
      NextLeft(s, es[0]);
      hide Next, Inv, AllLeft;
      ExecLeft(Next(s, es[0]), es[1..]);
    }
  }

  /** In every run, a handle that has been disposed is off the list and has no record: its slot is free. */
  lemma {:induction false} DisposedMeansReleased(n: nat, capacity: nat, lasts: Duration, es: seq<Event>, p: nat)
    ensures var s := Exec(Init(n, capacity, lasts), es);
      p < |s.points| && s.points[p].Disposed? ==> s.points[p].mine.id !in Ids(s.list) && s.points[p].mine.id !in s.records
  {
    InitInv(n, capacity, lasts);
    ExecLeft(Init(n, capacity, lasts), es);
    var s := Exec(Init(n, capacity, lasts), es);
    if p < |s.points| { assert Left(s, s.points[p]); }
  }

  // ---- One client alone ----

  /** In `n` steps of its own the client comes from `s` to `s'`. */
  predicate Comes(s: Sem, p: nat, n: nat, s': Sem) {
    Exec(s, Steps(p, n)) == s'
  }

  lemma Stays(s: Sem, p: nat)
    ensures Comes(s, p, 0, s)
  {
  }

  lemma Onward(s: Sem, p: nat, s1: Sem, n: nat, s': Sem)
    requires Next(s, Step(p)) == s1 && Comes(s1, p, n, s')
    ensures Comes(s, p, n + 1, s')
  {
    assert Steps(p, n + 1)[1..] == Steps(p, n);
    hide Next;
  }

  lemma {:induction false} Further(s: Sem, p: nat, n: nat, s1: Sem, k: nat, s': Sem)
    requires Comes(s, p, n, s1) && Comes(s1, p, k, s')
    ensures Comes(s, p, n + k, s')
    decreases n
  {
    if n > 0 {
      assert Steps(p, n)[1..] == Steps(p, n - 1);
      var s2 := Next(s, Step(p));
      hide Next;
      Further(s2, p, n - 1, s1, k, s');
      assert Steps(p, n + k)[1..] == Steps(p, n - 1 + k);
    } else {
      assert Steps(p, k) == Steps(p, n + k);
    }
  }

  lemma LockStep(s: Sem, lock: KeyLock.State, p: nat)
    requires p < |s.points| && Locking(s.points[p])
    requires p < |lock.procs| && !lock.procs[p].Crashed? && !KeyLock.Holds(lock, p, KEY)
    ensures Next(s.(lock := lock), Step(p)) == s.(lock := KeyLock.CallOf(lock, p, true))
  {
  }

  /** Wherever it is in `LockKey`, with the list unlocked, its steps lock it. */
  lemma {:induction false} GoesOn(s: Sem, lock: KeyLock.State, p: nat)
    requires p < |s.points| && Locking(s.points[p]) && KeyLock.Approaching(lock, p) && lock.procs[p].key == KEY
    ensures Comes(s.(lock := lock), p, KeyLock.CallsLeft(lock.procs[p]), s.(lock := KeyLock.Reached(lock, p)))
    decreases KeyLock.CallsLeft(lock.procs[p])
  {
    hide Comes, Next, KeyLock.CallOf, KeyLock.Reached;
    if lock.procs[p].Held? {
      KeyLock.Arrived(lock, p);
      Stays(s.(lock := lock), p);
    } else {
      KeyLock.Nearer(lock, p);
      LockStep(s, lock, p);
      var lock' := KeyLock.CallOf(lock, p, true);
      GoesOn(s, lock', p);
      Onward(s.(lock := lock), p, s.(lock := lock'), KeyLock.CallsLeft(lock'.procs[p]), s.(lock := KeyLock.Reached(lock', p)));
    }
  }

  predicate CanLock(s: Sem, p: nat) {
    Waiting(s, p) && KEY !in s.lock.locks
  }

  /** The client holds the lock that it took in `s`. */
  function Inner(s: Sem, p: nat): Sem
    requires p < |s.lock.procs|
  {
    s.(lock := KeyLock.Locked(s.lock, p, KEY, Some(s.lasts)))
  }

  lemma InnerIs(s: Sem, p: nat)
    requires CanLock(s, p)
    ensures Alive(Inner(s, p), p) && KeyLock.Holds(Inner(s, p).lock, p, KEY)
  {
  }

  /** The state at the start of `UnlockKey`, with the list, records and identities that the turn leaves. */
  function LeaveWith(s: Sem, p: nat, pt: Point, list: seq<Holder>, records: map<Id, nat>, makers: seq<nat>): Sem
    requires p < |s.points|
  {
    s.(points := s.points[p := pt], list := list, records := records, makers := makers,
       lock := KeyLock.Next(s.lock, KeyLock.BeginUnlock(p)))
  }

  /** The turn is over, and its client has left the lock as it found it. */
  function Over(s: Sem, p: nat, pt: Point, list: seq<Holder>, records: map<Id, nat>, makers: seq<nat>): Sem
    requires p < |s.points| && p < |s.lock.procs|
  {
    s.(points := s.points[p := pt], list := list, records := records, makers := makers, lock := KeyLock.Freed(s.lock, p))
  }

  lemma UnlockStep(s: Sem, p: nat)
    requires Alive(s, p) && Unlocking(s.points[p])
    ensures Next(s, Step(p)) ==
      if s.lock.procs[p].Idle? then At(s, p, Finish(s.points[p])) else s.(lock := KeyLock.CallOf(s.lock, p, true))
  {
  }

  /** Three steps unlock the list and finish the turn. */
  lemma WayOut(s: Sem, p: nat, pt: Point, list: seq<Holder>, records: map<Id, nat>, makers: seq<nat>)
    requires CanLock(s, p) && Unlocking(pt)
    ensures Comes(LeaveWith(Inner(s, p), p, pt, list, records, makers), p, 3, Over(s, p, Finish(pt), list, records, makers))
  {
    KeyLock.TurnEnds(s.lock, p, KEY, Some(s.lasts));
    var s1, end := LeaveWith(Inner(s, p), p, pt, list, records, makers), Over(s, p, Finish(pt), list, records, makers);
    var s2 := s1.(lock := KeyLock.CallOf(s1.lock, p, true));
    var s3 := s1.(lock := KeyLock.Freed(s.lock, p));
    assert At(s3, p, Finish(pt)).points == end.points;
    UnlockStep(s1, p);
    UnlockStep(s2, p);
    UnlockStep(s3, p);
    hide Next, Comes, KeyLock.CallOf, KeyLock.Locked, KeyLock.Next, Finish;
    Stays(end, p);
    Onward(s3, p, end, 0, end);
    Onward(s2, p, s3, 1, end);
    Onward(s1, p, s2, 2, end);
  }

  lemma First(s: Sem, e: Event, es: seq<Event>)
    ensures Exec(s, [e] + es) == Exec(Next(s, e), es)
  {
    assert ([e] + es)[1..] == es;
    hide Next;
  }

  /** A whole turn from the loop around `LockKey`, whose calls under the lock are `n` steps. */
  lemma WholeTurn(s: Sem, p: nat, n: nat, pt: Point, list: seq<Holder>, records: map<Id, nat>, makers: seq<nat>)
    requires CanLock(s, p) && Unlocking(pt)
    requires Comes(Inner(s, p), p, n, LeaveWith(Inner(s, p), p, pt, list, records, makers))
    ensures Exec(s, [Retry(p)] + Steps(p, n + 7)) == Over(s, p, Finish(pt), list, records, makers)
  {
    var l := KeyLock.At(s.lock, p, KeyLock.CheckKey(KEY, Some(s.lasts)));
    var end := Over(s, p, Finish(pt), list, records, makers);
    First(s, Retry(p), Steps(p, n + 7));
    assert Next(s, Retry(p)) == s.(lock := l);
    hide Next, KeyLock.Reached, KeyLock.Approaching, KeyLock.Locked;
    KeyLock.Enters(s.lock, p, KEY, Some(s.lasts), false);
    GoesOn(s, l, p);
    WayOut(s, p, pt, list, records, makers);
    Further(Inner(s, p), p, n, LeaveWith(Inner(s, p), p, pt, list, records, makers), 3, end);
    Further(s.(lock := l), p, 4, Inner(s, p), n + 3, end);
    hide Next, Inner, LeaveWith, Over;
  }

  // ---- Under the lock ----

  /** The client has drawn an identity and stores the list with it. */
  lemma StoreCalls(s: Sem, p: nat, list: seq<Holder>, mine: Holder, dead: set<Id>)
    requires Alive(s, p) && KeyLock.Holds(s.lock, p, KEY) && s.points[p] == Store(list, mine, dead)
    ensures Comes(s, p, 2, LeaveWith(s, p, AcqUnlock(mine), list, s.records[mine.id := s.lock.now + s.lasts], s.makers))
  {
    var s1 := At(s, p, AddRecord(mine)).(list := list);
    var s2 := LeaveWith(s, p, AcqUnlock(mine), list, s.records[mine.id := s.lock.now + s.lasts], s.makers);
    assert Next(s, Step(p)) == s1;
    assert Next(s1, Step(p)).points == s2.points;
    assert Next(s1, Step(p)) == s2;
    hide Next, Comes, LeaveWith;
    Stays(s2, p);
    Onward(s1, p, s2, 0, s2);
    Onward(s, p, s1, 1, s2);
  }

  function Mine(s: Sem): Holder {
    Holder(|s.makers|, s.lock.now + s.lasts)
  }

  /** What an `Acquire` leaves: the list with the new holder, or as it was. */
  function Acquired(s: Sem): (seq<Holder>, bool) {
    var dead := Dead(s.list, s.records, s.lock.now);
    if |s.list| < s.capacity then (s.list + [Mine(s)], true)
    else if dead != {} && |Without(s.list, dead)| < s.capacity then (Without(s.list, dead) + [Mine(s)], true)
    else (s.list, false)
  }

  /** How many steps that takes under the lock. */
  function AcquireLength(s: Sem): nat {
    if |s.list| < s.capacity then 3 else |s.list| + 2 + if Acquired(s).1 then 2 else 0
  }

  function AcquireLeaves(s: Sem, p: nat): Sem
    requires p < |s.points|
  {
    if Acquired(s).1
    then LeaveWith(s, p, AcqUnlock(Mine(s)), Acquired(s).0, s.records[|s.makers| := s.lock.now + s.lasts], s.makers + [p])
    else LeaveWith(s, p, FullUnlock, s.list, s.records, s.makers)
  }

  lemma AcquireCalls(s: Sem, p: nat)
    requires Alive(s, p) && KeyLock.Holds(s.lock, p, KEY) && s.points[p].AcqLock?
    ensures Comes(s, p, AcquireLength(s), AcquireLeaves(s, p))
  {
    if |s.list| < s.capacity {
      RoomCalls(s, p);
    } else {
      FullCalls(s, p);
    }
  }

  lemma RoomCalls(s: Sem, p: nat)
    requires Alive(s, p) && KeyLock.Holds(s.lock, p, KEY) && s.points[p].AcqLock? && |s.list| < s.capacity
    ensures Comes(s, p, 3, AcquireLeaves(s, p))
  {
    var s1 := At(s, p, Store(s.list + [Mine(s)], Mine(s), {})).(makers := s.makers + [p]);
    assert Next(s, Step(p)) == s1;
    StoreCalls(s1, p, s.list + [Mine(s)], Mine(s), {});
    var end := AcquireLeaves(s, p);
    assert LeaveWith(s1, p, AcqUnlock(Mine(s)), s.list + [Mine(s)], s1.records[Mine(s).id := s.lock.now + s.lasts], s1.makers) == end;
    hide Next, Comes, AcquireLeaves, LeaveWith;
    Onward(s, p, s1, 2, end);
  }

  lemma FullCalls(s: Sem, p: nat)
    requires Alive(s, p) && KeyLock.Holds(s.lock, p, KEY) && s.points[p].AcqLock? && |s.list| >= s.capacity
    ensures Comes(s, p, AcquireLength(s), AcquireLeaves(s, p))
  {
    var dead := Dead(s.list, s.records, s.lock.now);
    var s1, s2 := At(s, p, Scan(s.list, 0, {})), At(s, p, Scan(s.list, |s.list|, dead));
    assert Next(s, Step(p)) == s1;
    ScanFindsTheDead(s1, p);
    assert s.list[0..] == s.list && {} + dead == dead && At(s1, p, Scan(s.list, |s.list|, dead)) == s2;
    ScannedCalls(s, p);
    var end := AcquireLeaves(s, p);
    var n := AcquireLength(s) - |s.list| - 1;
    assert Comes(s1, p, |s.list|, s2);
    hide Next, Comes, AcquireLeaves, Dead;
    Further(s1, p, |s.list|, s2, n, end);
    Onward(s, p, s1, |s.list| + n, end);
  }

  /** After the scan: drop the dead and try once more, or give up. */
  lemma ScannedCalls(s: Sem, p: nat)
    requires Alive(s, p) && KeyLock.Holds(s.lock, p, KEY) && |s.list| >= s.capacity
    ensures var dead := Dead(s.list, s.records, s.lock.now);
      Comes(At(s, p, Scan(s.list, |s.list|, dead)), p, AcquireLength(s) - |s.list| - 1, AcquireLeaves(s, p))
  {
    var dead := Dead(s.list, s.records, s.lock.now);
    var s2, end := At(s, p, Scan(s.list, |s.list|, dead)), AcquireLeaves(s, p);
    if Acquired(s).1 {
      var s3 := At(s, p, Store(Acquired(s).0, Mine(s), dead)).(makers := s.makers + [p]);
      assert Next(s2, Step(p)) == s3;
      StoreCalls(s3, p, Acquired(s).0, Mine(s), dead);
      assert LeaveWith(s3, p, AcqUnlock(Mine(s)), Acquired(s).0, s3.records[Mine(s).id := s.lock.now + s.lasts], s3.makers) == end;
      hide Next, Comes, AcquireLeaves, LeaveWith, Dead;
      Onward(s2, p, s3, 2, end);
    } else {
      assert Next(s2, Step(p)) == end;
      hide Next, Comes, AcquireLeaves, Dead;
      Stays(end, p);
      Onward(s2, p, end, 0, end);
    }
  }

  /** How many steps a `Dispose` takes under the lock. */
  function DisposeLength(s: Sem, mine: Holder): nat {
    if mine.id in Ids(s.list) then 3 else 1
  }

  function DisposeLeaves(s: Sem, p: nat, mine: Holder): Sem
    requires p < |s.points|
  {
    if mine.id in Ids(s.list)
    then LeaveWith(s, p, DisUnlock(mine), Without(s.list, {mine.id}), s.records - {mine.id}, s.makers)
    else LeaveWith(s, p, DisUnlock(mine), s.list, s.records, s.makers)
  }

  lemma DisposeCalls(s: Sem, p: nat, mine: Holder)
    requires Alive(s, p) && KeyLock.Holds(s.lock, p, KEY) && s.points[p] == DisLock(mine)
    ensures Comes(s, p, DisposeLength(s, mine), DisposeLeaves(s, p, mine))
  {
    var end := DisposeLeaves(s, p, mine);
    Stays(end, p);
    if mine.id in Ids(s.list) {
      var s1 := At(s, p, DisStore(Without(s.list, {mine.id}), mine));
      var s2 := At(s, p, DisRemove(mine)).(list := Without(s.list, {mine.id}));
      assert Next(s, Step(p)) == s1 && Next(s1, Step(p)) == s2 && Next(s2, Step(p)) == end;
      hide Next, Comes, DisposeLeaves;
      Onward(s2, p, end, 0, end);
      Onward(s1, p, s2, 1, end);
      Onward(s, p, s1, 2, end);
    } else {
      assert Next(s, Step(p)) == end;
      hide Next, Comes, DisposeLeaves;
      Onward(s, p, end, 0, end);
    }
  }

  // ---- Main results ----

  /** What one client's undisturbed operation comes to; the lock and all other clients are as before. */
  predicate Returns(s: Sem, s': Sem, p: nat, pt: Point, list: seq<Holder>, records: map<Id, nat>) {
    && p < |s.points| && p < |s.lock.procs|
    && s'.points == s.points[p := pt] && s'.list == list && s'.records == records
    && s'.lock.locks == s.lock.locks && s'.lock.procs == s.lock.procs[p := KeyLock.Idle]
  }

  ghost predicate OnlyBy(p: nat, es: seq<Event>) {
    forall i :: 0 <= i < |es| ==> es[i] == Acquire(p) || es[i] == Dispose(p) || es[i] == Retry(p) || es[i] == Step(p)
  }

  /** With the list unlocked, an undisturbed `Acquire` gets a slot if there is room, or if some holder is dead; it drops the
      dead in the latter case alone. Else it returns without one and leaves all as it was. */
  lemma AcquireAlone(s: Sem, p: nat) returns (es: seq<Event>)
    requires Inv(s) && Alive(s, p) && (s.points[p].Out? || s.points[p].Disposed?) && KEY !in s.lock.locks
    ensures OnlyBy(p, es)
    ensures var s', mine, dead := Exec(s, es), Holder(|s.makers|, s.lock.now + s.lasts), Dead(s.list, s.records, s.lock.now);
      if |s.list| < s.capacity then
        Returns(s, s', p, Holding(mine), s.list + [mine], s.records[mine.id := s.lock.now + s.lasts])
      else if dead != {} then
        Returns(s, s', p, Holding(mine), Without(s.list, dead) + [mine], s.records[mine.id := s.lock.now + s.lasts])
      else Returns(s, s', p, Out, s.list, s.records)
  {
    assert PointOk(s, p);
    var dead := Dead(s.list, s.records, s.lock.now);
    WithoutIds(s.list, dead);
    if dead != {} { DeadAreListed(s.list, s.records, s.lock.now); }
    hide Dead, Without, Returns, Exec;
    es := AcquireTurn(s, p);
  }

  lemma AcquireTurn(s: Sem, p: nat) returns (es: seq<Event>)
    requires Alive(s, p) && (s.points[p].Out? || s.points[p].Disposed?) && Outside(s.lock.procs[p]) && KEY !in s.lock.locks
    ensures OnlyBy(p, es)
    ensures if Acquired(s).1 then
        Returns(s, Exec(s, es), p, Holding(Mine(s)), Acquired(s).0, s.records[|s.makers| := s.lock.now + s.lasts])
      else Returns(s, Exec(s, es), p, Out, s.list, s.records)
  {
    hide Exec, Next, Dead, Comes, Returns, LeaveWith, Over, KeyLock.Locked;
    var s1 := At(s, p, AcqLock);
    Asks(s, p);
    SameOffer(s, s1, p);
    var n := AcquireLength(s);
    es := [Acquire(p)] + ([Retry(p)] + Steps(p, n + 7));
    First(s, Acquire(p), [Retry(p)] + Steps(p, n + 7));
    AcquireCalls(Inner(s1, p), p);
    var list, records := Acquired(s).0, s.records[|s.makers| := s.lock.now + s.lasts];
    if Acquired(s).1 {
      WholeTurn(s1, p, n, AcqUnlock(Mine(s)), list, records, s.makers + [p]);
      OverReturns(s, s1, p, Holding(Mine(s)), list, records, s.makers + [p]);
    } else {
      WholeTurn(s1, p, n, FullUnlock, s.list, s.records, s.makers);
      OverReturns(s, s1, p, Out, s.list, s.records, s.makers);
    }
  }

  lemma Asks(s: Sem, p: nat)
    requires Alive(s, p) && (s.points[p].Out? || s.points[p].Disposed?) && Outside(s.lock.procs[p]) && KEY !in s.lock.locks
    ensures Next(s, Acquire(p)) == At(s, p, AcqLock) && CanLock(At(s, p, AcqLock), p)
  {
  }

  /** Neither its point nor its lock changes what the client is offered. */
  lemma SameOffer(s: Sem, s1: Sem, p: nat)
    requires p < |s.points| && p < |s.lock.procs| && |s1.points| == |s.points| && s1 == At(s, p, s1.points[p]) && s1.points[p].AcqLock?
    requires !s.lock.procs[p].Crashed?
    ensures var s2 := Inner(s1, p);
      && Acquired(s2) == Acquired(s) && Mine(s2) == Mine(s) && AcquireLength(s2) == AcquireLength(s)
      && s2.records == s.records && s2.makers == s.makers && s2.list == s.list && s2.lock.now == s.lock.now && s2.lasts == s.lasts
      && Alive(s2, p) && KeyLock.Holds(s2.lock, p, KEY) && s2.points == s1.points
  {
  }

  lemma OverReturns(s: Sem, s1: Sem, p: nat, pt: Point, list: seq<Holder>, records: map<Id, nat>, makers: seq<nat>)
    requires p < |s.points| && p < |s.lock.procs| && |s1.points| == |s.points| && s1 == At(s, p, s1.points[p])
    ensures Returns(s, Over(s1, p, pt, list, records, makers), p, pt, list, records)
  {
    assert s1.points[p := pt] == s.points[p := pt];
  }

  lemma DeadAreListed(list: seq<Holder>, records: map<Id, nat>, now: nat)
    requires Dead(list, records, now) != {}
    ensures Ids(list) * Dead(list, records, now) != {}
  {
    var id :| id in Dead(list, records, now);
    assert id in Ids(list) * Dead(list, records, now);
  }

  /** With the list unlocked, an undisturbed `Dispose` of a listed handle takes its slot off the list and its record out of
      the cache; of any other handle it changes nothing. */
  lemma DisposeAlone(s: Sem, p: nat) returns (es: seq<Event>)
    requires Inv(s) && Alive(s, p) && s.points[p].Holding? && KEY !in s.lock.locks
    ensures OnlyBy(p, es)
    ensures var s', mine := Exec(s, es), s.points[p].mine;
      Returns(s, s', p, Disposed(mine), Without(s.list, {mine.id}), s.records - {mine.id})
  {
    assert PointOk(s, p);
    var mine := s.points[p].mine;
    if mine.id !in Ids(s.list) {
      AbsentStays(s.list, mine.id);
      assert s.records - {mine.id} == s.records;
    }
    hide Exec, Without, Ids, Returns;
    es := DisposeTurn(s, p);
  }

  lemma Gives(s: Sem, p: nat)
    requires Alive(s, p) && s.points[p].Holding? && Outside(s.lock.procs[p]) && KEY !in s.lock.locks
    ensures Next(s, Dispose(p)) == At(s, p, DisLock(s.points[p].mine)) && CanLock(At(s, p, DisLock(s.points[p].mine)), p)
  {
  }

  lemma DisposeTurn(s: Sem, p: nat) returns (es: seq<Event>)
    requires Alive(s, p) && s.points[p].Holding? && Outside(s.lock.procs[p]) && KEY !in s.lock.locks
    ensures OnlyBy(p, es)
    ensures var mine := s.points[p].mine;
      if mine.id in Ids(s.list) then Returns(s, Exec(s, es), p, Disposed(mine), Without(s.list, {mine.id}), s.records - {mine.id})
      else Returns(s, Exec(s, es), p, Disposed(mine), s.list, s.records)
  {
    hide Exec, Comes, Without, KeyLock.Locked, LeaveWith, Over, Returns;
    var mine := s.points[p].mine;
    var s1 := At(s, p, DisLock(mine));
    Gives(s, p);
    InnerIs(s1, p);
    DisposeCalls(Inner(s1, p), p, mine);
    var n := DisposeLength(s, mine);
    es := [Dispose(p)] + ([Retry(p)] + Steps(p, n + 7));
    First(s, Dispose(p), [Retry(p)] + Steps(p, n + 7));
    if mine.id in Ids(s.list) {
      WholeTurn(s1, p, n, DisUnlock(mine), Without(s.list, {mine.id}), s.records - {mine.id}, s.makers);
      OverReturns(s, s1, p, Disposed(mine), Without(s.list, {mine.id}), s.records - {mine.id}, s.makers);
    } else {
      WholeTurn(s1, p, n, DisUnlock(mine), s.list, s.records, s.makers);
      OverReturns(s, s1, p, Disposed(mine), s.list, s.records, s.makers);
    }
  }

  lemma {:induction false} AbsentStays(list: seq<Holder>, id: Id)
    requires id !in Ids(list)
    ensures Without(list, {id}) == list
  {
    if list != [] {
      assert list == [list[0]] + list[1..];
      IdsConcat([list[0]], list[1..]);
      assert Ids([list[0]]) == {list[0].id} by { assert [list[0]][0] == list[0]; }
      AbsentStays(list[1..], id);
    }
  }

  /** Time takes away the records that have lapsed and no other; nobody else's doing changes a client's place. */
  lemma OnlyLapsedRecordsGo(s: Sem, d: nat)
    requires KeyLock.LeasesKept(s.lock, s.lock.now + d)
    ensures var s' := Next(s, Wait(d));
      && s'.lock.now == s.lock.now + d && s'.list == s.list && s'.points == s.points
      && (forall id :: id in s'.records <==> id in s.records && s.records[id] > s.lock.now + d)
      && (forall id :: id in s'.records ==> s'.records[id] == s.records[id])
  {
  }

  /** Without its `Dispose` a holder's slot comes free too, when its date and its record have run out: the next client that
      finds the list full takes it. */
  lemma LapsedSlotIsTaken(s: Sem, q: nat, d: nat, i: nat) returns (es: seq<Event>)
    requires Inv(s) && Alive(s, q) && s.points[q].Out? && KEY !in Next(s, Wait(d)).lock.locks
    requires KeyLock.LeasesKept(s.lock, s.lock.now + d) && |s.list| == s.capacity
    requires i < |s.list| && s.list[i].expiry < s.lock.now + d
    requires s.list[i].id in s.records ==> s.records[s.list[i].id] <= s.lock.now + d
    ensures q < |Exec(s, es).points| && Exec(s, es).points[q].Holding? && s.list[i].id !in Ids(Exec(s, es).list) - {|s.makers|}
  {
    var s1 := Next(s, Wait(d));
    OnlyLapsedRecordsGo(s, d);
    NextInv(s, Wait(d));
    KeyLock.Frame(s.lock, KeyLock.Tick(d), q);
    assert s.list[i].id in Dead(s1.list, s1.records, s1.lock.now);
    WithoutIds(s1.list, Dead(s1.list, s1.records, s1.lock.now));
    var rest := AcquireAlone(s1, q);
    IdsSnoc(Without(s1.list, Dead(s1.list, s1.records, s1.lock.now)), Holder(|s1.makers|, s1.lock.now + s1.lasts));
    es := [Wait(d)] + rest;
    First(s, Wait(d), rest);
    hide Exec, Next;
  }

  /** A client that gives up, or dies, leaves list and records alone; having given up it can ask again. */
  lemma LeavesWithoutASlot(s: Sem, p: nat)
    requires Waiting(s, p) && s.points[p].AcqLock?
    ensures Next(s, GiveUp(p)) == At(s, p, Out)
    ensures var s' := Next(s, Die(p)); !Alive(s', p) && s'.list == s.list && s'.records == s.records
  {
  }

  /** So a slot given back goes to the next client that asks. */
  lemma ReleasedSlotIsTaken(s: Sem, p: nat, q: nat) returns (es: seq<Event>)
    requires Inv(s) && Alive(s, p) && s.points[p].Holding? && s.points[p].mine.id in Ids(s.list)
    requires Alive(s, q) && s.points[q].Out? && KEY !in s.lock.locks
    ensures q < |Exec(s, es).points| && Exec(s, es).points[q].Holding?
  {
    var a := DisposeAlone(s, p);
    ExecInv(s, a);
    var s1 := Exec(s, a);
    WithoutIds(s.list, {s.points[p].mine.id});
    assert s.points[p].mine.id in Ids(s.list) * {s.points[p].mine.id};
    assert |s1.list| < s1.capacity;
    var b := AcquireAlone(s1, q);
    es := a + b;
    ExecConcat(s, a, b);
    hide Exec, Without, Dead;
  }

  lemma {:induction false} ExecConcat(s: Sem, a: seq<Event>, b: seq<Event>)
    ensures Exec(s, a + b) == Exec(Exec(s, a), b)
    decreases |a|
  {
    if a == [] {
      assert a + b == b;
    } else {
      assert (a + b)[1..] == a[1..] + b;
      hide Next;
      ExecConcat(Next(s, a[0]), a[1..], b);
    }
  }
}
