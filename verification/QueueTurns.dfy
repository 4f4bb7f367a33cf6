/** Undisturbed operations of one client on the queue: exactly what each comes to. */
module QueueTurns {
  import opened Cache
  import opened Deque
  import KeyLock
  import opened JobQueue

  // ---- The operations on counters and slots ----

  datatype Store = Store(head: Option<int>, tail: Option<int>, items: map<int, Job>)

  function StoreOf(s: Queue): Store {
    Store(s.head, s.tail, s.items)
  }

  function Waits(d: Store): seq<Job> {
    Slots(d.items, Or0(d.head), Or0(d.tail))
  }

  function AfterEnqueue(d: Store, j: Job): Store {
    Store(d.head, Some(Or0(d.tail) + 1), d.items[Or0(d.tail) := j])
  }

  function AfterDequeue(d: Store): (Store, Option<Job>) {
    var h := Or0(d.head);
    if d.tail.None? then (d, None)
    else if h >= Or0(d.tail) then (d.(head := Some(h)), None)
    else if h !in d.items then (d.(head := Some(h + 1)), None)
    else (Store(Some(h + 1), d.tail, d.items - {h}), Some(d.items[h]))
  }

  function AfterRequeue(d: Store, j: Job): Store {
    var h := Or0(d.head) - 1;
    if d.head.None? && d.tail.None? then AfterEnqueue(d, j) else Store(Some(h), d.tail, d.items[h := j])
  }

  /** An enqueue appends; a dequeue takes the front job unless the tail or all jobs are missing or the front slot is empty; a requeue puts
      the job first, or, in a queue that was never used, last. */
  lemma OperationsAre(d: Store, j: Job)
    requires Or0(d.head) <= Or0(d.tail)
    ensures Waits(AfterEnqueue(d, j)) == Waits(d) + [j]
    ensures var (d', job) := AfterDequeue(d);
      && (job.Some? ==> Waits(d) == [job.value] + Waits(d'))
      && (job.None? ==> Waits(d') == Waits(d))
      && (job.None? <==> d.tail.None? || Waits(d) == [] || Or0(d.head) !in d.items)
    ensures Waits(AfterRequeue(d, j)) == if d.head.None? && d.tail.None? then Waits(d) + [j] else [j] + Waits(d)
  {
    EnqueueIs(d, j);
    DequeueIs(d);
    RequeueIs(d, j);
    hide AfterEnqueue, AfterDequeue, AfterRequeue, Slots;
  }

  lemma EnqueueIs(d: Store, j: Job)
    requires Or0(d.head) <= Or0(d.tail)
    ensures Waits(AfterEnqueue(d, j)) == Waits(d) + [j]
  {
    var h, t := Or0(d.head), Or0(d.tail);
    SlotsFrame(d.items, d.items[t := j], h, t);
    SlotsSnoc(d.items[t := j], h, t);
  }

  lemma DequeueIs(d: Store)
    requires Or0(d.head) <= Or0(d.tail)
    ensures var (d', job) := AfterDequeue(d);
      && (job.Some? ==> Waits(d) == [job.value] + Waits(d'))
      && (job.None? ==> Waits(d') == Waits(d))
      && (job.None? <==> d.tail.None? || Waits(d) == [] || Or0(d.head) !in d.items)
  {
    var h, t := Or0(d.head), Or0(d.tail);
    if h < t {
      assert Waits(d) == (if h in d.items then [d.items[h]] else []) + Slots(d.items, h + 1, t);
      SlotsFrame(d.items, d.items - {h}, h + 1, t);
    }
  }

  lemma RequeueIs(d: Store, j: Job)
    requires Or0(d.head) <= Or0(d.tail)
    ensures Waits(AfterRequeue(d, j)) == if d.head.None? && d.tail.None? then Waits(d) + [j] else [j] + Waits(d)
  {
    var h, t := Or0(d.head) - 1, Or0(d.tail);
    if d.head.None? && d.tail.None? {
      EnqueueIs(d, j);
    } else {
      SlotsFrame(d.items, d.items[h := j], h + 1, t);
      var d' := AfterRequeue(d, j);
      assert d'.items == d.items[h := j] && Or0(d'.head) == h && Or0(d'.tail) == t;
      assert Slots(d'.items, h, t) == [j] + Slots(d'.items, h + 1, t);
    }
  }

  // ---- One client alone ----

  ghost predicate OnlyBy(p: nat, es: seq<Event>) {
    forall i :: 0 <= i < |es| ==> (es[i].Start? || es[i].Step? || es[i].Retry? || es[i].GiveUp?) && es[i].p == p
  }

  /** `k` steps of client `p`. */
  function Steps(p: nat, k: nat): (es: seq<Event>)
    ensures OnlyBy(p, es)
  {
    if k == 0 then [] else [Step(p)] + Steps(p, k - 1)
  }

  lemma First(s: Queue, e: Event, es: seq<Event>)
    ensures Exec(s, [e] + es) == Exec(Next(s, e), es)
  {
    assert ([e] + es)[1..] == es;
    hide Next;
  }

  lemma OneStep(s: Queue, p: nat, k: nat)
    requires k > 0
    ensures Exec(s, Steps(p, k)) == Exec(Next(s, Step(p)), Steps(p, k - 1))
  {
    First(s, Step(p), Steps(p, k - 1));
    hide Next;
  }

  lemma NoSteps(s: Queue, p: nat)
    ensures Exec(s, Steps(p, 0)) == s
  {
  }

  lemma {:induction false} ExecConcat(s: Queue, a: seq<Event>, b: seq<Event>)
    ensures Exec(s, a + b) == Exec(Exec(s, a), b)
    decreases |a|
  {
    if a == [] {
      assert a + b == b;
    } else {
      assert (a + b)[1..] == a[1..] + b;
      hide Next;
      ExecConcat(Next(s, a[0]), a[1..], b);
    }
  }

  /** The key whose lock the client waits for. */
  function Wanted(s: Queue, p: nat): Key
    requires p < |s.points| && Locking(s.points[p])
  {
    KeyOf(s.points[p]).value
  }

  lemma LockStep(s: Queue, lock: KeyLock.State, p: nat)
    requires p < |s.points| && Locking(s.points[p]) && Present(s, Wanted(s, p))
    requires p < |lock.procs| && !lock.procs[p].Crashed? && !KeyLock.Holds(lock, p, Wanted(s, p))
    ensures Next(s.(lock := lock), Step(p)) == s.(lock := KeyLock.CallOf(lock, p, true))
  {
  }

  /** Wherever it is in `LockKey`, with the counter there and unlocked, its steps lock it. */
  lemma {:induction false} GoesOn(s: Queue, lock: KeyLock.State, p: nat, k: nat)
    requires p < |s.points| && Locking(s.points[p]) && Present(s, Wanted(s, p))
    requires KeyLock.Approaching(lock, p) && lock.procs[p].key == Wanted(s, p)
    ensures Exec(s.(lock := lock), Steps(p, k + KeyLock.CallsLeft(lock.procs[p]))) ==
            Exec(s.(lock := KeyLock.Reached(lock, p)), Steps(p, k))
    decreases KeyLock.CallsLeft(lock.procs[p])
  {
    hide Exec, Steps, Next, KeyLock.CallOf, KeyLock.Reached, KeyOf, Present;
    if lock.procs[p].Held? {
      KeyLock.Arrived(lock, p);
    } else {
      KeyLock.Nearer(lock, p);
      LockStep(s, lock, p);
      OneStep(s.(lock := lock), p, k + KeyLock.CallsLeft(lock.procs[p]));
      GoesOn(s, KeyLock.CallOf(lock, p, true), p, k);
    }
  }

  /** The client holds the lock that it took in `s`. */
  function Inside(s: Queue, p: nat, lease: Duration): Queue
    requires p < |s.points| && Locking(s.points[p]) && p < |s.lock.procs|
  {
    s.(lock := KeyLock.Locked(s.lock, p, Wanted(s, p), Some(lease)))
  }

  predicate CanLock(s: Queue, p: nat) {
    Waiting(s, p) && Present(s, Wanted(s, p)) && Wanted(s, p) !in s.lock.locks
  }

  lemma RetryEnters(s: Queue, p: nat, lease: Duration)
    requires Waiting(s, p)
    ensures Next(s, Retry(p, lease)) == s.(lock := KeyLock.At(s.lock, p, KeyLock.Peek(Wanted(s, p), Some(lease))))
  {
  }

  lemma LockCounter(s: Queue, p: nat, lease: Duration, k: nat)
    requires CanLock(s, p)
    ensures Exec(s, [Retry(p, lease)] + Steps(p, k + 5)) == Exec(Inside(s, p, lease), Steps(p, k))
  {
    RetryEnters(s, p, lease);
    hide Exec, Steps, Next, KeyOf, Present, KeyLock.Reached, KeyLock.Approaching, KeyLock.Locked;
    First(s, Retry(p, lease), Steps(p, k + 5));
    KeyLock.Enters(s.lock, p, Wanted(s, p), Some(lease), true);
    GoesOn(s, KeyLock.At(s.lock, p, KeyLock.Peek(Wanted(s, p), Some(lease))), p, k);
  }

  /** One call under the lock. */
  lemma InsideStep(s: Queue, p: nat, k: nat)
    requires Enabled(s, p) && k > 0
    ensures Exec(s, Steps(p, k)) == Exec(DataStep(s, p), Steps(p, k - 1))
  {
    OneStep(s, p, k);
  }

  /** `s1` is reached in a turn of `p` that began in `s`, at the start of its `UnlockKey`. */
  predicate Leaving(s: Queue, s1: Queue, p: nat, lease: Duration) {
    && CanLock(s, p) && p < |s1.points| && Unlocking(s1.points[p])
    && s1.lock == KeyLock.Next(KeyLock.Locked(s.lock, p, Wanted(s, p), Some(lease)), KeyLock.BeginUnlock(p))
  }

  lemma UnlockStep(s: Queue, p: nat)
    requires Alive(s, p) && Unlocking(s.points[p])
    ensures Next(s, Step(p)) ==
      if s.lock.procs[p].Idle? then At(s, p, Finish(s.points[p])) else s.(lock := KeyLock.CallOf(s.lock, p, true))
  {
  }

  /** Three steps unlock the counter and finish the operation. */
  lemma UnlockCounter(s: Queue, s1: Queue, p: nat, lease: Duration)
    requires Leaving(s, s1, p, lease)
    ensures Exec(s1, Steps(p, 3)) == At(s1, p, Finish(s1.points[p])).(lock := KeyLock.Freed(s.lock, p))
  {
    KeyLock.TurnEnds(s.lock, p, Wanted(s, p), Some(lease));
    var l1 := KeyLock.CallOf(s1.lock, p, true);
    var s2, s3 := s1.(lock := l1), s1.(lock := KeyLock.Freed(s.lock, p));
    UnlockStep(s1, p);
    UnlockStep(s2, p);
    UnlockStep(s3, p);
    hide Next, Exec, Steps, KeyLock.CallOf, Finish, KeyLock.Locked, KeyLock.Next;
    OneStep(s1, p, 3);
    OneStep(s2, p, 2);
    OneStep(s3, p, 1);
    NoSteps(At(s3, p, Finish(s1.points[p])), p);
  }

  // ---- The critical sections ----

  /** `n` calls of the client under its lock. */
  function Calls(s: Queue, p: nat, n: nat): Queue
    requires p < |s.points|
    decreases n
  {
    if n == 0 then s
    else if p < |DataStep(s, p).points| then Calls(DataStep(s, p), p, n - 1) else s
  }

  predicate AllEnabled(s: Queue, p: nat, n: nat)
    requires p < |s.points|
    decreases n
  {
    n > 0 ==> Enabled(s, p) && p < |DataStep(s, p).points| && AllEnabled(DataStep(s, p), p, n - 1)
  }

  lemma {:induction false} InsideSteps(s: Queue, p: nat, n: nat, k: nat)
    requires p < |s.points| && AllEnabled(s, p, n)
    ensures Exec(s, Steps(p, n + k)) == Exec(Calls(s, p, n), Steps(p, k))
    decreases n
  {
    hide DataStep, Exec, Steps, Enabled;
    if n > 0 {
      InsideStep(s, p, n + k);
      InsideSteps(DataStep(s, p), p, n - 1, k);
    }
  }

  /** A whole turn: the lock, `n` calls, and out. */
  lemma WholeTurn(s: Queue, p: nat, lease: Duration, n: nat)
    requires CanLock(s, p) && AllEnabled(Inside(s, p, lease), p, n) && Leaving(s, Calls(Inside(s, p, lease), p, n), p, lease)
    ensures var s1 := Calls(Inside(s, p, lease), p, n);
      Exec(s, [Retry(p, lease)] + Steps(p, n + 8)) == At(s1, p, Finish(s1.points[p])).(lock := KeyLock.Freed(s.lock, p))
  {
    hide DataStep, Exec, Steps, Enabled, Calls, AllEnabled, Finish;
    LockCounter(s, p, lease, n + 3);
    InsideSteps(Inside(s, p, lease), p, n, 3);
    UnlockCounter(s, Calls(Inside(s, p, lease), p, n), p, lease);
  }

  /** The state at the start of the way out, with the counters, slots and deeds that the turn leaves. */
  function LeaveWith(s: Queue, p: nat, pt: Point, d: Store, deeds: seq<Deed>): Queue
    requires p < |s.points|
  {
    s.(head := d.head, tail := d.tail, items := d.items, points := s.points[p := pt], deeds := s.deeds + deeds,
       lock := KeyLock.Next(s.lock, KeyLock.BeginUnlock(p)))
  }

  /** `n` calls of the client, all of them under its lock, come to the way out. */
  predicate ComesTo(s: Queue, p: nat, n: nat, s': Queue) {
    p < |s.points| && AllEnabled(s, p, n) && Calls(s, p, n) == s'
  }

  /** One call. */
  lemma Onward(s: Queue, p: nat, s1: Queue, n: nat, s': Queue)
    requires Enabled(s, p) && DataStep(s, p) == s1 && ComesTo(s1, p, n, s')
    ensures ComesTo(s, p, n + 1, s')
  {
    hide DataStep;
    assert AllEnabled(s1, p, n) && Calls(s1, p, n) == s';
    assert AllEnabled(s, p, n + 1) && Calls(s, p, n + 1) == Calls(s1, p, n);
  }

  lemma There(s: Queue, p: nat)
    requires p < |s.points|
    ensures ComesTo(s, p, 0, s)
  {
  }

  lemma EnqueueCalls(s: Queue, p: nat, j: Job)
    requires Alive(s, p) && KeyLock.Holds(s.lock, p, TAIL) && s.tail.Some? && s.points[p] == EnqLock(j)
    ensures ComesTo(s, p, 4, LeaveWith(s, p, EnqUnlock(j, |s.deeds|), AfterEnqueue(StoreOf(s), j), [PushBack(p, j)]))
  {
    var t := Or0(s.tail);
    var s2, s3, s4 := At(s, p, EnqGet(j)), At(s, p, EnqItem(j, t)), At(s, p, EnqTail(j, t)).(items := s.items[t := j]);
    var s5 := LeaveWith(s, p, EnqUnlock(j, |s.deeds|), AfterEnqueue(StoreOf(s), j), [PushBack(p, j)]);
    assert DataStep(s, p) == s2 && DataStep(s2, p) == s3 && DataStep(s3, p) == s4;
    assert DataStep(s4, p) == s5;
    hide DataStep, ComesTo, LeaveWith;
    There(s5, p);
    Onward(s4, p, s5, 0, s5);
    Onward(s3, p, s4, 1, s5);
    Onward(s2, p, s3, 2, s5);
    Onward(s, p, s2, 3, s5);
  }

  lemma RequeueCalls(s: Queue, p: nat, j: Job)
    requires Alive(s, p) && KeyLock.Holds(s.lock, p, HEAD) && s.head.Some? && s.points[p] == ReqLock(j)
    ensures ComesTo(s, p, 4, LeaveWith(s, p, ReqUnlock(j, |s.deeds|), AfterRequeue(StoreOf(s), j), [PushFront(p, j)]))
  {
    var s2, s3 := At(s, p, ReqGet(j)), At(s, p, ReqItem(j, Or0(s.head) - 1));
    assert DataStep(s, p) == s2 && DataStep(s2, p) == s3;
    RequeueWrites(s, p, j);
    hide DataStep, ComesTo, LeaveWith, AfterRequeue;
    var end := LeaveWith(s, p, ReqUnlock(j, |s.deeds|), AfterRequeue(StoreOf(s), j), [PushFront(p, j)]);
    Onward(s2, p, s3, 2, end);
    Onward(s, p, s2, 3, end);
  }

  lemma RequeueWrites(s: Queue, p: nat, j: Job)
    requires Alive(s, p) && KeyLock.Holds(s.lock, p, HEAD) && s.head.Some?
    ensures ComesTo(At(s, p, ReqItem(j, Or0(s.head) - 1)), p, 2,
      LeaveWith(s, p, ReqUnlock(j, |s.deeds|), AfterRequeue(StoreOf(s), j), [PushFront(p, j)]))
  {
    var h := Or0(s.head) - 1;
    var s3, s4 := At(s, p, ReqItem(j, h)), At(s, p, ReqPut(j, h)).(items := s.items[h := j]);
    var end := LeaveWith(s, p, ReqUnlock(j, |s.deeds|), AfterRequeue(StoreOf(s), j), [PushFront(p, j)]);
    assert DataStep(s3, p) == s4 && DataStep(s4, p) == end;
    hide DataStep, ComesTo, LeaveWith;
    There(end, p);
    Onward(s4, p, end, 0, end);
    Onward(s3, p, s4, 1, end);
  }

  /** How many calls a dequeue makes under its lock. */
  function DequeueLength(s: Queue): nat {
    if Or0(s.head) >= Or0(s.tail) then 4 else if Or0(s.head) !in s.items then 6 else 8
  }

  function DequeueDeeds(s: Queue, p: nat): seq<Deed> {
    var job := AfterDequeue(StoreOf(s)).1;
    if job.Some? then [PopFront(p, job.value)] else []
  }

  /** The point of a dequeue that goes its way out. */
  function DequeueEnds(s: Queue): Point {
    var job := AfterDequeue(StoreOf(s)).1;
    DeqUnlock(job, if job.Some? then |s.deeds| else 0)
  }

  /** The end of a dequeue's turn. */
  function DequeueLeaves(s: Queue, p: nat): Queue
    requires p < |s.points|
  {
    LeaveWith(s, p, DequeueEnds(s), AfterDequeue(StoreOf(s)).0, DequeueDeeds(s, p))
  }

  lemma DequeueCalls(s: Queue, p: nat)
    requires Alive(s, p) && KeyLock.Holds(s.lock, p, HEAD) && s.head.Some? && s.tail.Some? && s.points[p].DeqLock?
    ensures ComesTo(s, p, DequeueLength(s), DequeueLeaves(s, p))
  {
    var n, h := DequeueLength(s), Or0(s.head);
    var s2, s3, s4 := At(s, p, DeqHeadGet), At(s, p, DeqTailHas(h)), At(s, p, DeqTailGet(h));
    assert DataStep(s, p) == s2 && DataStep(s2, p) == s3 && DataStep(s3, p) == s4;
    TailSeen(s, p);
    hide DataStep, ComesTo, DequeueLeaves;
    Onward(s3, p, s4, n - 3, DequeueLeaves(s, p));
    Onward(s2, p, s3, n - 2, DequeueLeaves(s, p));
    Onward(s, p, s2, n - 1, DequeueLeaves(s, p));
  }

  lemma TailSeen(s: Queue, p: nat)
    requires Alive(s, p) && KeyLock.Holds(s.lock, p, HEAD) && s.head.Some? && s.tail.Some?
    ensures ComesTo(At(s, p, DeqTailGet(Or0(s.head))), p, DequeueLength(s) - 3, DequeueLeaves(s, p))
  {
    var h := Or0(s.head);
    var s4, s5, end := At(s, p, DeqTailGet(h)), At(s, p, DeqSlot(h)), DequeueLeaves(s, p);
    There(end, p);
    if h >= Or0(s.tail) {
      assert DataStep(s4, p) == end;
      Onward(s4, p, end, 0, end);
    } else {
      assert DataStep(s4, p) == s5;
      if h in s.items { SlotFilled(s, p); } else { SlotEmpty(s, p); }
      hide DataStep, ComesTo, DequeueLeaves;
      Onward(s4, p, s5, DequeueLength(s) - 4, end);
    }
  }

  lemma SlotEmpty(s: Queue, p: nat)
    requires Alive(s, p) && KeyLock.Holds(s.lock, p, HEAD) && s.head.Some? && s.tail.Some?
    requires Or0(s.head) < Or0(s.tail) && Or0(s.head) !in s.items
    ensures ComesTo(At(s, p, DeqSlot(Or0(s.head))), p, 2, DequeueLeaves(s, p))
  {
    var h := Or0(s.head);
    var s5, s6, end := At(s, p, DeqSlot(h)), At(s, p, DeqSkip(h)), DequeueLeaves(s, p);
    assert DataStep(s5, p) == s6 && DataStep(s6, p) == end;
    hide DataStep, ComesTo, DequeueLeaves;
    There(end, p);
    Onward(s6, p, end, 0, end);
    Onward(s5, p, s6, 1, end);
  }

  lemma SlotFilled(s: Queue, p: nat)
    requires Alive(s, p) && KeyLock.Holds(s.lock, p, HEAD) && s.head.Some? && s.tail.Some?
    requires Or0(s.head) < Or0(s.tail) && Or0(s.head) in s.items
    ensures ComesTo(At(s, p, DeqSlot(Or0(s.head))), p, 4, DequeueLeaves(s, p))
  {
    var h, j := Or0(s.head), s.items[Or0(s.head)];
    var s5, s6, s7, end := At(s, p, DeqSlot(h)), At(s, p, DeqItem(h)), At(s, p, DeqRemove(h, j)), DequeueLeaves(s, p);
    assert DataStep(s5, p) == s6 && DataStep(s6, p) == s7;
    SlotTaken(s, p);
    hide DataStep, ComesTo, DequeueLeaves;
    Onward(s6, p, s7, 2, end);
    Onward(s5, p, s6, 3, end);
  }

  lemma SlotTaken(s: Queue, p: nat)
    requires Alive(s, p) && KeyLock.Holds(s.lock, p, HEAD) && s.head.Some? && s.tail.Some?
    requires Or0(s.head) < Or0(s.tail) && Or0(s.head) in s.items
    ensures ComesTo(At(s, p, DeqRemove(Or0(s.head), s.items[Or0(s.head)])), p, 2, DequeueLeaves(s, p))
  {
    var h, j, at := Or0(s.head), s.items[Or0(s.head)], |s.deeds|;
    var s7, end := At(s, p, DeqRemove(h, j)), DequeueLeaves(s, p);
    var s8 := At(s, p, DeqHead(h, j, at)).(items := s.items - {h}, deeds := s.deeds + [PopFront(p, j)]);
    assert DataStep(s7, p) == s8 && DataStep(s8, p) == end;
    hide DataStep, ComesTo, DequeueLeaves;
    There(end, p);
    Onward(s8, p, end, 0, end);
    Onward(s7, p, s8, 1, end);
  }

  // ---- Whole operations ----

  /** The operation is over, and its client has left the lock as it found it. */
  function Over(s: Queue, p: nat, pt: Point, d: Store, deeds: seq<Deed>): Queue
    requires p < |s.points| && p < |s.lock.procs|
  {
    s.(head := d.head, tail := d.tail, items := d.items, points := s.points[p := pt], deeds := s.deeds + deeds,
       lock := KeyLock.Freed(s.lock, p))
  }

  /** From its loop on, the client's turn comes to what its calls under the lock come to. */
  lemma TurnComesTo(s: Queue, p: nat, lease: Duration, n: nat, pt: Point, d: Store, deeds: seq<Deed>)
    requires CanLock(s, p) && Unlocking(pt)
    requires ComesTo(Inside(s, p, lease), p, n, LeaveWith(Inside(s, p, lease), p, pt, d, deeds))
    ensures Exec(s, [Retry(p, lease)] + Steps(p, n + 8)) == Over(s, p, Finish(pt), d, deeds)
  {
    var s1 := LeaveWith(Inside(s, p, lease), p, pt, d, deeds);
    assert Leaving(s, s1, p, lease);
    assert s1.points[p := Finish(pt)] == s.points[p := Finish(pt)];
    assert At(s1, p, Finish(s1.points[p])).(lock := KeyLock.Freed(s.lock, p)) == Over(s, p, Finish(pt), d, deeds);
    WholeTurn(s, p, lease, n);
    hide Exec, Steps, AllEnabled, Calls;
  }

  /** A client at the loop of its lock that has returned from every earlier `LockKey`. */
  predicate AtLoop(s: Queue, p: nat, pt: Point) {
    Alive(s, p) && s.points[p] == pt && Outside(s.lock.procs[p])
  }

  lemma KeysWanted(j: Job)
    ensures KeyOf(EnqLock(j)) == Some(TAIL) && KeyOf(ReqLock(j)) == Some(HEAD) && KeyOf(DeqLock) == Some(HEAD)
  {
  }

  /** A client at its loop can lock a counter that is there and unlocked; holding the lock, it finds all as it was. */
  lemma LoopCanLock(s: Queue, p: nat, pt: Point, k: Key, lease: Duration)
    requires AtLoop(s, p, pt) && Locking(pt) && KeyOf(pt) == Some(k) && Present(s, k) && k !in s.lock.locks
    ensures CanLock(s, p)
    ensures var s1 := Inside(s, p, lease);
      && Alive(s1, p) && KeyLock.Holds(s1.lock, p, k) && StoreOf(s1) == StoreOf(s) && s1.points == s.points && s1.deeds == s.deeds
  {
    hide KeyOf;
  }

  lemma EnqueueTurn(s: Queue, p: nat, lease: Duration, j: Job)
    requires AtLoop(s, p, EnqLock(j)) && s.tail.Some? && TAIL !in s.lock.locks
    ensures Exec(s, [Retry(p, lease)] + Steps(p, 12)) ==
      Over(s, p, EnqDone(j, |s.deeds|), AfterEnqueue(StoreOf(s), j), [PushBack(p, j)])
  {
    hide KeyOf, Exec, Steps, ComesTo, AfterEnqueue, Over, LeaveWith, Inside, CanLock, KeyLock.Holds;
    KeysWanted(j);
    LoopCanLock(s, p, EnqLock(j), TAIL, lease);
    var s1, pt, d, deeds := Inside(s, p, lease), EnqUnlock(j, |s.deeds|), AfterEnqueue(StoreOf(s), j), [PushBack(p, j)];
    EnqueueCalls(s1, p, j);
    assert ComesTo(s1, p, 4, LeaveWith(s1, p, pt, d, deeds));
    TurnComesTo(s, p, lease, 4, pt, d, deeds);
  }

  lemma RequeueTurn(s: Queue, p: nat, lease: Duration, j: Job)
    requires AtLoop(s, p, ReqLock(j)) && s.head.Some? && HEAD !in s.lock.locks
    ensures Exec(s, [Retry(p, lease)] + Steps(p, 12)) ==
      Over(s, p, ReqDone(j, |s.deeds|), AfterRequeue(StoreOf(s), j), [PushFront(p, j)])
  {
    hide KeyOf, Exec, Steps, ComesTo, AfterRequeue, Over, LeaveWith, Inside, CanLock, KeyLock.Holds;
    KeysWanted(j);
    LoopCanLock(s, p, ReqLock(j), HEAD, lease);
    var s1, pt, d, deeds := Inside(s, p, lease), ReqUnlock(j, |s.deeds|), AfterRequeue(StoreOf(s), j), [PushFront(p, j)];
    RequeueCalls(s1, p, j);
    assert ComesTo(s1, p, 4, LeaveWith(s1, p, pt, d, deeds));
    TurnComesTo(s, p, lease, 4, pt, d, deeds);
  }

  lemma DequeueTurn(s: Queue, p: nat, lease: Duration)
    requires AtLoop(s, p, DeqLock) && s.head.Some? && s.tail.Some? && HEAD !in s.lock.locks
    ensures Exec(s, [Retry(p, lease)] + Steps(p, DequeueLength(s) + 8)) ==
      Over(s, p, Finish(DequeueEnds(s)), AfterDequeue(StoreOf(s)).0, DequeueDeeds(s, p))
  {
    KeysWanted(0);
    LoopCanLock(s, p, DeqLock, HEAD, lease);
    hide Inside, CanLock, KeyOf, KeyLock.Holds, Exec, Steps, ComesTo, AfterDequeue, Over, LeaveWith;
    DequeueCalls(Inside(s, p, lease), p);
    TurnComesTo(s, p, lease, DequeueLength(s), DequeueEnds(s), AfterDequeue(StoreOf(s)).0, DequeueDeeds(s, p));
  }

  /** What one client's undisturbed operation comes to: its point, the counters and slots, and its deeds; the locks and
      all other clients are as before. */
  predicate Returns(s: Queue, s': Queue, p: nat, pt: Point, d: Store, deeds: seq<Deed>) {
    && p < |s.points| && p < |s.lock.procs|
    && s'.points == s.points[p := pt] && StoreOf(s') == d && s'.deeds == s.deeds + deeds
    && s'.lock.locks == s.lock.locks && |s'.lock.procs| == |s.lock.procs| && Outside(s'.lock.procs[p])
    && forall q :: 0 <= q < |s.lock.procs| && q != p ==> s'.lock.procs[q] == s.lock.procs[q]
  }

  /** From its first call on, an enqueue comes to the loop of its lock, with the counter there. */
  lemma ToEnqueueLoop(s: Queue, p: nat, j: Job) returns (es: seq<Event>)
    requires Alive(s, p) && s.points[p] == EnqEnsure(j)
    ensures OnlyBy(p, es) && Exec(s, es) == At(s, p, EnqLock(j)).(tail := Some(Or0(s.tail)))
  {
    var s1, goal := Next(s, Step(p)), At(s, p, EnqLock(j)).(tail := Some(Or0(s.tail)));
    var n := if s.tail.Some? then 1 else 2;
    es := Steps(p, n);
    assert if n == 1 then s1 == goal else s1 == At(s, p, EnqAdd(j)) && Next(s1, Step(p)) == goal;
    hide Next, Exec, Steps;
    OneStep(s, p, n);
    if n == 2 { OneStep(s1, p, 1); }
    NoSteps(goal, p);
  }

  lemma ToDequeueLoop(s: Queue, p: nat) returns (es: seq<Event>)
    requires Alive(s, p) && s.points[p] == DeqStart && s.tail.Some?
    ensures OnlyBy(p, es) && Exec(s, es) == At(s, p, DeqLock).(head := Some(Or0(s.head)))
  {
    var s1, s2, goal := Next(s, Step(p)), At(s, p, DeqAdd), At(s, p, DeqLock).(head := Some(Or0(s.head)));
    var n := if s.head.Some? then 2 else 3;
    es := Steps(p, n);
    assert s1 == At(s, p, DeqEnsure);
    assert if n == 2 then Next(s1, Step(p)) == goal else Next(s1, Step(p)) == s2 && Next(s2, Step(p)) == goal;
    hide Next, Exec, Steps;
    OneStep(s, p, n);
    OneStep(s1, p, n - 1);
    if n == 3 { OneStep(s2, p, 1); }
    NoSteps(goal, p);
  }

  /** A requeue on a queue that was used comes to the loop of the head's lock. */
  lemma ToRequeueLoop(s: Queue, p: nat, j: Job) returns (es: seq<Event>)
    requires Alive(s, p) && s.points[p] == ReqEnsure(j)
    ensures OnlyBy(p, es) && Exec(s, es) == At(s, p, ReqLock(j)).(head := Some(Or0(s.head)))
  {
    var s1, goal := Next(s, Step(p)), At(s, p, ReqLock(j)).(head := Some(Or0(s.head)));
    var n := if s.head.Some? then 1 else 2;
    es := Steps(p, n);
    assert if n == 1 then s1 == goal else s1 == At(s, p, ReqAdd(j)) && Next(s1, Step(p)) == goal;
    hide Next, Exec, Steps;
    OneStep(s, p, n);
    if n == 2 { OneStep(s1, p, 1); }
    NoSteps(goal, p);
  }

  /** The two checks of a requeue: it goes to the front if either counter is there, and to the back otherwise. */
  lemma RequeueChecks(s: Queue, p: nat, j: Job) returns (es: seq<Event>)
    requires Alive(s, p) && s.points[p] == ReqHead(j)
    ensures OnlyBy(p, es)
    ensures Exec(s, es) == At(s, p, if s.head.None? && s.tail.None? then EnqEnsure(j) else ReqEnsure(j))
  {
    var s1, goal := Next(s, Step(p)), At(s, p, if s.head.None? && s.tail.None? then EnqEnsure(j) else ReqEnsure(j));
    var n := if s.head.Some? then 1 else 2;
    es := Steps(p, n);
    assert if n == 1 then s1 == goal else s1 == At(s, p, ReqTail(j)) && Next(s1, Step(p)) == goal;
    hide Next, Exec, Steps;
    OneStep(s, p, n);
    if n == 2 { OneStep(s1, p, 1); }
    NoSteps(goal, p);
  }

  /** An enqueue at its first call, undisturbed, appends its job. */
  lemma EnqueueFrom(s: Queue, p: nat, j: Job, lease: Duration) returns (es: seq<Event>)
    requires AtLoop(s, p, EnqEnsure(j)) && TAIL !in s.lock.locks
    ensures OnlyBy(p, es) && Returns(s, Exec(s, es), p, EnqDone(j, |s.deeds|), AfterEnqueue(StoreOf(s), j), [PushBack(p, j)])
  {
    var pre := ToEnqueueLoop(s, p, j);
    var s1 := Exec(s, pre);
    EnqueueTurn(s1, p, lease, j);
    es := pre + ([Retry(p, lease)] + Steps(p, 12));
    ExecConcat(s, pre, [Retry(p, lease)] + Steps(p, 12));
    assert s1.points[p := EnqDone(j, |s.deeds|)] == s.points[p := EnqDone(j, |s.deeds|)];
    assert AfterEnqueue(StoreOf(s1), j) == AfterEnqueue(StoreOf(s), j);
    hide Exec, Steps;
  }

  lemma RequeueFrom(s: Queue, p: nat, j: Job, lease: Duration) returns (es: seq<Event>)
    requires AtLoop(s, p, ReqEnsure(j)) && HEAD !in s.lock.locks && (s.head.Some? || s.tail.Some?)
    ensures OnlyBy(p, es) && Returns(s, Exec(s, es), p, ReqDone(j, |s.deeds|), AfterRequeue(StoreOf(s), j), [PushFront(p, j)])
  {
    var pre := ToRequeueLoop(s, p, j);
    var s1 := Exec(s, pre);
    RequeueTurn(s1, p, lease, j);
    es := pre + ([Retry(p, lease)] + Steps(p, 12));
    ExecConcat(s, pre, [Retry(p, lease)] + Steps(p, 12));
    assert s1.points[p := ReqDone(j, |s.deeds|)] == s.points[p := ReqDone(j, |s.deeds|)];
    assert AfterRequeue(StoreOf(s1), j) == AfterRequeue(StoreOf(s), j);
    hide Exec, Steps;
  }

  lemma DequeueFrom(s: Queue, p: nat, lease: Duration) returns (es: seq<Event>)
    requires AtLoop(s, p, DeqStart) && HEAD !in s.lock.locks && s.tail.Some?
    ensures OnlyBy(p, es)
    ensures Returns(s, Exec(s, es), p, Finish(DequeueEnds(s)), AfterDequeue(StoreOf(s)).0, DequeueDeeds(s, p))
  {
    var pre := ToDequeueLoop(s, p);
    var s1 := Exec(s, pre);
    DequeueTurn(s1, p, lease);
    var turn := [Retry(p, lease)] + Steps(p, DequeueLength(s1) + 8);
    es := pre + turn;
    ExecConcat(s, pre, turn);
    assert AfterDequeue(StoreOf(s1)) == AfterDequeue(StoreOf(s)) && s1.deeds == s.deeds;
    var pt := Finish(DequeueEnds(s));
    assert Finish(DequeueEnds(s1)) == pt && s1.points[p := pt] == s.points[p := pt];
    hide Exec, Steps, AfterDequeue, Finish, DequeueEnds;
  }

  // ---- Main results ----

  lemma Started(s: Queue, p: nat, op: Op, es: seq<Event>)
    requires Inv(s) && Ready(s, p)
    ensures var s1 := At(s, p, match op case Enqueue(j) => EnqEnsure(j) case TryDequeue => DeqStart case Requeue(j) => ReqHead(j));
      AtLoop(s1, p, s1.points[p]) && Exec(s, [Start(p, op)] + es) == Exec(s1, es)
  {
    assert PointOk(s, p);
    First(s, Start(p, op), es);
  }

  lemma ReturnsFrom(s: Queue, s1: Queue, s': Queue, p: nat, pt: Point, d: Store, deeds: seq<Deed>)
    requires p < |s.points| == |s1.points| && s1 == At(s, p, s1.points[p]) && Returns(s1, s', p, pt, d, deeds)
    ensures Returns(s, s', p, pt, d, deeds)
  {
    assert s1.points[p := pt] == s.points[p := pt];
  }

  /** With the tail's lock free, an undisturbed `Enqueue` returns with its job appended, by one deed. */
  lemma EnqueueAlone(s: Queue, p: nat, j: Job, lease: Duration) returns (es: seq<Event>)
    requires Inv(s) && Ready(s, p) && TAIL !in s.lock.locks
    ensures OnlyBy(p, es) && Returns(s, Exec(s, es), p, EnqDone(j, |s.deeds|), AfterEnqueue(StoreOf(s), j), [PushBack(p, j)])
    ensures Contents(Exec(s, es)) == Contents(s) + [j]
  {
    var s1 := At(s, p, EnqEnsure(j));
    Started(s, p, Enqueue(j), []);
    var rest := EnqueueFrom(s1, p, j, lease);
    es := [Start(p, Enqueue(j))] + rest;
    Started(s, p, Enqueue(j), rest);
    ReturnsFrom(s, s1, Exec(s, es), p, EnqDone(j, |s.deeds|), AfterEnqueue(StoreOf(s), j), [PushBack(p, j)]);
    EnqueueIs(StoreOf(s), j);
    hide Exec, Slots;
  }

  /** With the head's lock free, an undisturbed `TryDequeue` returns with the front job, unless the queue was never used,
      is empty, or a crashed dequeuer has emptied its front slot. */
  lemma DequeueAlone(s: Queue, p: nat, lease: Duration) returns (es: seq<Event>)
    requires Inv(s) && Ready(s, p) && HEAD !in s.lock.locks
    ensures OnlyBy(p, es)
    ensures var (d, job) := AfterDequeue(StoreOf(s));
      && Returns(s, Exec(s, es), p, DeqDone(job, if job.Some? then |s.deeds| else 0), d, DequeueDeeds(s, p))
      && (job.Some? ==> Contents(s) == [job.value] + Contents(Exec(s, es)))
      && (job.None? ==> Contents(Exec(s, es)) == Contents(s))
      && (job.None? <==> s.tail.None? || Contents(s) == [] || Or0(s.head) !in s.items)
  {
    hide Exec, Slots, Next, Steps;
    var s1 := At(s, p, DeqStart);
    Started(s, p, TryDequeue, []);
    var rest: seq<Event>;
    if s.tail.Some? {
      rest := DequeueFrom(s1, p, lease);
    } else {
      rest := NeverUsed(s1, p);
    }
    es := [Start(p, TryDequeue)] + rest;
    Started(s, p, TryDequeue, rest);
    var pt, d, deeds := Finish(DequeueEnds(s)), AfterDequeue(StoreOf(s)).0, DequeueDeeds(s, p);
    ReturnsFrom(s, s1, Exec(s, es), p, pt, d, deeds);
    DequeueIs(StoreOf(s));
  }

  lemma NeverUsed(s: Queue, p: nat) returns (es: seq<Event>)
    requires AtLoop(s, p, DeqStart) && s.tail.None?
    ensures OnlyBy(p, es)
    ensures Returns(s, Exec(s, es), p, Finish(DequeueEnds(s)), AfterDequeue(StoreOf(s)).0, DequeueDeeds(s, p))
  {
    es := Steps(p, 1);
    assert Next(s, Step(p)) == At(s, p, DeqDone(None, 0));
    hide Exec, Next, Steps;
    OneStep(s, p, 1);
    NoSteps(At(s, p, DeqDone(None, 0)), p);
  }

  /** With both locks free, an undisturbed `Requeue` returns with its job first in the queue; last only if neither counter
      was there. */
  lemma RequeueAlone(s: Queue, p: nat, j: Job, lease: Duration) returns (es: seq<Event>)
    requires Inv(s) && Ready(s, p) && HEAD !in s.lock.locks && TAIL !in s.lock.locks
    ensures OnlyBy(p, es)
    ensures var unused := s.head.None? && s.tail.None?;
      && Returns(s, Exec(s, es), p, if unused then EnqDone(j, |s.deeds|) else ReqDone(j, |s.deeds|), AfterRequeue(StoreOf(s), j),
           [if unused then PushBack(p, j) else PushFront(p, j)])
      && Contents(Exec(s, es)) == if unused then Contents(s) + [j] else [j] + Contents(s)
  {
    hide Exec, Slots, AfterEnqueue, AfterRequeue;
    var unused := s.head.None? && s.tail.None?;
    var s1 := At(s, p, ReqHead(j));
    Started(s, p, Requeue(j), []);
    var checks := RequeueChecks(s1, p, j);
    var s2 := At(s, p, if unused then EnqEnsure(j) else ReqEnsure(j));
    assert Exec(s1, checks) == s2;
    var rest: seq<Event>;
    if unused {
      rest := EnqueueFrom(s2, p, j, lease);
    } else {
      rest := RequeueFrom(s2, p, j, lease);
    }
    ExecConcat(s1, checks, rest);
    es := [Start(p, Requeue(j))] + (checks + rest);
    Started(s, p, Requeue(j), checks + rest);
    var pt, d := if unused then EnqDone(j, |s.deeds|) else ReqDone(j, |s.deeds|), AfterRequeue(StoreOf(s), j);
    var deeds := [if unused then PushBack(p, j) else PushFront(p, j)];
    if unused { UnusedIsEnqueued(StoreOf(s), j); }
    ReturnsFrom(s, s2, Exec(s, es), p, pt, d, deeds);
    RequeueIs(StoreOf(s), j);
  }

  lemma UnusedIsEnqueued(d: Store, j: Job)
    requires d.head.None? && d.tail.None?
    ensures AfterRequeue(d, j) == AfterEnqueue(d, j)
  {
  }

  /** A turn of the loop that finds the lock taken gets nothing and changes nothing. */
  lemma TurnRefused(s: Queue, p: nat, lease: Duration)
    requires Waiting(s, p) && Wanted(s, p) in s.lock.locks
    ensures Exec(s, [Retry(p, lease)] + Steps(p, 1)) == s.(lock := KeyLock.At(s.lock, p, KeyLock.Refused(Wanted(s, p), None)))
  {
    var s1 := Next(s, Retry(p, lease));
    assert s1 == s.(lock := KeyLock.At(s.lock, p, KeyLock.Peek(Wanted(s, p), Some(lease))));
    var s2 := s.(lock := KeyLock.At(s.lock, p, KeyLock.Refused(Wanted(s, p), None)));
    assert Next(s1, Step(p)).lock.procs == s2.lock.procs;
    assert Next(s1, Step(p)) == s2;
    First(s, Retry(p, lease), Steps(p, 1));
    hide Next, Exec, Steps;
    OneStep(s1, p, 1);
    NoSteps(s2, p);
  }

  /** A `Requeue` that finds the head locked until its time is up returns with its job last in the queue. */
  lemma RequeueFallsBack(s: Queue, p: nat, j: Job, lease: Duration) returns (es: seq<Event>)
    requires AtLoop(s, p, ReqLock(j)) && HEAD in s.lock.locks && TAIL !in s.lock.locks && Or0(s.head) <= Or0(s.tail)
    ensures OnlyBy(p, es) && Returns(s, Exec(s, es), p, EnqDone(j, |s.deeds|), AfterEnqueue(StoreOf(s), j), [PushBack(p, j)])
    ensures Contents(Exec(s, es)) == Contents(s) + [j]
  {
    hide Exec, Slots, Next, Steps, KeyOf, AfterEnqueue;
    KeysWanted(j);
    TurnRefused(s, p, lease);
    var s1 := s.(lock := KeyLock.At(s.lock, p, KeyLock.Refused(HEAD, None)));
    var s2 := At(s1, p, EnqEnsure(j));
    GivesWay(s1, p, j);
    var rest := EnqueueFrom(s2, p, j, lease);
    var turn := [Retry(p, lease)] + Steps(p, 1);
    First(s1, GiveUp(p), rest);
    ExecConcat(s, turn, [GiveUp(p)] + rest);
    es := turn + ([GiveUp(p)] + rest);
    var pt, d, deeds := EnqDone(j, |s.deeds|), AfterEnqueue(StoreOf(s), j), [PushBack(p, j)];
    ReturnsFrom(s1, s2, Exec(s, es), p, pt, d, deeds);
    EnqueueIs(StoreOf(s), j);
  }

  lemma GivesWay(s: Queue, p: nat, j: Job)
    requires AtLoop(s, p, ReqLock(j))
    ensures Next(s, GiveUp(p)) == At(s, p, EnqEnsure(j))
  {
  }

  /** The holder of a counter's lock dies, and time passes to the end of its lease. */
  lemma LockComesFree(s: Queue, p: nat, k: Key, d: nat)
    requires Inv(s) && Alive(s, p) && KeyLock.Owns(s.lock, p, k) && k in s.lock.locks && s.lock.locks[k].ends == Some(s.lock.now + d)
    requires KeyLock.LeasesKept(KeyLock.Next(s.lock, KeyLock.Crash(p)), s.lock.now + d)
    ensures var s' := Next(Next(s, Die(p)), Wait(d));
      && Inv(s') && k !in s'.lock.locks && StoreOf(s') == StoreOf(s) && s'.deeds == s.deeds && s'.points == s.points
      && !Alive(s', p) && forall q :: 0 <= q < |s.points| && q != p ==> q < |s'.lock.procs| && s'.lock.procs[q] == s.lock.procs[q]
  {
    assert KeyLock.ClientOk(s.lock, p);
    var s1 := Next(s, Die(p));
    NextInv(s, Die(p));
    NextInv(s1, Wait(d));
    KeyLock.LapsedIsPurged(s1.lock, k, s.lock.now + d);
    hide Inv, StepOf;
  }

  /** When a client dies with the head's lock in hand, the next `TryDequeue` gets it once the lease has ended, and takes the
      front job of the queue as the deeds have left it; it returns without one if the dead client has emptied the slot. */
  lemma DeadDequeuerIsOvercome(s: Queue, p: nat, d: nat, q: nat, lease: Duration) returns (es: seq<Event>)
    requires Inv(s) && Alive(s, p) && KeyLock.Owns(s.lock, p, HEAD) && HEAD in s.lock.locks && s.lock.locks[HEAD].ends == Some(s.lock.now + d)
    requires KeyLock.LeasesKept(KeyLock.Next(s.lock, KeyLock.Crash(p)), s.lock.now + d) && Ready(s, q) && q != p
    ensures var s' := Exec(s, [Die(p)] + ([Wait(d)] + es));
      && OnlyBy(q, es) && q < |s'.points| && s'.points[q].DeqDone?
      && (s'.points[q].result.Some? ==> Contents(s) == [s'.points[q].result.value] + Contents(s'))
      && (s'.points[q].result.None? ==> Contents(s') == Contents(s))
      && (s'.points[q].result.None? <==> s.tail.None? || Contents(s) == [] || Or0(s.head) !in s.items)
  {
    LockComesFree(s, p, HEAD, d);
    var s1 := Next(s, Die(p));
    var s2 := Next(s1, Wait(d));
    es := DequeueAlone(s2, q, lease);
    First(s, Die(p), [Wait(d)] + es);
    First(s1, Wait(d), es);
    hide Exec, Next, Slots, AfterDequeue;
  }
}
