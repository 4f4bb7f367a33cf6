/** What every run of the cached queue guarantees. */
module QueueRuns {
  import opened Cache
  import opened Deque
  import KeyLock
  import opened JobQueue

  // ---- Runs without crashes have no holes ----

  predicate Popping(s: Queue, p: nat) {
    p < |s.points| && s.points[p].DeqHead? && KeyLock.Holds(s.lock, p, HEAD)
  }

  /** Every slot from head to tail is filled, except the first one while a dequeuer
      that has just emptied it has yet to move the head; and no one skips a slot. */
  ghost predicate HoleFree(s: Queue) {
    && (forall p :: 0 <= p < |s.lock.procs| ==> !s.lock.procs[p].Crashed?)
    && (forall p :: 0 <= p < |s.points| ==> !s.points[p].DeqSkip?)
    && (forall i :: Or0(s.head) < i < Or0(s.tail) ==> i in s.items)
    && (Or0(s.head) < Or0(s.tail) && Or0(s.head) !in s.items ==> exists p :: Popping(s, p))
  }

  /** Only one client works under the head lock, so if `p` does and is not popping, the head slot is filled. */
  lemma HeadFilled(s: Queue, p: nat)
    requires Inv(s) && HoleFree(s) && KeyLock.Holds(s.lock, p, HEAD) && p < |s.points| && !s.points[p].DeqHead?
    ensures Or0(s.head) < Or0(s.tail) ==> Or0(s.head) in s.items
  {
    if Or0(s.head) < Or0(s.tail) && Or0(s.head) !in s.items {
      var q :| Popping(s, q);
      KeyLock.OneOwner(s.lock, p, q, HEAD);
    }
  }

  /** A popping client other than `p` is still popping after a step of `p`. */
  lemma StillPopping(s: Queue, s': Queue, p: nat, q: nat)
    requires Popping(s, q) && q != p && SameOrLeft(s, s', p)
    requires p < |s.points| == |s'.points| && s'.points == s.points[p := s'.points[p]]
    ensures Popping(s', q)
  {
  }

  lemma ReadHoleFree(s: Queue, p: nat)
    requires Inv(s) && HoleFree(s) && Enabled(s, p) && !Writes(s.points[p])
    ensures HoleFree(DataStep(s, p))
  {
    var s' := DataStep(s, p);
    assert PointOk(s, p);
    ReadPoint(s, p);
    if s.points[p].DeqSlot? { HeadFilled(s, p); }
    assert !s'.points[p].DeqSkip?;
    if Or0(s.head) < Or0(s.tail) && Or0(s.head) !in s.items {
      var q :| Popping(s, q);
      StillPopping(s, s', p, q);
    }
  }

  lemma EnqHoleFree(s: Queue, p: nat)
    requires Inv(s) && HoleFree(s) && Enabled(s, p) && (s.points[p].EnqItem? || s.points[p].EnqTail?)
    ensures HoleFree(DataStep(s, p))
  {
    assert PointOk(s, p);
    if Or0(s.head) < Or0(s.tail) && Or0(s.head) !in s.items {
      var q :| Popping(s, q);
      StillPopping(s, DataStep(s, p), p, q);
    }
  }

  lemma HeadHoleFree(s: Queue, p: nat)
    requires Inv(s) && HoleFree(s) && Enabled(s, p)
    requires var pt := s.points[p]; pt.DeqSkip? || pt.DeqRemove? || pt.DeqHead? || pt.ReqItem? || pt.ReqPut?
    ensures HoleFree(DataStep(s, p))
  {
    assert PointOk(s, p);
    if !s.points[p].DeqHead? { HeadFilled(s, p); }
    if s.points[p].DeqRemove? { assert Popping(DataStep(s, p), p); }
  }

  lemma StepHoleFree(s: Queue, p: nat)
    requires Inv(s) && HoleFree(s) && Enabled(s, p)
    ensures HoleFree(DataStep(s, p))
  {
    var pt := s.points[p];
    if !Writes(pt) { ReadHoleFree(s, p); }
    else if pt.EnqItem? || pt.EnqTail? { EnqHoleFree(s, p); }
    else { HeadHoleFree(s, p); }
  }

  lemma NextHoleFree(s: Queue, e: Event)
    requires Inv(s) && HoleFree(s) && !e.Die?
    ensures HoleFree(Next(s, e))
  {
    if e.Step? && Enabled(s, e.p) {
      StepHoleFree(s, e.p);
    } else {
      NoDataStep(s, e);
      QuietHoleFree(s, Next(s, e));
    }
  }

  lemma QuietHoleFree(s: Queue, s': Queue)
    requires HoleFree(s) && |s.points| == |s.lock.procs|
    requires s'.items == s.items && Or0(s'.head) == Or0(s.head) && Or0(s'.tail) == Or0(s.tail)
    requires |s'.points| == |s.points| && |s'.lock.procs| == |s.lock.procs|
    requires forall q :: 0 <= q < |s.points| ==> Quiet(s, s', q)
    ensures HoleFree(s')
  {
    forall p | 0 <= p < |s'.points| ensures !s'.points[p].DeqSkip? && !s'.lock.procs[p].Crashed? {
      assert Quiet(s, s', p);
    }
    if Or0(s.head) < Or0(s.tail) && Or0(s.head) !in s.items {
      var q :| Popping(s, q);
      assert Quiet(s, s', q);
    }
  }

  predicate Quiet(s: Queue, s': Queue, q: nat)
    requires q < |s.points| && |s'.points| == |s.points| && |s'.lock.procs| == |s.lock.procs| == |s.points|
  {
    && (s'.points[q].DeqSkip? ==> s.points[q].DeqSkip?)
    && (s'.lock.procs[q].Crashed? ==> s.lock.procs[q].Crashed?)
    && (Popping(s, q) ==> Popping(s', q))
  }

  /** Every other event leaves the slots, the counters as read, and clients inside alone. */
  lemma NoDataStep(s: Queue, e: Event)
    requires Inv(s) && !e.Die? && !(e.Step? && Enabled(s, e.p))
    ensures var s' := Next(s, e);
      && s'.items == s.items && s'.deeds == s.deeds
      && Or0(s'.head) == Or0(s.head) && Or0(s'.tail) == Or0(s.tail)
      && |s'.points| == |s.points| && |s'.lock.procs| == |s.lock.procs|
      && forall q :: 0 <= q < |s.points| ==> Quiet(s, s', q)
  {
    var s' := Next(s, e);
    SameSizes(s, e);
    forall q | 0 <= q < |s.points| ensures |s'.points| == |s.points| && |s'.lock.procs| == |s.lock.procs| && Quiet(s, s', q) {
      assert PointOk(s, q);
      if e.Step? || e.Retry? { OwnLockStep(s, e, q); }
      else if e.Wait? { KeyLock.Frame(s.lock, KeyLock.Tick(e.d), q); }
    }
  }

  lemma SameSizes(s: Queue, e: Event)
    requires !(e.Step? && Enabled(s, e.p))
    ensures |Next(s, e).points| == |s.points| && |Next(s, e).lock.procs| == |s.lock.procs|
  {
    if e.Step? && Alive(s, e.p) {
      StepSizes(s, e.p);
    }
  }

  lemma StepSizes(s: Queue, p: nat)
    requires Alive(s, p) && !Enabled(s, p)
    ensures |StepOf(s, p).points| == |s.points| && |StepOf(s, p).lock.procs| == |s.lock.procs|
  {
    var s' := StepOf(s, p);
    if s' == DataStep(s, p) && s'.lock == s.lock { DataPoints(s, p); }
  }

  /** A step of the lock protocol by a client that is not inside keeps everyone quiet. */
  lemma LockStepQuiet(s: Queue, e: KeyLock.Event, q: nat)
    requires |s.points| == |s.lock.procs| && q < |s.points| && (e.Call? || e.Begin?)
    requires e.p < |s.points| && !s.points[e.p].DeqHead?
    ensures var s' := s.(lock := KeyLock.Next(s.lock, e));
      |s'.lock.procs| == |s.lock.procs| && Quiet(s, s', q)
  {
    KeyLock.Frame(s.lock, e, q);
  }

  lemma OwnLockStep(s: Queue, e: Event, q: nat)
    requires Inv(s) && (e.Retry? || (e.Step? && !Enabled(s, e.p))) && q < |s.points| && PointOk(s, q)
    ensures var s' := Next(s, e);
      |s'.points| == |s.points| && |s'.lock.procs| == |s.lock.procs| && Quiet(s, s', q)
  {
    if e.Retry? {
      if Waiting(s, e.p) { LockStepQuiet(s, KeyLock.Begin(e.p, KeyOf(s.points[e.p]).value, Some(e.lease), true), q); }
    } else if Alive(s, e.p) {
      var pt := s.points[e.p];
      if Unlocking(pt) { LockStepQuiet(s, KeyLock.Call(e.p, true), q); }
      else if Locking(pt) { LockStepQuiet(s, KeyLock.Call(e.p, Present(s, KeyOf(pt).value)), q); }
    }
  }

  lemma {:induction false} ExecHoleFree(s: Queue, es: seq<Event>)
    requires Inv(s) && HoleFree(s) && forall i :: 0 <= i < |es| ==> !es[i].Die?
    ensures HoleFree(Exec(s, es))
    decreases |es|
  {
    if es != [] {
      NextInv(s, es[0]);
      NextHoleFree(s, es[0]);
      ExecHoleFree(Next(s, es[0]), es[1..]);
    }
  }

  // ---- Main results ----

  /** Refinement. In any interleaving of single cache calls, crashes included, the jobs waiting in
      the slots are those left by the deeds, each of which is possible on the queue before it;
      the head never passes the tail; and a job a `TryDequeue` returns is one that it popped. */
  lemma RefinesDeque(n: nat, es: seq<Event>, p: nat)
    ensures var s := Exec(Init(n), es);
      && DoAll(s.deeds) == Some(Contents(s))
      && Or0(s.head) <= Or0(s.tail)
      && (p < |s.points| && s.points[p].DeqDone? && s.points[p].result.Some? ==>
            s.points[p].at < |s.deeds| && s.deeds[s.points[p].at] == PopFront(p, s.points[p].result.value))
  {
    InitInv(n);
    ExecInv(Init(n), es);
    var s := Exec(Init(n), es);
    if p < |s.points| { assert PointOk(s, p); }
  }

  /** In a run without crashes every slot from head to tail is filled, save the one being
      popped, and the "slot was skipped" branch is never reached. */
  lemma NoSlotIsSkipped(n: nat, es: seq<Event>)
    requires forall i :: 0 <= i < |es| ==> !es[i].Die?
    ensures var s := Exec(Init(n), es);
      && (forall p :: 0 <= p < |s.points| ==> !s.points[p].DeqSkip?)
      && (forall i :: Or0(s.head) <= i < Or0(s.tail) && i !in s.items ==>
            i == Or0(s.head) && exists p :: Popping(s, p))
  {
    InitInv(n);
    ExecHoleFree(Init(n), es);
  }

  /** The deed of the call a client makes next, if that call takes effect on the queue. */
  function DeedOf(s: Queue, p: nat): Option<Deed>
    requires p < |s.points|
  {
    match s.points[p]
    case EnqTail(j, _) => Some(PushBack(p, j))
    case DeqRemove(_, j) => Some(PopFront(p, j))
    case ReqPut(j, _) => Some(PushFront(p, j))
    case _ => None
  }

  predicate DoesItsDeed(s: Queue, s': Queue, p: nat)
    requires p < |s.points|
  {
    if DeedOf(s, p).Some? then
      s'.deeds == s.deeds + [DeedOf(s, p).value] && Do(Contents(s), DeedOf(s, p).value) == Some(Contents(s'))
    else s'.deeds == s.deeds && Contents(s') == Contents(s)
  }

  lemma WriteDoesItsDeed(s: Queue, p: nat)
    requires Inv(s) && Enabled(s, p) && Writes(s.points[p])
    ensures DoesItsDeed(s, DataStep(s, p), p)
  {
    var pt := s.points[p];
    assert PointOk(s, p);
    if pt.EnqItem? || pt.EnqTail? { EnqWriteInv(s, p); }
    else if pt.DeqRemove? { DeqRemoveInv(s, p); }
    else if pt.DeqSkip? || pt.DeqHead? { DeqAdvanceInv(s, p); }
    else if pt.ReqItem? { ReqItemInv(s, p); }
    else { ReqPutInv(s, p); }
  }

  lemma ReadDoesNothing(s: Queue, p: nat)
    requires Inv(s) && Enabled(s, p) && !Writes(s.points[p])
    ensures DoesItsDeed(s, DataStep(s, p), p)
  {
    assert PointOk(s, p);
    ReadInv(s, p);
    ReadPoint(s, p);
  }

  /** The queue changes only when a live client makes such a call, and then by that one deed. */
  lemma OneDeedAtATime(s: Queue, e: Event)
    requires Inv(s)
    ensures var s' := Next(s, e);
      if e.Step? && Enabled(s, e.p) then DoesItsDeed(s, s', e.p)
      else s'.deeds == s.deeds && Contents(s') == Contents(s)
  {
    if e.Step? && Enabled(s, e.p) {
      assert Next(s, e) == DataStep(s, e.p);
      hide Next, DoesItsDeed;
      if Writes(s.points[e.p]) { WriteDoesItsDeed(s, e.p); } else { ReadDoesNothing(s, e.p); }
    } else if !e.Die? {
      NextInv(s, e);
      NoDataStep(s, e);
      SameContents(s, Next(s, e));
    }
  }

  lemma SameContents(s: Queue, s': Queue)
    requires s'.items == s.items && Or0(s'.head) == Or0(s.head) && Or0(s'.tail) == Or0(s.tail)
    ensures Contents(s') == Contents(s)
  {
  }

  /** A dequeuer that gives up after reading the tail saw an empty queue. */
  lemma EmptyMeansEmpty(s: Queue, p: nat)
    requires Inv(s) && Enabled(s, p) && (s.points[p].DeqTailHas? || s.points[p].DeqTailGet?)
    requires Next(s, Step(p)).points[p].DeqUnlock?
    ensures Contents(s) == [] && Next(s, Step(p)).points[p].result == None
  {
    assert PointOk(s, p);
  }

  // ---- First in, first out over runs ----

  /** The job of a client on its way to push it to the front. */
  function Requeuing(pt: Point): Option<Job> {
    if pt.ReqHead? || pt.ReqTail? || pt.ReqEnsure? || pt.ReqAdd? || pt.ReqLock? || pt.ReqGet? || pt.ReqItem? || pt.ReqPut?
    then Some(pt.job) else None
  }

  predicate Spared(o: Option<Job>, js: set<Job>) {
    o.Some? ==> o.value !in js
  }

  predicate NoneRequeued(s: Queue, js: set<Job>) {
    && Keep(Requeued(s.deeds), js) == []
    && forall p :: 0 <= p < |s.points| ==> Spared(Requeuing(s.points[p]), js)
  }

  predicate StartsNoRequeue(es: seq<Event>, js: set<Job>) {
    forall i :: 0 <= i < |es| && es[i].Start? && es[i].op.Requeue? ==> es[i].op.job !in js
  }

  predicate SameOrNone(a: Option<Job>, b: Option<Job>) {
    b.None? || b == a
  }

  lemma ReqStepRequeuing(s: Queue, p: nat)
    requires p < |s.points|
    ensures SameOrNone(Requeuing(s.points[p]), Requeuing(ReqStep(s, p).points[p]))
  {
  }

  lemma OtherStepRequeuing(s: Queue, p: nat)
    requires p < |s.points| && Requeuing(s.points[p]).None?
    ensures Requeuing(EnqStep(s, p).points[p]).None? && Requeuing(DeqStep(s, p).points[p]).None?
  {
  }

  lemma StepRequeuing(s: Queue, p: nat)
    requires Alive(s, p)
    ensures SameOrNone(Requeuing(s.points[p]), Requeuing(StepOf(s, p).points[p]))
  {
    var s' := StepOf(s, p);
    if s' == DataStep(s, p) {
      if Requeuing(s.points[p]).Some? { ReqStepRequeuing(s, p); } else { OtherStepRequeuing(s, p); }
    }
  }

  /** No step but the start of a `Requeue` puts a client on its way to the front. */
  lemma RequeuingStays(s: Queue, e: Event, p: nat)
    requires p < |s.points| && p < |Next(s, e).points|
    requires !(e.Start? && e.op.Requeue?)
    ensures SameOrNone(Requeuing(s.points[p]), Requeuing(Next(s, e).points[p]))
  {
    if e.Step? {
      if Alive(s, e.p) {
        if p == e.p { StepRequeuing(s, p); } else { StepPoints(s, e.p, p); }
      }
    }
  }

  lemma StepPoints(s: Queue, p: nat, q: nat)
    requires Alive(s, p) && q < |s.points| && q != p
    ensures |StepOf(s, p).points| == |s.points| && StepOf(s, p).points[q] == s.points[q]
  {
    var s' := StepOf(s, p);
    if s' == DataStep(s, p) { DataPoints(s, p); }
  }

  lemma DataPoints(s: Queue, p: nat)
    requires p < |s.points|
    ensures |DataStep(s, p).points| == |s.points|
    ensures forall q :: 0 <= q < |s.points| && q != p ==> DataStep(s, p).points[q] == s.points[q]
  {
    EnqPoints(s, p);
    DeqPoints(s, p);
    ReqPoints(s, p);
    hide EnqStep, DeqStep, ReqStep;
  }

  lemma EnqPoints(s: Queue, p: nat)
    requires p < |s.points|
    ensures |EnqStep(s, p).points| == |s.points| && EnqStep(s, p).points == s.points[p := EnqStep(s, p).points[p]]
  {
  }

  lemma DeqPoints(s: Queue, p: nat)
    requires p < |s.points|
    ensures |DeqStep(s, p).points| == |s.points| && DeqStep(s, p).points == s.points[p := DeqStep(s, p).points[p]]
  {
  }

  lemma ReqPoints(s: Queue, p: nat)
    requires p < |s.points|
    ensures |ReqStep(s, p).points| == |s.points| && ReqStep(s, p).points == s.points[p := ReqStep(s, p).points[p]]
  {
  }

  lemma NextNoneRequeued(s: Queue, e: Event, js: set<Job>)
    requires Inv(s) && NoneRequeued(s, js) && StartsNoRequeue([e], js)
    ensures NoneRequeued(Next(s, e), js)
  {
    var s' := Next(s, e);
    assert [e][0] == e;
    OneDeedAtATime(s, e);
    if s'.deeds != s.deeds {
      assert s'.deeds[..|s.deeds|] == s.deeds;
      var d := DeedOf(s, e.p).value;
      assert Spared(Requeuing(s.points[e.p]), js);
      if d.PushFront? { KeepConcat(Requeued(s.deeds), [d.job], js); }
    }
    forall p | 0 <= p < |s'.points| ensures Spared(Requeuing(s'.points[p]), js) {
      PointsSpared(s, e, js, p);
    }
  }

  lemma PointsSpared(s: Queue, e: Event, js: set<Job>, p: nat)
    requires NoneRequeued(s, js) && StartsNoRequeue([e], js) && p < |Next(s, e).points|
    ensures Spared(Requeuing(Next(s, e).points[p]), js)
  {
    assert [e][0] == e;
    NextSize(s, e);
    assert Spared(Requeuing(s.points[p]), js);
    if !(e.Start? && e.op.Requeue?) { RequeuingStays(s, e, p); }
  }

  lemma NextSize(s: Queue, e: Event)
    ensures |Next(s, e).points| == |s.points|
  {
    if e.Step? && Alive(s, e.p) && Next(s, e) == DataStep(s, e.p) { DataPoints(s, e.p); }
  }

  lemma {:induction false} ExecNoneRequeued(s: Queue, es: seq<Event>, js: set<Job>)
    requires Inv(s) && NoneRequeued(s, js) && StartsNoRequeue(es, js)
    ensures NoneRequeued(Exec(s, es), js)
    decreases |es|
  {
    if es != [] {
      assert StartsNoRequeue([es[0]], js) && StartsNoRequeue(es[1..], js);
      NextInv(s, es[0]);
      NextNoneRequeued(s, es[0], js);
      ExecNoneRequeued(Next(s, es[0]), es[1..], js);
    }
  }

  /** Over any run, the jobs no one requeues come out in the order they were enqueued,
      and those still waiting are the rest in that order; and no job is lost or doubled. */
  lemma FifoRuns(n: nat, es: seq<Event>, js: set<Job>)
    requires StartsNoRequeue(es, js)
    ensures var s := Exec(Init(n), es);
      && Keep(Dequeued(s.deeds), js) + Keep(Contents(s), js) == Keep(Enqueued(s.deeds), js)
      && Balanced(s.deeds, Contents(s))
  {
    InitInv(n);
    ExecInv(Init(n), es);
    ExecNoneRequeued(Init(n), es, js);
    var s := Exec(Init(n), es);
    FirstInFirstOut(s.deeds, js);
    NothingLost(s.deeds);
  }
}
