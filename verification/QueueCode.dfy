/** The operations of `NCacheJobQueue` as written, each run without interruption. Whether the
    lock is granted in time is an input; the interleavings are those of `JobQueue`, and an undisturbed
    operation there comes to the same counters and slots (`QueueTurns`). */
module QueueCode {
  import opened Cache
  import opened Deque
  import opened JobQueue
  import opened QueueTurns

  class NCacheJobQueue {
    var head: Option<int>
    var tail: Option<int>
    var items: map<int, Job>

    predicate Valid()
      reads this
    {
      Or0(head) <= Or0(tail)
    }

    function Waiting(): seq<Job>
      reads this
    {
      Slots(items, Or0(head), Or0(tail))
    }

    function Data(): Store
      reads this
    {
      Store(head, tail, items)
    }

    constructor ()
      ensures Valid() && Waiting() == []
    {
      head, tail, items := None, None, map[];
    }

    method Enqueue(job: Job, granted: bool) returns (done: bool)
      requires Valid()
      modifies this
      ensures Valid() && done == granted
      ensures Waiting() == if granted then old(Waiting()) + [job] else old(Waiting())
      ensures granted ==> Data() == AfterEnqueue(old(Data()), job)
    {
      if tail.None? { tail := Some(0); }
      if !granted {
        return false;
      }
      var t := Or0(tail);
      SlotsFrame(items, items[t := job], Or0(head), t);
      SlotsSnoc(items[t := job], Or0(head), t);
      items := items[t := job];
      tail := Some(t + 1);
      return true;
    }

    /** The front job, or nothing: the queue is empty or was never used, the lock was not
        granted, or the front slot was left empty by a dequeuer that crashed. */
    method TryDequeue(granted: bool) returns (job: Option<Job>)
      requires Valid()
      modifies this
      ensures Valid()
      ensures job.Some? ==> old(Waiting()) == [job.value] + Waiting()
      ensures job.None? ==> Waiting() == old(Waiting())
      ensures job.None? <==>
        !granted || old(tail).None? || old(Waiting()) == [] || Or0(old(head)) !in old(items)
      ensures granted ==> (Data(), job) == AfterDequeue(old(Data()))
    {
      if tail.None? {
        return None;
      }
      if head.None? { head := Some(0); }
      if !granted {
        return None;
      }
      var h := Or0(head);
      if h >= Or0(tail) {
        return None;
      }
      ghost var rest := Slots(items, h + 1, Or0(tail));
      if h !in items {
        assert Waiting() == [] + rest;
        head := Some(h + 1);
        return None;
      }
      job := Some(items[h]);
      assert Waiting() == [items[h]] + rest;
      SlotsFrame(items, items - {h}, h + 1, Or0(tail));
      items := items - {h};
      head := Some(h + 1);
    }

    /** Back to the front; to the back when the queue was never used or the head is not to be had. */
    method Requeue(job: Job, headGranted: bool, tailGranted: bool) returns (done: bool)
      requires Valid()
      modifies this
      ensures Valid()
      ensures var unused := old(head).None? && old(tail).None?;
        && done == (tailGranted || (headGranted && !unused))
        && Waiting() == if headGranted && !unused then [job] + old(Waiting())
                        else if tailGranted then old(Waiting()) + [job]
                        else old(Waiting())
      ensures headGranted && tailGranted ==> Data() == AfterRequeue(old(Data()), job)
    {
      if head.None? && tail.None? {
        done := Enqueue(job, tailGranted);
        return;
      }
      if head.None? { head := Some(0); }
      if !headGranted {
        done := Enqueue(job, tailGranted);
        return;
      }
      var h := Or0(head) - 1;
      SlotsFrame(items, items[h := job], h + 1, Or0(tail));
      items := items[h := job];
      head := Some(h);
      return true;
    }

    method GetTotalLength() returns (n: int)
      requires Valid()
      ensures n == Or0(tail) - Or0(head) >= |Waiting()|
      ensures n == |Waiting()| <==> forall i :: Or0(head) <= i < Or0(tail) ==> i in items
    {
      SlotsLength(items, Or0(head), Or0(tail));
      n := if Or0(tail) > Or0(head) then Or0(tail) - Or0(head) else 0;
    }

    method GetAllIds() returns (ids: seq<Job>)
      requires Valid()
      ensures ids == Waiting()
    {
      ids := [];
      var h, t := Or0(head), Or0(tail);
      for i := h to t
        invariant ids == Slots(items, h, i)
      {
        SlotsSnoc(items, h, i);
        if i in items { ids := ids + [items[i]]; }
      }
    }
  }

  lemma {:induction false} SlotsLength(items: map<int, Job>, lo: int, hi: int)
    requires lo <= hi
    ensures |Slots(items, lo, hi)| <= hi - lo
    ensures |Slots(items, lo, hi)| == hi - lo <==> forall i :: lo <= i < hi ==> i in items
    decreases hi - lo
  {
    if lo < hi { SlotsLength(items, lo + 1, hi); }
  }
}
