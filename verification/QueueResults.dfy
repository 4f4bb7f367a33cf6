/** Every operation on the queue, and its own deed. */
module QueueResults {
  import opened Cache
  import opened Deque
  import KeyLock
  import opened JobQueue
  import opened QueueRuns

  /** What client `p` was last asked to do, and how many deeds there were then; for a `Requeue`, whether its first check
      found the head absent, and whether it had to fall back on `Enqueue`. */
  datatype Request = Request(begun: nat, op: Option<Op>, headAbsent: bool, fell: bool)

  const NOTHING := Request(0, None, false, false)

  /** A `Requeue` falls back when both its checks find their counters absent, or its wait for the head's lock ends. */
  function Asked(s: Queue, e: Event, p: nat, r: Request): Request {
    if e.Start? && e.p == p && Ready(s, p) then Request(|s.deeds|, Some(e.op), false, false)
    else if e == Step(p) && Alive(s, p) && s.points[p].ReqHead? then r.(headAbsent := s.head.None?)
    else if e == Step(p) && Alive(s, p) && s.points[p].ReqTail? then r.(fell := r.headAbsent && s.tail.None?)
    else if e == GiveUp(p) && Waiting(s, p) && s.points[p].ReqLock? then r.(fell := true)
    else r
  }

  function LastAsked(s: Queue, es: seq<Event>, p: nat, r: Request): Request
    decreases |es|
  {
    if es == [] then r else LastAsked(Next(s, es[0]), es[1..], p, Asked(s, es[0], p, r))
  }

  /** Where the deed of the operation is, once it is done. */
  function DeedAt(pt: Point): Option<nat> {
    if pt.EnqUnlock? || pt.EnqDone? || pt.ReqUnlock? || pt.ReqDone? || pt.DeqHead? then Some(pt.at)
    else if (pt.DeqUnlock? || pt.DeqDone?) && pt.result.Some? then Some(pt.at)
    else None
  }

  /** The deed that belongs to the point. */
  function DeedFor(pt: Point, p: nat): Deed
    requires DeedAt(pt).Some?
  {
    if pt.EnqUnlock? || pt.EnqDone? then PushBack(p, pt.job)
    else if pt.ReqUnlock? || pt.ReqDone? then PushFront(p, pt.job)
    else PopFront(p, if pt.DeqHead? then pt.job else pt.result.value)
  }

  predicate Enqueuing(pt: Point) {
    pt.EnqEnsure? || pt.EnqAdd? || pt.EnqLock? || pt.EnqGet? || pt.EnqItem? || pt.EnqTail? || pt.EnqUnlock? || pt.EnqDone? || pt.EnqFailed?
  }

  predicate PushingFront(pt: Point) {
    pt.ReqHead? || pt.ReqTail? || pt.ReqEnsure? || pt.ReqAdd? || pt.ReqLock? || pt.ReqGet? || pt.ReqItem? || pt.ReqPut?
    || pt.ReqUnlock? || pt.ReqDone?
  }

  /** The point is one of the operation asked for, with its job; a `Requeue` goes on as an `Enqueue` exactly when it
      falls back. */
  predicate Serves(pt: Point, r: Request) {
    if pt.Out? then r.op == None
    else if Enqueuing(pt) then r.op == Some(Enqueue(pt.job)) || (r.op == Some(Requeue(pt.job)) && r.fell)
    else if PushingFront(pt) then r.op == Some(Requeue(pt.job)) && !r.fell && (pt.ReqTail? ==> r.headAbsent)
    else r.op == Some(TryDequeue)
  }

  /** Since it was asked the client has made the one deed its point says, or none. */
  predicate OneDeed(s: Queue, p: nat, r: Request) {
    && p < |s.points| && r.begun <= |s.deeds| && Serves(s.points[p], r)
    && (DeedAt(s.points[p]).Some? ==>
          var at := DeedAt(s.points[p]).value;
          r.begun <= at < |s.deeds| && s.deeds[at] == DeedFor(s.points[p], p))
    && (forall i :: r.begun <= i < |s.deeds| && s.deeds[i].client == p ==> DeedAt(s.points[p]) == Some(i))
  }

  lemma EnqOneDeed(s: Queue, p: nat, r: Request)
    requires OneDeed(s, p, r) && Enqueuing(s.points[p])
    ensures OneDeed(EnqStep(s, p), p, r)
  {
  }

  lemma ReqOneDeed(s: Queue, p: nat, r: Request)
    requires OneDeed(s, p, r) && Alive(s, p) && PushingFront(s.points[p])
    ensures OneDeed(ReqStep(s, p), p, Asked(s, Step(p), p, r))
  {
    if s.points[p].ReqHead? || s.points[p].ReqTail? {
      ChecksOneDeed(s, p, r);
    } else {
      assert Asked(s, Step(p), p, r) == r;
      hide Asked;
    }
  }

  lemma ChecksOneDeed(s: Queue, p: nat, r: Request)
    requires OneDeed(s, p, r) && Alive(s, p) && (s.points[p].ReqHead? || s.points[p].ReqTail?)
    ensures OneDeed(ReqStep(s, p), p, Asked(s, Step(p), p, r))
  {
  }

  lemma DeqOneDeed(s: Queue, p: nat, r: Request)
    requires OneDeed(s, p, r) && !Enqueuing(s.points[p]) && !PushingFront(s.points[p])
    ensures OneDeed(DeqStep(s, p), p, r)
  {
  }

  /** Other clients' deeds, and moves of the lock, do not touch it. */
  lemma StaysOneDeed(s: Queue, s': Queue, p: nat, r: Request)
    requires OneDeed(s, p, r) && p < |s'.points| && s'.points[p] == s.points[p]
    requires s.deeds <= s'.deeds && forall i :: |s.deeds| <= i < |s'.deeds| ==> s'.deeds[i].client != p
    ensures OneDeed(s', p, r)
  {
    forall i | r.begun <= i < |s'.deeds| && s'.deeds[i].client == p ensures DeedAt(s'.points[p]) == Some(i) {
      assert i < |s.deeds|;
      assert s'.deeds[i] == s.deeds[i];
    }
  }

  lemma OwnStep(s: Queue, p: nat, r: Request)
    requires Inv(s) && OneDeed(s, p, r) && Alive(s, p)
    ensures OneDeed(StepOf(s, p), p, Asked(s, Step(p), p, r))
  {
    var pt, s' := s.points[p], StepOf(s, p);
    assert PointOk(s, p);
    if Enabled(s, p) {
      OwnDataStep(s, p, r);
    } else {
      OwnOtherStep(s, p);
      if Unlocking(pt) && s.lock.procs[p].Idle? {
        assert DeedAt(Finish(pt)) == DeedAt(pt);
      } else {
        StaysOneDeed(s, s', p, r);
      }
    }
    hide DataStep, Asked, Enabled;
  }

  lemma OwnDataStep(s: Queue, p: nat, r: Request)
    requires OneDeed(s, p, r) && Enabled(s, p)
    ensures OneDeed(DataStep(s, p), p, Asked(s, Step(p), p, r))
  {
    if Enqueuing(s.points[p]) { EnqOneDeed(s, p, r); }
    else if PushingFront(s.points[p]) { ReqOneDeed(s, p, r); }
    else { DeqOneDeed(s, p, r); }
    hide EnqStep, DeqStep, ReqStep, OneDeed;
  }

  /** A step that is not one on the counters and slots. */
  lemma OwnOtherStep(s: Queue, p: nat)
    requires Inv(s) && Alive(s, p) && !Enabled(s, p)
    ensures forall r :: Asked(s, Step(p), p, r) == r
    ensures var s' := StepOf(s, p);
      s'.deeds == s.deeds && |s'.points| == |s.points| &&
      s'.points[p] == if Unlocking(s.points[p]) && s.lock.procs[p].Idle? then Finish(s.points[p]) else s.points[p]
  {
    assert PointOk(s, p);
    hide DataStep;
  }

  lemma OthersStep(s: Queue, p: nat, q: nat, r: Request)
    requires Inv(s) && OneDeed(s, p, r) && Alive(s, q) && q != p
    ensures OneDeed(Next(s, Step(q)), p, r)
  {
    var s' := Next(s, Step(q));
    OneDeedAtATime(s, Step(q));
    StepPoints(s, q, p);
    assert s.deeds <= s'.deeds && forall i :: |s.deeds| <= i < |s'.deeds| ==> s'.deeds[i].client == q;
    hide Next, StepOf;
    StaysOneDeed(s, s', p, r);
  }

  lemma Starts(s: Queue, e: Event, p: nat, r: Request)
    requires OneDeed(s, p, r) && e.Start?
    ensures OneDeed(Next(s, e), p, Asked(s, e, p, r))
  {
    var s' := Next(s, e);
    assert s'.deeds == s.deeds && |s'.points| == |s.points|;
    if !(e.p == p && Ready(s, p)) {
      StaysOneDeed(s, s', p, r);
    }
  }

  lemma GivesUp(s: Queue, q: nat, p: nat, r: Request)
    requires OneDeed(s, p, r)
    ensures OneDeed(Next(s, GiveUp(q)), p, Asked(s, GiveUp(q), p, r))
  {
    var s' := Next(s, GiveUp(q));
    assert s'.deeds == s.deeds && |s'.points| == |s.points|;
    if q != p || !Waiting(s, p) {
      StaysOneDeed(s, s', p, r);
    }
  }

  lemma NextOneDeed(s: Queue, e: Event, p: nat, r: Request)
    requires Inv(s) && OneDeed(s, p, r)
    ensures OneDeed(Next(s, e), p, Asked(s, e, p, r))
  {
    if e.Start? {
      Starts(s, e, p, r);
    } else if e.GiveUp? {
      GivesUp(s, e.p, p, r);
    } else if e.Step? {
      if Alive(s, e.p) {
        if e.p == p { OwnStep(s, p, r); } else { OthersStep(s, p, e.p, r); }
      }
    } else {
      assert Next(s, e).deeds == s.deeds && Next(s, e).points == s.points;
      StaysOneDeed(s, Next(s, e), p, r);
    }
  }

  lemma {:induction false} ExecOneDeed(s: Queue, es: seq<Event>, p: nat, r: Request)
    requires Inv(s) && OneDeed(s, p, r)
    ensures Inv(Exec(s, es)) && OneDeed(Exec(s, es), p, LastAsked(s, es, p, r))
    decreases |es|
  {
    if es != [] {
      NextOneDeed(s, es[0], p, r);
      JobQueue.NextInv(s, es[0]);
      hide Next, Inv, OneDeed, Asked;
      ExecOneDeed(Next(s, es[0]), es[1..], p, Asked(s, es[0], p, r));
    }
  }

  // ---- Main results ----

  /** The client's operation has returned: what it was, and which deed it rests on, if any. */
  predicate Returned(pt: Point) {
    pt.EnqDone? || pt.EnqFailed? || pt.DeqDone? || pt.ReqDone?
  }

  /** The deed a returned operation rests on, by what was asked, whether it fell back, and what came back. */
  predicate Rests(pt: Point, op: Op, fell: bool, d: Deed, p: nat) {
    match op
    case Enqueue(j) => pt.EnqDone? && d == PushBack(p, j)
    case Requeue(j) => if fell then pt.EnqDone? && d == PushBack(p, j) else pt.ReqDone? && d == PushFront(p, j)
    case TryDequeue => pt.DeqDone? && pt.result.Some? && d == PopFront(p, pt.result.value)
  }

  /** Whether the operation came back without effect: an enqueue that threw, or a dequeue with nothing. */
  predicate Empty(pt: Point) {
    pt.EnqFailed? || (pt.DeqDone? && pt.result.None?)
  }

  /** Every operation that has returned has made, since it was asked for, exactly one deed, the one its result says, or,
      if it came back without effect, none. A `Requeue` has pushed its job to the front unless it fell back. */
  lemma {:induction false} ReturnedMeansItsOwnDeed(n: nat, es: seq<Event>, p: nat)
    requires p < n
    ensures ItsOwnDeed(Exec(Init(n), es), p, LastAsked(Init(n), es, p, NOTHING))
  {
    InitInv(n);
    ExecOneDeed(Init(n), es, p, NOTHING);
  }

  /** What a client whose operation has returned has done to the queue since it was asked. */
  predicate ItsOwnDeed(s: Queue, p: nat, r: Request) {
    && p < |s.points|
    && (Returned(s.points[p]) ==>
      var pt := s.points[p];
      && r.op.Some? && r.begun <= |s.deeds|
      && (pt.EnqFailed? && r.op.value.Requeue? ==> r.fell)
      && (Empty(pt) ==> forall i :: r.begun <= i < |s.deeds| ==> s.deeds[i].client != p)
      && (!Empty(pt) ==> r.begun <= pt.at < |s.deeds| && Rests(pt, r.op.value, r.fell, s.deeds[pt.at], p))
      && (!Empty(pt) ==> forall i :: r.begun <= i < |s.deeds| && s.deeds[i].client == p ==> i == pt.at))
  }

  lemma {:induction false} AskedNoEarlier(s: Queue, es: seq<Event>, p: nat, r: Request)
    requires Inv(s) && OneDeed(s, p, r)
    ensures LastAsked(s, es, p, r).begun >= r.begun
    decreases |es|
  {
    if es != [] {
      var s', r' := Next(s, es[0]), Asked(s, es[0], p, r);
      NextOneDeed(s, es[0], p, r);
      JobQueue.NextInv(s, es[0]);
      assert r'.begun >= r.begun;
      hide Next, Inv, OneDeed, Asked;
      AskedNoEarlier(s', es[1..], p, r');
    }
  }

  /** Two operations of one client rest on two deeds: what it starts after one has returned with effect rests on
      a later one. Different clients' deeds differ by their client. */
  lemma {:induction false} DistinctDeeds(n: nat, a: seq<Event>, op: Op, b: seq<Event>, p: nat)
    requires p < n
    ensures var s1, s2 := Exec(Init(n), a), Exec(Exec(Init(n), a), [Start(p, op)] + b);
      HasEffect(s1, p) && Alive(s1, p) && HasEffect(s2, p) ==> s1.points[p].at < s2.points[p].at
  {
    var s1 := Exec(Init(n), a);
    var r1 := LastAsked(Init(n), a, p, NOTHING);
    InitInv(n);
    ExecOneDeed(Init(n), a, p, NOTHING);
    if HasEffect(s1, p) && Alive(s1, p) {
      var s' := Next(s1, Start(p, op));
      assert ([Start(p, op)] + b)[1..] == b;
      NextOneDeed(s1, Start(p, op), p, r1);
      JobQueue.NextInv(s1, Start(p, op));
      var r' := Request(|s1.deeds|, Some(op), false, false);
      ExecOneDeed(s', b, p, r');
      AskedNoEarlier(s', b, p, r');
      assert s'.deeds == s1.deeds;
    }
  }

  /** The client's operation has returned, with effect. */
  predicate HasEffect(s: Queue, p: nat) {
    p < |s.points| && Returned(s.points[p]) && !Empty(s.points[p])
  }
}
