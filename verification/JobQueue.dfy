/** `NCacheJobQueue`: a queue kept as two counters and one cache slot per job.

    `Enqueue` works under the lock of the tail counter, `TryDequeue` and `Requeue`
    under that of the head counter, so an enqueuer and a dequeuer do run at the
    same time. Each step is one cache call; every client may crash at any step. */
module JobQueue {
  import opened Cache
  import opened Deque
  import opened KeyLock

  const HEAD := QueueHead(0)
  const TAIL := QueueTail(0)

  /** Each point names the next cache call; `Lock` points run `Acquire` first. */
  datatype Point =
    | Out
    | EnqEnsure(job: Job)                        // Contains(tail)
    | EnqAdd(job: Job)                           // Add(tail, 0)
    | EnqLock(job: Job)                          // lock tail, then Contains(tail)
    | EnqGet(job: Job)                           // Get(tail)
    | EnqItem(job: Job, tail: int)               // Insert(item tail, job)
    | EnqTail(job: Job, tail: int)               // Insert(tail, tail + 1)
    | EnqUnlock(job: Job, at: nat)               // its deed is deeds[at]
    | EnqDone(job: Job, at: nat)
    | EnqFailed(job: Job)                        // Enqueue threw: no lock in time
    | DeqStart                                   // Contains(tail)
    | DeqEnsure                                  // Contains(head)
    | DeqAdd                                     // Add(head, 0)
    | DeqLock                                    // lock head, then Contains(head)
    | DeqHeadGet                                 // Get(head)
    | DeqTailHas(head: int)                      // Contains(tail)
    | DeqTailGet(head: int)                      // Get(tail)
    | DeqSlot(head: int)                         // Contains(item head)
    | DeqSkip(head: int)                         // Insert(head, head + 1): the slot was empty
    | DeqItem(head: int)                         // Get(item head)
    | DeqRemove(head: int, job: Job)             // Remove(item head)
    | DeqHead(head: int, job: Job, at: nat)      // Insert(head, head + 1)
    | DeqUnlock(result: Option<Job>, at: nat)
    | DeqDone(result: Option<Job>, at: nat)
    | ReqHead(job: Job)                          // Contains(head)
    | ReqTail(job: Job)                          // Contains(tail)
    | ReqEnsure(job: Job)                        // Contains(head)
    | ReqAdd(job: Job)                           // Add(head, 0)
    | ReqLock(job: Job)                          // lock head, then Contains(head)
    | ReqGet(job: Job)                           // Get(head)
    | ReqItem(job: Job, head: int)               // Insert(item head, job); `head` is the new head
    | ReqPut(job: Job, head: int)                // Insert(head, head)
    | ReqUnlock(job: Job, at: nat)
    | ReqDone(job: Job, at: nat)

  datatype Op = Enqueue(job: Job) | TryDequeue | Requeue(job: Job)

  datatype Queue = Queue(
    lock: KeyLock.State, head: Option<int>, tail: Option<int>, items: map<int, Job>,
    points: seq<Point>, deeds: seq<Deed>)

  datatype Event =
    | Start(p: nat, op: Op)
    | Step(p: nat)
    | Retry(p: nat, lease: Duration)
    | GiveUp(p: nat)
    | WarmHead                     // a starting server's Add(head, 0)
    | WarmTail                     // and its Add(tail, 0)
    | Die(p: nat)
    | Wait(d: nat)

  function Init(n: nat): Queue {
    Queue(KeyLock.Init(n), None, None, map[], seq(n, _ => Out), [])
  }

  function Or0(c: Option<int>): int {
    if c.Some? then c.value else 0
  }

  function At(s: Queue, p: nat, pt: Point): Queue
    requires p < |s.points|
  {
    s.(points := s.points[p := pt])
  }

  /** The key a point works under, if any. */
  function KeyOf(pt: Point): Option<Key> {
    if pt.EnqLock? || pt.EnqGet? || pt.EnqItem? || pt.EnqTail? || pt.EnqUnlock? then Some(TAIL)
    else if pt.DeqLock? || pt.DeqHeadGet? || pt.DeqTailHas? || pt.DeqTailGet? || pt.DeqSlot? || pt.DeqSkip?
         || pt.DeqItem? || pt.DeqRemove? || pt.DeqHead? || pt.DeqUnlock?
         || pt.ReqLock? || pt.ReqGet? || pt.ReqItem? || pt.ReqPut? || pt.ReqUnlock? then Some(HEAD)
    else None
  }

  predicate Locking(pt: Point) {
    pt.EnqLock? || pt.DeqLock? || pt.ReqLock?
  }

  predicate Unlocking(pt: Point) {
    pt.EnqUnlock? || pt.DeqUnlock? || pt.ReqUnlock?
  }

  predicate Alive(s: Queue, p: nat) {
    p < |s.points| && p < |s.lock.procs| && !s.lock.procs[p].Crashed?
  }

  function Present(s: Queue, k: Key): bool {
    if k == HEAD then s.head.Some? else s.tail.Some?
  }

  /** The client leaves its critical section. */
  function Leave(s: Queue, p: nat, pt: Point): Queue
    requires p < |s.points|
  {
    At(s, p, pt).(lock := KeyLock.Next(s.lock, BeginUnlock(p)))
  }

  function EnqStep(s: Queue, p: nat): Queue
    requires p < |s.points|
  {
    match s.points[p]
    case EnqEnsure(j) => At(s, p, if s.tail.Some? then EnqLock(j) else EnqAdd(j))
    case EnqAdd(j) => At(s, p, EnqLock(j)).(tail := Some(Or0(s.tail)))
    case EnqLock(j) => At(s, p, if s.tail.Some? then EnqGet(j) else EnqItem(j, 0))
    case EnqGet(j) => At(s, p, EnqItem(j, Or0(s.tail)))
    case EnqItem(j, t) => At(s, p, EnqTail(j, t)).(items := s.items[t := j])
    case EnqTail(j, t) =>
      Leave(s, p, EnqUnlock(j, |s.deeds|)).(tail := Some(t + 1), deeds := s.deeds + [PushBack(p, j)])
    case _ => s
  }

  function DeqStep(s: Queue, p: nat): Queue
    requires p < |s.points|
  {
    match s.points[p]
    case DeqStart => At(s, p, if s.tail.Some? then DeqEnsure else DeqDone(None, 0))
    case DeqEnsure => At(s, p, if s.head.Some? then DeqLock else DeqAdd)
    case DeqAdd => At(s, p, DeqLock).(head := Some(Or0(s.head)))
    case DeqLock => At(s, p, if s.head.Some? then DeqHeadGet else DeqTailHas(0))
    case DeqHeadGet => At(s, p, DeqTailHas(Or0(s.head)))
    case DeqTailHas(h) =>
      if s.tail.Some? then At(s, p, DeqTailGet(h))
      else if h >= 0 then Leave(s, p, DeqUnlock(None, 0)) else At(s, p, DeqSlot(h))
    case DeqTailGet(h) =>
      if h >= Or0(s.tail) then Leave(s, p, DeqUnlock(None, 0)) else At(s, p, DeqSlot(h))
    case DeqSlot(h) => At(s, p, if h in s.items then DeqItem(h) else DeqSkip(h))
    case DeqSkip(h) => Leave(s, p, DeqUnlock(None, 0)).(head := Some(h + 1))
    case DeqItem(h) => if h in s.items then At(s, p, DeqRemove(h, s.items[h])) else s
    case DeqRemove(h, j) =>
      At(s, p, DeqHead(h, j, |s.deeds|)).(items := s.items - {h}, deeds := s.deeds + [PopFront(p, j)])
    case DeqHead(h, j, at) => Leave(s, p, DeqUnlock(Some(j), at)).(head := Some(h + 1))
    case _ => s
  }

  function ReqStep(s: Queue, p: nat): Queue
    requires p < |s.points|
  {
    match s.points[p]
    case ReqHead(j) => At(s, p, if s.head.Some? then ReqEnsure(j) else ReqTail(j))
    case ReqTail(j) => At(s, p, if s.tail.Some? then ReqEnsure(j) else EnqEnsure(j))
    case ReqEnsure(j) => At(s, p, if s.head.Some? then ReqLock(j) else ReqAdd(j))
    case ReqAdd(j) => At(s, p, ReqLock(j)).(head := Some(Or0(s.head)))
    case ReqLock(j) => At(s, p, if s.head.Some? then ReqGet(j) else ReqItem(j, -1))
    case ReqGet(j) => At(s, p, ReqItem(j, Or0(s.head) - 1))
    case ReqItem(j, h) => At(s, p, ReqPut(j, h)).(items := s.items[h := j])
    case ReqPut(j, h) => Leave(s, p, ReqUnlock(j, |s.deeds|)).(head := Some(h), deeds := s.deeds + [PushFront(p, j)])
    case _ => s
  }

  /** `Or0(s.head)` and `Or0(s.tail)` above: a counter that is read as absent counts as 0. */
  function DataStep(s: Queue, p: nat): Queue
    requires p < |s.points|
  {
    var pt := s.points[p];
    if pt.EnqEnsure? || pt.EnqAdd? || KeyOf(pt) == Some(TAIL) then EnqStep(s, p)
    else if pt.ReqHead? || pt.ReqTail? || pt.ReqEnsure? || pt.ReqAdd? || pt.ReqLock? || pt.ReqGet?
         || pt.ReqItem? || pt.ReqPut? then ReqStep(s, p)
    else DeqStep(s, p)
  }

  /** After its unlock a client reports. */
  function Finish(pt: Point): Point {
    match pt
    case EnqUnlock(j, at) => EnqDone(j, at)
    case DeqUnlock(r, at) => DeqDone(r, at)
    case ReqUnlock(j, at) => ReqDone(j, at)
    case _ => pt
  }

  function StepOf(s: Queue, p: nat): Queue
    requires Alive(s, p)
  {
    var pt := s.points[p];
    if KeyOf(pt).None? then DataStep(s, p)
    else if Unlocking(pt) then
      if s.lock.procs[p].Idle? then At(s, p, Finish(pt))
      else s.(lock := KeyLock.Next(s.lock, Call(p, true)))
    else if Holds(s.lock, p, KeyOf(pt).value) then DataStep(s, p)
    else if Locking(pt) then s.(lock := KeyLock.Next(s.lock, Call(p, Present(s, KeyOf(pt).value))))
    else s
  }

  predicate Ready(s: Queue, p: nat) {
    Alive(s, p) && var pt := s.points[p];
      pt.Out? || pt.EnqDone? || pt.EnqFailed? || pt.DeqDone? || pt.ReqDone?
  }

  predicate Waiting(s: Queue, p: nat) {
    Alive(s, p) && Locking(s.points[p]) && (s.lock.procs[p].Idle? || s.lock.procs[p].Refused?)
  }

  /** Where a client goes whose `Acquire` timed out: `Requeue` falls back on `Enqueue`. */
  function TimedOut(pt: Point): Point {
    match pt
    case EnqLock(j) => EnqFailed(j)
    case DeqLock => DeqDone(None, 0)
    case ReqLock(j) => EnqEnsure(j)
    case _ => pt
  }

  function Next(s: Queue, e: Event): Queue {
    match e
    case Start(p, op) =>
      if !Ready(s, p) then s
      else At(s, p, match op case Enqueue(j) => EnqEnsure(j) case TryDequeue => DeqStart case Requeue(j) => ReqHead(j))
    case Step(p) => if Alive(s, p) then StepOf(s, p) else s
    case Retry(p, lease) =>
      if Waiting(s, p)
      then s.(lock := KeyLock.Next(s.lock, Begin(p, KeyOf(s.points[p]).value, Some(lease), true))) else s
    case GiveUp(p) => if Waiting(s, p) then At(s, p, TimedOut(s.points[p])) else s
    case WarmHead => s.(head := Some(Or0(s.head)))
    case WarmTail => s.(tail := Some(Or0(s.tail)))
    case Die(p) => s.(lock := KeyLock.Next(s.lock, Crash(p)))
    case Wait(d) => s.(lock := KeyLock.Next(s.lock, Tick(d)))
  }

  function Exec(s: Queue, es: seq<Event>): Queue
    decreases |es|
  {
    if es == [] then s else Exec(Next(s, es[0]), es[1..])
  }

  // ---- The abstract queue ----

  /** The jobs in the filled slots from `lo` up to, not including, `hi`. */
  function Slots(items: map<int, Job>, lo: int, hi: int): seq<Job>
    decreases hi - lo
  {
    if lo >= hi then []
    else (if lo in items then [items[lo]] else []) + Slots(items, lo + 1, hi)
  }

  /** The waiting jobs, front first. */
  function Contents(s: Queue): seq<Job> {
    Slots(s.items, Or0(s.head), Or0(s.tail))
  }

  lemma {:induction false} SlotsSnoc(items: map<int, Job>, lo: int, hi: int)
    requires lo <= hi
    ensures Slots(items, lo, hi + 1) == Slots(items, lo, hi) + (if hi in items then [items[hi]] else [])
    decreases hi - lo
  {
    if lo < hi { SlotsSnoc(items, lo + 1, hi); }
  }

  /** What lies outside the range does not matter. */
  lemma {:induction false} SlotsFrame(a: map<int, Job>, b: map<int, Job>, lo: int, hi: int)
    requires forall i :: lo <= i < hi ==> (i in a <==> i in b) && (i in a ==> a[i] == b[i])
    ensures Slots(a, lo, hi) == Slots(b, lo, hi)
    decreases hi - lo
  {
    if lo < hi { SlotsFrame(a, b, lo + 1, hi); }
  }

  // ---- Invariant ----

  predicate Outside(ph: Phase) {
    ph.Idle? || ph.Refused?
  }

  /** The client's point and its phase of the lock protocol agree. */
  predicate LockOk(s: Queue, p: nat)
    requires p < |s.points| && p < |s.lock.procs|
  {
    var pt, ph := s.points[p], Core(s.lock.procs[p]);
    if KeyOf(pt).None? then Outside(ph)
    else if Locking(pt) then
      Outside(ph) || (!ph.Crashed? && ph.key == KeyOf(pt).value && !ph.CheckToken? && !ph.RemoveLock?)
    else if Unlocking(pt) then ph.CheckToken? || ph.RemoveLock? || ph.Idle?
    else ph.Held? && ph.key == KeyOf(pt).value
  }

  /** What a live client knows of the counters and slots its lock protects. */
  predicate Knows(s: Queue, pt: Point) {
    var h, t := Or0(s.head), Or0(s.tail);
    match pt
    case EnqItem(j, tail) => tail == t
    case EnqTail(j, tail) => tail == t && t in s.items && s.items[t] == j
    case DeqTailHas(head) => head == h
    case DeqTailGet(head) => head == h
    case DeqSlot(head) => head == h < t
    case DeqSkip(head) => head == h < t && h !in s.items
    case DeqItem(head) => head == h < t && h in s.items
    case DeqRemove(head, j) => head == h < t && h in s.items && s.items[h] == j
    case DeqHead(head, j, at) => head == h < t && h !in s.items
    case ReqItem(j, head) => head == h - 1
    case ReqPut(j, head) => head == h - 1 && head in s.items && s.items[head] == j
    case _ => true
  }

  /** A job a dequeuer has in hand is one that it popped. */
  predicate HandOk(s: Queue, p: nat)
    requires p < |s.points|
  {
    match s.points[p]
    case DeqHead(_, j, at) => at < |s.deeds| && s.deeds[at] == PopFront(p, j)
    case DeqUnlock(r, at) => r.Some? ==> at < |s.deeds| && s.deeds[at] == PopFront(p, r.value)
    case DeqDone(r, at) => r.Some? ==> at < |s.deeds| && s.deeds[at] == PopFront(p, r.value)
    case _ => true
  }

  predicate PointOk(s: Queue, p: nat)
    requires p < |s.points| && p < |s.lock.procs|
  {
    && LockOk(s, p)
    && (Alive(s, p) ==> Knows(s, s.points[p]))
    && HandOk(s, p)
  }

  ghost predicate Inv(s: Queue) {
    && KeyLock.Inv(s.lock)
    && |s.points| == |s.lock.procs|
    && (forall p :: 0 <= p < |s.points| ==> PointOk(s, p))
    && Or0(s.head) <= Or0(s.tail)
    && DoAll(s.deeds) == Some(Contents(s))
  }

  lemma InitInv(n: nat)
    ensures Inv(Init(n))
  {
    KeyLock.InitInv(n);
  }

  // ---- Steps of the lock protocol ----

  lemma LockPhase(s: Queue, e: KeyLock.Event, p: nat)
    requires Inv(s) && p < |s.points| && By(e, p) && !e.BeginUnlock?
    requires e.Begin? ==> Waiting(s, p) && e.key == KeyOf(s.points[p]).value
    requires e.Call? ==> Locking(s.points[p]) || Unlocking(s.points[p])
    ensures LockOk(s.(lock := KeyLock.Next(s.lock, e)), p)

  {
    assert PointOk(s, p);
  }

  lemma LockStepInv(s: Queue, e: KeyLock.Event)
    requires Inv(s) && !e.ForceUnlock? && !e.Overrun? && !e.BeginUnlock?
    requires e.Begin? ==> Waiting(s, e.p) && e.key == KeyOf(s.points[e.p]).value
    requires e.Call? && e.p < |s.points| ==> Locking(s.points[e.p]) || Unlocking(s.points[e.p])
    ensures Inv(s.(lock := KeyLock.Next(s.lock, e)))
  {
    Frame(s.lock, e, 0);
    hide KeyLock.Next;
    var s' := s.(lock := KeyLock.Next(s.lock, e));
    KeyLock.NextInv(s.lock, e);
    forall p | 0 <= p < |s'.points| ensures PointOk(s', p) {
      assert PointOk(s, p);
      Frame(s.lock, e, p);
      if By(e, p) { LockPhase(s, e, p); StaysCrashed(s.lock, e, p); }
    }
  }

  // ---- Steps on the counters and slots ----

  /** Outside the tail lock: an enqueuer's writes go to the tail and to the slot there. */
  lemma TailWrites(s: Queue, s': Queue, pt: Point)
    requires Or0(s.head) == Or0(s'.head) <= Or0(s.tail) <= Or0(s'.tail)
    requires forall i :: i != Or0(s.tail) ==> (i in s.items <==> i in s'.items) && (i in s.items ==> s.items[i] == s'.items[i])
    requires KeyOf(pt) != Some(TAIL) && Knows(s, pt)
    ensures Knows(s', pt)
  {
  }

  /** Outside the head lock: all other writes go to the head and to slots below the tail. */
  lemma HeadWrites(s: Queue, s': Queue, pt: Point)
    requires Or0(s.tail) == Or0(s'.tail)
    requires forall i :: i >= Or0(s.tail) ==> (i in s.items <==> i in s'.items) && (i in s.items ==> s.items[i] == s'.items[i])
    requires KeyOf(pt) != Some(HEAD) && Knows(s, pt)
    ensures Knows(s', pt)
  {
  }

  /** A live client other than the holder of `k` is not at a point that works under `k`,
      or is only about to lock or unlock it, and then knows nothing yet. */
  lemma OthersElsewhere(s: Queue, p: nat, q: nat, k: Key)
    requires Inv(s) && p != q && q < |s.points| && Holds(s.lock, p, k) && Alive(s, q)
    ensures KeyOf(s.points[q]) != Some(k) || Locking(s.points[q]) || Unlocking(s.points[q])
  {
    assert PointOk(s, q);
    if Owns(s.lock, q, k) { OneOwner(s.lock, p, q, k); }
  }

  predicate SameOrLeft(s: Queue, s': Queue, p: nat) {
    s'.lock == s.lock
    || ((Holds(s.lock, p, HEAD) || Holds(s.lock, p, TAIL)) && s'.lock == KeyLock.Next(s.lock, BeginUnlock(p)))
  }

  /** The common part of all data steps of `p`. */
  lemma Assemble(s: Queue, s': Queue, p: nat)
    requires Inv(s) && Alive(s, p) && SameOrLeft(s, s', p)
    requires |s'.points| == |s.points| && s'.points == s.points[p := s'.points[p]] && PointOk(s', p)
    requires s.deeds <= s'.deeds && Or0(s'.head) <= Or0(s'.tail) && DoAll(s'.deeds) == Some(Contents(s'))
    requires forall q :: 0 <= q < |s.points| && q != p && Alive(s, q) ==> Knows(s', s.points[q])
    ensures Inv(s')
  {
    if s'.lock != s.lock { KeyLock.NextInv(s.lock, BeginUnlock(p)); }
    forall q | 0 <= q < |s'.points| ensures PointOk(s', q) {
      assert PointOk(s, q);
    }
  }

  /** A step that leaves counters, slots and deeds as they are. */
  lemma NeutralInv(s: Queue, s': Queue, p: nat)
    requires Inv(s) && Alive(s, p) && SameOrLeft(s, s', p)
    requires |s'.points| == |s.points| && s'.points == s.points[p := s'.points[p]] && PointOk(s', p)
    requires s'.items == s.items && s'.deeds == s.deeds
    requires Or0(s'.head) == Or0(s.head) && Or0(s'.tail) == Or0(s.tail)
    ensures Inv(s')
  {
    forall q | 0 <= q < |s.points| && q != p && Alive(s, q) ensures Knows(s', s.points[q]) {
      assert PointOk(s, q);
    }
    Assemble(s, s', p);
  }

  /** The slot at the tail is not yet part of the queue; moving the tail past it appends its job. */
  lemma EnqContents(s: Queue, p: nat)
    requires p < |s.points| && (s.points[p].EnqItem? || s.points[p].EnqTail?) && Knows(s, s.points[p])
    requires Or0(s.head) <= Or0(s.tail)
    ensures var s' := EnqStep(s, p);
      && Or0(s'.head) == Or0(s.head) && Or0(s.tail) <= Or0(s'.tail)
      && Knows(s', s'.points[p])
      && Contents(s') == if s.points[p].EnqTail? then Contents(s) + [s.points[p].job] else Contents(s)
  {
    var s', h, t := EnqStep(s, p), Or0(s.head), Or0(s.tail);
    SlotsFrame(s.items, s'.items, h, t);
    if s.points[p].EnqTail? {
      SlotsSnoc(s.items, h, t);
    }
  }

  lemma EnqDeeds(s: Queue, p: nat)
    requires p < |s.points| && (s.points[p].EnqItem? || s.points[p].EnqTail?) && Knows(s, s.points[p])
    requires Or0(s.head) <= Or0(s.tail) && DoAll(s.deeds) == Some(Contents(s))
    ensures s.deeds <= EnqStep(s, p).deeds && DoAll(EnqStep(s, p).deeds) == Some(Contents(EnqStep(s, p)))
  {
    EnqContents(s, p);
    var s' := EnqStep(s, p);
    if s.points[p].EnqTail? {
      assert s'.deeds == s.deeds + [PushBack(p, s.points[p].job)];
      assert s'.deeds[..|s.deeds|] == s.deeds;
    }
    hide Contents, Knows;
  }

  lemma EnqOthers(s: Queue, p: nat, q: nat)
    requires Inv(s) && Alive(s, p) && Holds(s.lock, p, TAIL) && q < |s.points| && q != p && Alive(s, q)
    requires s.points[p].EnqItem? || s.points[p].EnqTail?
    ensures Knows(EnqStep(s, p), s.points[q])
  {
    assert PointOk(s, p) && PointOk(s, q);
    OthersElsewhere(s, p, q, TAIL);
    EnqContents(s, p);
    if KeyOf(s.points[q]) != Some(TAIL) { TailWrites(s, EnqStep(s, p), s.points[q]); }
  }

  lemma EnqWriteInv(s: Queue, p: nat)
    requires Inv(s) && Alive(s, p) && Holds(s.lock, p, TAIL)
    requires s.points[p].EnqItem? || s.points[p].EnqTail?
    ensures Inv(EnqStep(s, p))
    ensures var c := Contents(s);
      Contents(EnqStep(s, p)) == if s.points[p].EnqTail? then c + [s.points[p].job] else c
  {
    var s' := EnqStep(s, p);
    assert PointOk(s, p);
    EnqContents(s, p);
    EnqDeeds(s, p);
    forall q | 0 <= q < |s.points| && q != p && Alive(s, q) ensures Knows(s', s.points[q]) {
      EnqOthers(s, p, q);
    }
    assert PointOk(s', p);
    hide Contents, Knows, DoAll;
    Assemble(s, s', p);
  }

  /** Other live clients' knowledge survives the writes of the holder of the head lock. */
  lemma HeadOthers(s: Queue, s': Queue, p: nat, q: nat)
    requires Inv(s) && Holds(s.lock, p, HEAD) && q < |s.points| && q != p && Alive(s, q)
    requires Or0(s.tail) == Or0(s'.tail)
    requires forall i :: i >= Or0(s.tail) ==> (i in s.items <==> i in s'.items) && (i in s.items ==> s.items[i] == s'.items[i])
    ensures Knows(s', s.points[q])
  {
    assert PointOk(s, q);
    OthersElsewhere(s, p, q, HEAD);
    if KeyOf(s.points[q]) != Some(HEAD) { HeadWrites(s, s', s.points[q]); }
  }

  lemma DeqRemoveInv(s: Queue, p: nat)
    requires Inv(s) && Alive(s, p) && Holds(s.lock, p, HEAD) && s.points[p].DeqRemove?
    ensures Inv(DeqStep(s, p))
    ensures var c := Contents(s); c != [] && c[0] == s.points[p].job && Contents(DeqStep(s, p)) == c[1..]
  {
    var s', h, t := DeqStep(s, p), Or0(s.head), Or0(s.tail);
    assert PointOk(s, p);
    SlotsFrame(s.items, s'.items, h + 1, t);
    assert Contents(s) == [s.points[p].job] + Slots(s.items, h + 1, t);
    assert Contents(s') == [] + Slots(s'.items, h + 1, t);
    assert Contents(s)[1..] == Contents(s');
    assert s'.deeds[..|s.deeds|] == s.deeds;
    forall q | 0 <= q < |s.points| && q != p && Alive(s, q) ensures Knows(s', s.points[q]) {
      HeadOthers(s, s', p, q);
    }
    Assemble(s, s', p);
  }

  lemma DeqAdvanceInv(s: Queue, p: nat)
    requires Inv(s) && Alive(s, p) && Holds(s.lock, p, HEAD) && (s.points[p].DeqSkip? || s.points[p].DeqHead?)
    ensures Inv(DeqStep(s, p)) && Contents(DeqStep(s, p)) == Contents(s)
  {
    var s', h, t := DeqStep(s, p), Or0(s.head), Or0(s.tail);
    assert PointOk(s, p);
    assert Contents(s) == [] + Slots(s.items, h + 1, t) == Contents(s');
    forall q | 0 <= q < |s.points| && q != p && Alive(s, q) ensures Knows(s', s.points[q]) {
      HeadOthers(s, s', p, q);
    }
    Assemble(s, s', p);
  }

  lemma ReqItemInv(s: Queue, p: nat)
    requires Inv(s) && Alive(s, p) && Holds(s.lock, p, HEAD) && s.points[p].ReqItem?
    ensures Inv(ReqStep(s, p)) && Contents(ReqStep(s, p)) == Contents(s)
  {
    var s' := ReqStep(s, p);
    assert PointOk(s, p);
    SlotsFrame(s.items, s'.items, Or0(s.head), Or0(s.tail));
    forall q | 0 <= q < |s.points| && q != p && Alive(s, q) ensures Knows(s', s.points[q]) {
      HeadOthers(s, s', p, q);
    }
    Assemble(s, s', p);
  }

  lemma ReqPutInv(s: Queue, p: nat)
    requires Inv(s) && Alive(s, p) && Holds(s.lock, p, HEAD) && s.points[p].ReqPut?
    ensures Inv(ReqStep(s, p)) && Contents(ReqStep(s, p)) == [s.points[p].job] + Contents(s)
  {
    var s' := ReqStep(s, p);
    assert PointOk(s, p);
    assert Contents(s') == [s.points[p].job] + Slots(s.items, Or0(s.head), Or0(s.tail));
    assert s'.deeds[..|s.deeds|] == s.deeds;
    forall q | 0 <= q < |s.points| && q != p && Alive(s, q) ensures Knows(s', s.points[q]) {
      HeadOthers(s, s', p, q);
    }
    Assemble(s, s', p);
  }

  /** The points whose call writes a counter or a slot, or makes a deed. */
  predicate Writes(pt: Point) {
    pt.EnqItem? || pt.EnqTail? || pt.DeqSkip? || pt.DeqRemove? || pt.DeqHead? || pt.ReqItem? || pt.ReqPut?
  }

  predicate Enabled(s: Queue, p: nat) {
    Alive(s, p) && var k := KeyOf(s.points[p]); k.None? || (!Unlocking(s.points[p]) && Holds(s.lock, p, k.value))
  }

  lemma ReadInv(s: Queue, p: nat)
    requires Inv(s) && Enabled(s, p) && !Writes(s.points[p])
    ensures Inv(DataStep(s, p)) && Contents(DataStep(s, p)) == Contents(s) && DataStep(s, p).deeds == s.deeds
  {
    var s' := DataStep(s, p);
    assert PointOk(s, p);
    ReadPoint(s, p);
    NeutralInv(s, s', p);
  }

  lemma EnqRead(s: Queue, p: nat)
    requires Inv(s) && Enabled(s, p) && PointOk(s, p)
    requires var pt := s.points[p]; pt.EnqEnsure? || pt.EnqAdd? || pt.EnqLock? || pt.EnqGet?
    ensures ReadOnly(s, EnqStep(s, p), p)
  {
  }

  lemma ReqRead(s: Queue, p: nat)
    requires Inv(s) && Enabled(s, p) && PointOk(s, p)
    requires var pt := s.points[p];
      pt.ReqHead? || pt.ReqTail? || pt.ReqEnsure? || pt.ReqAdd? || pt.ReqLock? || pt.ReqGet?
    ensures ReadOnly(s, ReqStep(s, p), p)
  {
  }

  lemma DeqRead(s: Queue, p: nat)
    requires Inv(s) && Enabled(s, p) && PointOk(s, p)
    requires var pt := s.points[p];
      pt.DeqStart? || pt.DeqEnsure? || pt.DeqAdd? || pt.DeqLock? || pt.DeqHeadGet? || pt.DeqSlot? || pt.DeqItem?
    ensures ReadOnly(s, DeqStep(s, p), p)
  {
  }

  lemma DeqTailRead(s: Queue, p: nat)
    requires Inv(s) && Enabled(s, p) && PointOk(s, p)
    requires var pt := s.points[p]; pt.DeqTailHas? || pt.DeqTailGet?
    ensures ReadOnly(s, DeqStep(s, p), p)
  {
  }

  lemma ReadPoint(s: Queue, p: nat)
    requires Inv(s) && Enabled(s, p) && !Writes(s.points[p])
    ensures ReadOnly(s, DataStep(s, p), p)
  {
    var pt := s.points[p];
    assert PointOk(s, p);
    if pt.EnqEnsure? || pt.EnqAdd? || pt.EnqLock? || pt.EnqGet? { EnqRead(s, p); }
    else if pt.ReqHead? || pt.ReqTail? || pt.ReqEnsure? || pt.ReqAdd? || pt.ReqLock? || pt.ReqGet? { ReqRead(s, p); }
    else if pt.DeqTailHas? || pt.DeqTailGet? { DeqTailRead(s, p); }
    else if pt.DeqStart? || pt.DeqEnsure? || pt.DeqAdd? || pt.DeqLock? || pt.DeqHeadGet? || pt.DeqSlot? || pt.DeqItem? { DeqRead(s, p); }
    else { assert DataStep(s, p) == s; }
  }

  predicate ReadOnly(s: Queue, s': Queue, p: nat)
    requires p < |s.points|
  {
    && SameOrLeft(s, s', p) && s'.items == s.items && s'.deeds == s.deeds
    && |s'.points| == |s.points| && s'.points == s.points[p := s'.points[p]]
    && Or0(s'.head) == Or0(s.head) && Or0(s'.tail) == Or0(s.tail)
    && p < |s'.lock.procs| && PointOk(s', p)
  }

  lemma DataInv(s: Queue, p: nat)
    requires Inv(s) && Enabled(s, p)
    ensures Inv(DataStep(s, p))
  {
    var pt := s.points[p];
    if pt.EnqItem? || pt.EnqTail? { EnqWriteInv(s, p); }
    else if pt.DeqRemove? { DeqRemoveInv(s, p); }
    else if pt.DeqSkip? || pt.DeqHead? { DeqAdvanceInv(s, p); }
    else if pt.ReqItem? { ReqItemInv(s, p); }
    else if pt.ReqPut? { ReqPutInv(s, p); }
    else { ReadInv(s, p); }
  }

  lemma StepInv(s: Queue, p: nat)
    requires Inv(s) && Alive(s, p)
    ensures Inv(StepOf(s, p))
  {
    var pt := s.points[p];
    assert PointOk(s, p);
    if Enabled(s, p) {
      DataInv(s, p);
    } else if Unlocking(pt) {
      if s.lock.procs[p].Idle? { NeutralInv(s, StepOf(s, p), p); } else { LockStepInv(s, Call(p, true)); }
    } else if Locking(pt) {
      LockStepInv(s, Call(p, Present(s, KeyOf(pt).value)));
    }
  }

  /** A client enters an operation, or gives up. */
  lemma MoveInv(s: Queue, e: Event)
    requires Inv(s) && (e.Start? || e.GiveUp?)
    ensures Inv(Next(s, e))
  {
    if (e.Start? && Ready(s, e.p)) || (e.GiveUp? && Waiting(s, e.p)) {
      assert PointOk(s, e.p);
      NeutralInv(s, Next(s, e), e.p);
    }
  }

  lemma NextInv(s: Queue, e: Event)
    requires Inv(s)
    ensures Inv(Next(s, e))
  {
    hide StepOf, KeyLock.Next, LockOk;
    if e.Start? || e.GiveUp? {
      MoveInv(s, e);
    } else if e.Step? {
      if Alive(s, e.p) { StepInv(s, e.p); }
    } else if e.Retry? {
      if Waiting(s, e.p) { LockStepInv(s, Begin(e.p, KeyOf(s.points[e.p]).value, Some(e.lease), true)); }
    } else if e.WarmHead? || e.WarmTail? {
      WarmInv(s, Next(s, e));
    } else if e.Die? {
      LockStepInv(s, Crash(e.p));
    } else {
      LockStepInv(s, Tick(e.d));
    }
  }

  lemma WarmInv(s: Queue, s': Queue)
    requires Inv(s) && s' == s.(head := s'.head, tail := s'.tail)
    requires Or0(s'.head) == Or0(s.head) && Or0(s'.tail) == Or0(s.tail)
    ensures Inv(s')
  {
    forall p | 0 <= p < |s'.points| ensures PointOk(s', p) { assert PointOk(s, p); }
  }

  lemma {:induction false} ExecInv(s: Queue, es: seq<Event>)
    requires Inv(s)
    ensures Inv(Exec(s, es))
    decreases |es|
  {
    if es != [] {
      NextInv(s, es[0]);
      ExecInv(Next(s, es[0]), es[1..]);
    }
  }
}
