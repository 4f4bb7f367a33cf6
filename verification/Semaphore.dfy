/** `NCacheDistributedSemaphore`: a list of holders under a key lock, and one expiring record per holder.

    A client that finds the list full drops the holders that look dead: expired by their own
    date, and with no record left. Clients may crash at any step; time passes in between. */
module Semaphore {
  import opened Cache
  import opened KeyLock

  const KEY := Key.Semaphore(0)

  type Id = nat

  datatype Holder = Holder(id: Id, expiry: nat)

  /** Each point names the next cache call; the `Lock` points run `LockKey` first. */
  datatype Point =
    | Out
    | AcqLock                                                 // LockKey, then Get(list)
    | Scan(list: seq<Holder>, i: nat, dead: set<Id>)          // Get(record of the i-th holder), if expired
    | Store(list: seq<Holder>, mine: Holder, dead: set<Id>)   // Insert(list)
    | AddRecord(mine: Holder)                                 // Add(own record)
    | AcqUnlock(mine: Holder)
    | FullUnlock                                              // no slot: UnlockKey, return null
    | Holding(mine: Holder)                                   // the handle is returned
    | DisLock(mine: Holder)                                   // Dispose: LockKey, then Get(list)
    | DisStore(list: seq<Holder>, mine: Holder)               // Insert(list)
    | DisRemove(mine: Holder)                                 // Remove(own record)
    | DisUnlock(mine: Holder)
    | Disposed(mine: Holder)

  /** `makers[id]` is the client that drew `id`; `records[id]` is when its record lapses. */
  datatype Sem = Sem(
    lock: KeyLock.State, capacity: nat, lasts: Duration,
    list: seq<Holder>, records: map<Id, nat>, makers: seq<nat>, points: seq<Point>)

  datatype Event =
    | Acquire(p: nat)          // enter AcquireStrategy
    | Dispose(p: nat)          // enter Dispose
    | Step(p: nat)
    | Retry(p: nat)            // LockKey returned false; try it again
    | GiveUp(p: nat)           // or let AcquireStrategy return null
    | Die(p: nat)
    | Wait(d: nat)

  function Init(n: nat, capacity: nat, lasts: Duration): Sem {
    Sem(KeyLock.Init(n), capacity, lasts, [], map[], [], seq(n, _ => Out))
  }

  // ---- The primitive ----

  function Ids(list: seq<Holder>): set<Id> {
    set i | 0 <= i < |list| :: list[i].id
  }

  /** The list without the holders in `ids`. */
  function Without(list: seq<Holder>, ids: set<Id>): seq<Holder> {
    if list == [] then []
    else (if list[0].id in ids then [] else [list[0]]) + Without(list[1..], ids)
  }

  // ---- Steps ----

  predicate Locking(pt: Point) {
    pt.AcqLock? || pt.DisLock?
  }

  predicate Inside(pt: Point) {
    pt.Scan? || pt.Store? || pt.AddRecord? || pt.DisStore? || pt.DisRemove?
  }

  predicate Unlocking(pt: Point) {
    pt.AcqUnlock? || pt.FullUnlock? || pt.DisUnlock?
  }

  predicate Alive(s: Sem, p: nat) {
    p < |s.points| && p < |s.lock.procs| && !s.lock.procs[p].Crashed?
  }

  function At(s: Sem, p: nat, pt: Point): Sem
    requires p < |s.points|
  {
    s.(points := s.points[p := pt])
  }

  function Leave(s: Sem, p: nat, pt: Point): Sem
    requires p < |s.points|
  {
    At(s, p, pt).(lock := KeyLock.Next(s.lock, BeginUnlock(p)))
  }

  /** `TryAcquire` on `list` with a fresh identity; without room the client gives up. */
  function TryAcquire(s: Sem, p: nat, list: seq<Holder>, dead: set<Id>): Sem
    requires p < |s.points|
  {
    var mine := Holder(|s.makers|, s.lock.now + s.lasts);
    if |list| < s.capacity
    then At(s, p, Store(list + [mine], mine, dead)).(makers := s.makers + [p])
    else Leave(s, p, FullUnlock)
  }

  function DataStep(s: Sem, p: nat): Sem
    requires p < |s.points|
  {
    match s.points[p]
    case AcqLock =>
      if |s.list| < s.capacity then TryAcquire(s, p, s.list, {}) else At(s, p, Scan(s.list, 0, {}))
    case Scan(list, i, dead) =>
      if i < |list| then
        var gone := s.lock.now > list[i].expiry && list[i].id !in s.records;
        At(s, p, Scan(list, i + 1, if gone then dead + {list[i].id} else dead))
      else if dead == {} then Leave(s, p, FullUnlock)
      else TryAcquire(s, p, Without(list, dead), dead)
    case Store(list, mine, dead) => At(s, p, AddRecord(mine)).(list := list)
    case AddRecord(mine) =>
      Leave(s, p, AcqUnlock(mine)).(records := s.records[mine.id := s.lock.now + s.lasts])
    case DisLock(mine) =>
      if mine.id in Ids(s.list) then At(s, p, DisStore(Without(s.list, {mine.id}), mine))
      else Leave(s, p, DisUnlock(mine))
    case DisStore(list, mine) => At(s, p, DisRemove(mine)).(list := list)
    case DisRemove(mine) => Leave(s, p, DisUnlock(mine)).(records := s.records - {mine.id})
    case _ => s
  }

  function Finish(pt: Point): Point {
    match pt
    case AcqUnlock(mine) => Holding(mine)
    case FullUnlock => Out
    case DisUnlock(mine) => Disposed(mine)
    case _ => pt
  }

  predicate Enabled(s: Sem, p: nat) {
    Alive(s, p) && (Locking(s.points[p]) || Inside(s.points[p])) && Holds(s.lock, p, KEY)
  }

  function StepOf(s: Sem, p: nat): Sem
    requires Alive(s, p)
  {
    var pt := s.points[p];
    if Unlocking(pt) then
      if s.lock.procs[p].Idle? then At(s, p, Finish(pt)) else s.(lock := KeyLock.Next(s.lock, Call(p, true)))
    else if Enabled(s, p) then DataStep(s, p)
    else if Locking(pt) then s.(lock := KeyLock.Next(s.lock, Call(p, true)))
    else s
  }

  predicate Waiting(s: Sem, p: nat) {
    Alive(s, p) && Locking(s.points[p]) && (s.lock.procs[p].Idle? || s.lock.procs[p].Refused?)
  }

  function Next(s: Sem, e: Event): Sem {
    match e
    case Acquire(p) =>
      if Alive(s, p) && (s.points[p].Out? || s.points[p].Disposed?) then At(s, p, AcqLock) else s
    case Dispose(p) =>
      if Alive(s, p) && s.points[p].Holding? then At(s, p, DisLock(s.points[p].mine)) else s
    case Step(p) => if Alive(s, p) then StepOf(s, p) else s
    case Retry(p) =>
      if Waiting(s, p) then s.(lock := KeyLock.Next(s.lock, Begin(p, KEY, Some(s.lasts), false))) else s
    case GiveUp(p) => if Waiting(s, p) && s.points[p].AcqLock? then At(s, p, Out) else s
    case Die(p) => s.(lock := KeyLock.Next(s.lock, Crash(p)))
    case Wait(d) =>
      var lock := KeyLock.Next(s.lock, Tick(d));
      s.(lock := lock, records := map k | k in s.records && lock.now < s.records[k] :: s.records[k])
  }

  function Exec(s: Sem, es: seq<Event>): Sem
    decreases |es|
  {
    if es == [] then s else Exec(Next(s, es[0]), es[1..])
  }

  // ---- Invariant ----

  predicate Outside(ph: Phase) {
    ph.Idle? || ph.Refused?
  }

  predicate LockOk(s: Sem, p: nat)
    requires p < |s.points| && p < |s.lock.procs|
  {
    var pt, ph := s.points[p], Core(s.lock.procs[p]);
    if Locking(pt) then Outside(ph) || (!ph.Crashed? && ph.key == KEY && !ph.CheckToken? && !ph.RemoveLock?)
    else if Inside(pt) then ph.Held? && ph.key == KEY
    else if Unlocking(pt) then ph.CheckToken? || ph.RemoveLock? || ph.Idle?
    else Outside(ph)
  }

  /** The identity a client holds a slot under, from the `Add` of its record to the
      `Insert` that takes it off the list. */
  function Handle(pt: Point): Option<Id> {
    if pt.AcqUnlock? || pt.Holding? || pt.DisLock? || pt.DisStore? then Some(pt.mine.id) else None
  }

  predicate Unlisted(s: Sem, ids: set<Id>) {
    forall d :: d in ids ==> d !in s.records
  }

  /** What a live client knows about the list while it holds the lock. */
  predicate Knows(s: Sem, pt: Point) {
    match pt
    case Scan(list, i, dead) => list == s.list && i <= |list| && Unlisted(s, dead) && dead <= Ids(list)
    case Store(list, mine, dead) =>
      && |list| <= s.capacity && list == Without(s.list, dead) + [mine] && Unlisted(s, dead)
    case AddRecord(mine) => mine.id in Ids(s.list)
    case DisStore(list, mine) => list == Without(s.list, {mine.id})
    case DisRemove(mine) => true
    case _ => true
  }

  /** The identity a client has in hand, drawn by itself. */
  function Own(pt: Point): Option<Id> {
    if pt.Store? || pt.AddRecord? || pt.AcqUnlock? || pt.Holding? || pt.DisLock? || pt.DisStore? || pt.DisRemove?
       || pt.DisUnlock? || pt.Disposed?
    then Some(pt.mine.id) else None
  }

  predicate PointOk(s: Sem, p: nat)
    requires p < |s.points| && p < |s.lock.procs|
  {
    var pt := s.points[p];
    && LockOk(s, p)
    && (Alive(s, p) ==> Knows(s, pt))
    && (Own(pt).Some? ==> Own(pt).value < |s.makers| && s.makers[Own(pt).value] == p)
    && (Handle(pt).Some? && Handle(pt).value in s.records ==> Handle(pt).value in Ids(s.list))
  }

  ghost predicate Inv(s: Sem) {
    && KeyLock.Inv(s.lock)
    && |s.points| == |s.lock.procs|
    && |s.list| <= s.capacity
    && forall p :: 0 <= p < |s.points| ==> PointOk(s, p)
  }

  lemma InitInv(n: nat, capacity: nat, lasts: Duration)
    ensures Inv(Init(n, capacity, lasts))
  {
    KeyLock.InitInv(n);
  }

  lemma {:induction false} WithoutIds(list: seq<Holder>, ids: set<Id>)
    ensures Ids(Without(list, ids)) == Ids(list) - ids && |Without(list, ids)| <= |list|
    ensures Ids(list) * ids != {} ==> |Without(list, ids)| < |list|
  {
    if list != [] {
      WithoutIds(list[1..], ids);
      assert list == [list[0]] + list[1..];
      IdsConcat([list[0]], list[1..]);
      assert Ids([list[0]]) == {list[0].id} by { assert [list[0]][0] == list[0]; }
      if list[0].id in ids {
        assert Without(list, ids) == [] + Without(list[1..], ids) == Without(list[1..], ids);
      } else {
        IdsConcat([list[0]], Without(list[1..], ids));
      }
    }
  }

  lemma IdsConcat(a: seq<Holder>, b: seq<Holder>)
    ensures Ids(a + b) == Ids(a) + Ids(b)
  {
    forall x | x in Ids(a) + Ids(b) ensures x in Ids(a + b) {
      if x in Ids(a) {
        var i :| 0 <= i < |a| && a[i].id == x;
        assert (a + b)[i].id == x;
      } else {
        var i :| 0 <= i < |b| && b[i].id == x;
        assert (a + b)[|a| + i].id == x;
      }
    }
  }

  lemma LockPhase(s: Sem, e: KeyLock.Event, p: nat)
    requires Inv(s) && p < |s.points| && By(e, p) && !e.BeginUnlock?
    requires e.Begin? ==> Waiting(s, p) && e.key == KEY
    requires e.Call? ==> Locking(s.points[p]) || Unlocking(s.points[p])
    ensures LockOk(s.(lock := KeyLock.Next(s.lock, e)), p)

  {
    assert PointOk(s, p);
  }

  lemma LockStepInv(s: Sem, e: KeyLock.Event)
    requires Inv(s) && (e.Begin? || e.Call? || e.Crash?)
    requires e.Begin? ==> Waiting(s, e.p) && e.key == KEY
    requires e.Call? && e.p < |s.points| ==> Locking(s.points[e.p]) || Unlocking(s.points[e.p])
    ensures Inv(s.(lock := KeyLock.Next(s.lock, e)))
  {
    Frame(s.lock, e, 0);
    hide KeyLock.Next;
    var s' := s.(lock := KeyLock.Next(s.lock, e));
    KeyLock.NextInv(s.lock, e);
    forall p | 0 <= p < |s'.points| ensures PointOk(s', p) {
      assert PointOk(s, p);
      Frame(s.lock, e, p);
      if By(e, p) { LockPhase(s, e, p); StaysCrashed(s.lock, e, p); }
    }
  }

  lemma WaitInv(s: Sem, d: nat)
    requires Inv(s)
    ensures Inv(Next(s, Wait(d)))
  {
    var s' := Next(s, Wait(d));
    KeyLock.NextInv(s.lock, Tick(d));
    forall p | 0 <= p < |s'.points| ensures PointOk(s', p) {
      assert PointOk(s, p);
      Frame(s.lock, Tick(d), p);
    }
  }

  predicate SameOrLeft(s: Sem, s': Sem, p: nat) {
    s'.lock == s.lock || (Holds(s.lock, p, KEY) && s'.lock == KeyLock.Next(s.lock, BeginUnlock(p)))
  }

  /** The common part of all steps of `p`; for the others only list and records matter. */
  lemma Assemble(s: Sem, s': Sem, p: nat)
    requires Inv(s) && Alive(s, p) && SameOrLeft(s, s', p)
    requires |s'.points| == |s.points| && s'.points == s.points[p := s'.points[p]]
    requires |s'.list| <= s'.capacity == s.capacity && s.makers <= s'.makers && PointOk(s', p)
    requires forall q :: 0 <= q < |s.points| && q != p ==>
      (Alive(s, q) ==> Knows(s', s.points[q]))
      && (Handle(s.points[q]).Some? && Handle(s.points[q]).value in s'.records ==> Handle(s.points[q]).value in Ids(s'.list))
    ensures Inv(s')
  {
    if s'.lock != s.lock { KeyLock.NextInv(s.lock, BeginUnlock(p)); }
    forall q | 0 <= q < |s'.points| ensures PointOk(s', q) {
      assert PointOk(s, q);
    }
  }

  lemma OthersElsewhere(s: Sem, p: nat, q: nat)
    requires Inv(s) && p != q && q < |s.points| && Holds(s.lock, p, KEY) && Alive(s, q)
    ensures !Inside(s.points[q])
  {
    assert PointOk(s, q);
    if Owns(s.lock, q, KEY) { OneOwner(s.lock, p, q, KEY); }
  }

  /** A step that leaves list and records alone. */
  lemma NeutralInv(s: Sem, s': Sem, p: nat)
    requires Inv(s) && Alive(s, p) && SameOrLeft(s, s', p)
    requires |s'.points| == |s.points| && s'.points == s.points[p := s'.points[p]]
    requires s'.list == s.list && s'.records == s.records && s'.capacity == s.capacity && s.makers <= s'.makers
    requires PointOk(s', p)
    ensures Inv(s')
  {
    forall q | 0 <= q < |s.points| && q != p
      ensures (Alive(s, q) ==> Knows(s', s.points[q]))
      && (Handle(s.points[q]).Some? && Handle(s.points[q]).value in s'.records ==> Handle(s.points[q]).value in Ids(s'.list))
    {
      assert PointOk(s, q);
    }
    Assemble(s, s', p);
  }

  lemma IdsSnoc(list: seq<Holder>, h: Holder)
    ensures Ids(list + [h]) == Ids(list) + {h.id}
  {
    IdsConcat(list, [h]);
    assert [h][0] == h;
  }

  lemma StartInv(s: Sem, p: nat)
    requires Inv(s) && Enabled(s, p) && s.points[p].AcqLock?
    ensures Inv(DataStep(s, p))
  {
    assert PointOk(s, p);
    WithoutNone(s.list);
    NeutralInv(s, DataStep(s, p), p);
  }

  lemma ScanInv(s: Sem, p: nat)
    requires Inv(s) && Enabled(s, p) && s.points[p].Scan?
    ensures Inv(DataStep(s, p))
  {
    assert PointOk(s, p);
    WithoutIds(s.list, s.points[p].dead);
    NeutralInv(s, DataStep(s, p), p);
  }

  /** A client that read a full list starts or goes on scanning it, or takes a free slot. */
  lemma ReadInv(s: Sem, p: nat)
    requires Inv(s) && Enabled(s, p)
    requires var pt := s.points[p]; pt.AcqLock? || pt.Scan? || pt.DisLock?
    ensures Inv(DataStep(s, p))
  {
    if s.points[p].AcqLock? {
      StartInv(s, p);
    } else if s.points[p].Scan? {
      ScanInv(s, p);
    } else {
      assert PointOk(s, p);
      NeutralInv(s, DataStep(s, p), p);
    }
  }

  lemma {:induction false} WithoutNone(list: seq<Holder>)
    ensures Without(list, {}) == list
  {
    if list != [] { WithoutNone(list[1..]); }
  }

  lemma StoreInv(s: Sem, p: nat)
    requires Inv(s) && Enabled(s, p) && s.points[p].Store?
    ensures Inv(DataStep(s, p))
  {
    var s', pt := DataStep(s, p), s.points[p];
    assert PointOk(s, p);
    WithoutIds(s.list, pt.dead);
    IdsSnoc(Without(s.list, pt.dead), pt.mine);
    forall q | 0 <= q < |s.points| && q != p
      ensures (Alive(s, q) ==> Knows(s', s.points[q]))
      && (Handle(s.points[q]).Some? && Handle(s.points[q]).value in s'.records ==> Handle(s.points[q]).value in Ids(s'.list))
    {
      assert PointOk(s, q);
      if Alive(s, q) { OthersElsewhere(s, p, q); }
    }
    Assemble(s, s', p);
  }

  lemma AddInv(s: Sem, p: nat)
    requires Inv(s) && Enabled(s, p) && s.points[p].AddRecord?
    ensures Inv(DataStep(s, p))
  {
    var s' := DataStep(s, p);
    assert PointOk(s, p);
    forall q | 0 <= q < |s.points| && q != p
      ensures (Alive(s, q) ==> Knows(s', s.points[q]))
      && (Handle(s.points[q]).Some? && Handle(s.points[q]).value in s'.records ==> Handle(s.points[q]).value in Ids(s'.list))
    {
      assert PointOk(s, q);
      if Alive(s, q) { OthersElsewhere(s, p, q); }
    }
    Assemble(s, s', p);
  }

  lemma DisposeInv(s: Sem, p: nat)
    requires Inv(s) && Enabled(s, p) && (s.points[p].DisStore? || s.points[p].DisRemove?)
    ensures Inv(DataStep(s, p))
  {
    var s', mine := DataStep(s, p), s.points[p].mine;
    assert PointOk(s, p);
    WithoutIds(s.list, {mine.id});
    forall q | 0 <= q < |s.points| && q != p
      ensures (Alive(s, q) ==> Knows(s', s.points[q]))
      && (Handle(s.points[q]).Some? && Handle(s.points[q]).value in s'.records ==> Handle(s.points[q]).value in Ids(s'.list))
    {
      assert PointOk(s, q);
      if Alive(s, q) { OthersElsewhere(s, p, q); }
    }
    Assemble(s, s', p);
  }

  lemma StepInv(s: Sem, p: nat)
    requires Inv(s) && Alive(s, p)
    ensures Inv(StepOf(s, p))
  {
    var pt := s.points[p];
    assert PointOk(s, p);
    if Enabled(s, p) {
      if pt.Store? { StoreInv(s, p); }
      else if pt.AddRecord? { AddInv(s, p); }
      else if pt.DisStore? || pt.DisRemove? { DisposeInv(s, p); }
      else { ReadInv(s, p); }
    } else if Unlocking(pt) {
      if s.lock.procs[p].Idle? { NeutralInv(s, StepOf(s, p), p); } else { LockStepInv(s, Call(p, true)); }
    } else if Locking(pt) {
      LockStepInv(s, Call(p, true));
    }
  }

  lemma NextInv(s: Sem, e: Event)
    requires Inv(s)
    ensures Inv(Next(s, e))
  {
    match e
    case Acquire(p) =>
      if p < |s.points| { assert PointOk(s, p); }
      if Next(s, e) != s { NeutralInv(s, Next(s, e), p); }
    case Dispose(p) =>
      if p < |s.points| { assert PointOk(s, p); }
      if Next(s, e) != s { NeutralInv(s, Next(s, e), p); }
    case Step(p) => if Alive(s, p) { StepInv(s, p); }
    case Retry(p) => if Waiting(s, p) { LockStepInv(s, Begin(p, KEY, Some(s.lasts), false)); }
    case GiveUp(p) =>
      if p < |s.points| { assert PointOk(s, p); }
      if Next(s, e) != s { NeutralInv(s, Next(s, e), p); }
    case Die(p) => LockStepInv(s, Crash(p));
    case Wait(d) => WaitInv(s, d);
  }

  lemma {:induction false} ExecInv(s: Sem, es: seq<Event>)
    requires Inv(s)
    ensures Inv(Exec(s, es)) && Exec(s, es).capacity == s.capacity
    decreases |es|
  {
    if es != [] {
      NextInv(s, es[0]);
      assert Next(s, es[0]).capacity == s.capacity;
      ExecInv(Next(s, es[0]), es[1..]);
    }
  }

  // ---- Main results ----

  /** The clients, crashed ones included, that hold a handle whose record has not lapsed. */
  function Holders(s: Sem): set<nat> {
    set p | 0 <= p < |s.points| && Handle(s.points[p]).Some? && Handle(s.points[p]).value in s.records
  }

  lemma {:induction false} IdsCount(list: seq<Holder>)
    ensures |Ids(list)| <= |list|
  {
    if list != [] {
      IdsCount(list[1..]);
      assert list == [list[0]] + list[1..];
      IdsConcat([list[0]], list[1..]);
      assert Ids([list[0]]) == {list[0].id} by { assert [list[0]][0] == list[0]; }
    }
  }

  /** Distinct clients hold distinct identities, all of them on the list. */
  lemma {:induction false} HoldersFit(s: Sem, ps: set<nat>, ids: set<Id>)
    requires Inv(s) && ps <= Holders(s)
    requires forall p :: p in ps ==> Handle(s.points[p]).value in ids
    ensures |ps| <= |ids|
    decreases |ps|
  {
    if ps != {} {
      var p :| p in ps;
      var id := Handle(s.points[p]).value;
      forall q | q in ps - {p} ensures Handle(s.points[q]).value in ids - {id} {
        assert PointOk(s, p) && PointOk(s, q);
      }
      HoldersFit(s, ps - {p}, ids - {id});
    }
  }

  /** Handles with an unexpired record never outnumber the capacity, whatever the interleaving,
      the crashes and the reclaiming. */
  lemma NeverMoreThanCapacity(n: nat, capacity: nat, lasts: Duration, es: seq<Event>)
    ensures |Holders(Exec(Init(n, capacity, lasts), es))| <= capacity
  {
    InitInv(n, capacity, lasts);
    ExecInv(Init(n, capacity, lasts), es);
    var s := Exec(Init(n, capacity, lasts), es);
    forall p | p in Holders(s) ensures Handle(s.points[p]).value in Ids(s.list) {
      assert PointOk(s, p);
    }
    HoldersFit(s, Holders(s), Ids(s.list));
    IdsCount(s.list);
  }

  /** Reclaiming takes off the list only holders without a record. */
  lemma ReclaimSparesHolders(s: Sem, p: nat, q: nat)
    requires Inv(s) && Enabled(s, p) && s.points[p].Store? && q in Holders(s)
    ensures Handle(s.points[q]).value in Ids(DataStep(s, p).list)
  {
    StoreInv(s, p);
    assert PointOk(s, p);
    assert PointOk(DataStep(s, p), q);
  }

  /** Whenever the scan found someone dead, the second `TryAcquire` succeeds. */
  lemma ReclaimMakesRoom(s: Sem, p: nat)
    requires Inv(s) && Enabled(s, p) && s.points[p].Scan?
    requires s.points[p].i == |s.points[p].list| && s.points[p].dead != {}
    ensures DataStep(s, p).points[p].Store?
  {
    assert PointOk(s, p);
    var pt := s.points[p];
    WithoutIds(s.list, pt.dead);
    var d :| d in pt.dead;
    assert d in Ids(s.list) * pt.dead;
  }
}
