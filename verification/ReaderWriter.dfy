/** `NCacheDistributedReaderWriterLock`: a reader list under a key lock, and one writer record.

    A reader looks for a writer first and takes the lock of the list later, without looking
    again. A writer adds its record under that lock; if readers are listed it then waits,
    without the lock, until it has seen the list empty. */
module ReaderWriter {
  import opened Cache
  import opened KeyLock
  import opened Lists

  const KEY := Readers(0)

  type Id = nat

  /** The writer record: whose it is, its status, and when it lapses. */
  datatype Writer = Writer(id: Id, writing: bool, ends: nat)

  /** Each point names the next cache call; the `Lock` points run `LockKey` first.
      `seen` is the number of writers added when the reader looked for one;
      `ends` is when the writer's record lapses. */
  datatype Point =
    | Out
    | RdCheck                                          // Get(writer)
    | RdLock(seen: nat)                                // LockKey, then Get(list)
    | RdRecord(list: seq<Id>, mine: Id, seen: nat)     // Add(own record)
    | RdInsert(list: seq<Id>, mine: Id, seen: nat)     // Insert(list)
    | RdUnlock(mine: Id, seen: nat)
    | Reading(mine: Id, seen: nat)                     // the handle is returned
    | RdEndLock(mine: Id, seen: nat)                   // Dispose: LockKey, then Get(list)
    | RdEndInsert(list: seq<Id>, mine: Id, seen: nat)  // Insert(list)
    | RdEndRemove(mine: Id)                            // Remove(own record)
    | RdEndUnlock
    | WrLock                                           // LockKey, then Get(list)
    | WrAdd(mine: Id, waits: bool)                     // Add(writer)
    | WrFailUnlock                                     // a writer is there: UnlockKey, return null
    | WrUnlock(mine: Id, ends: nat, waits: bool)
    | WrWait(mine: Id, ends: nat, released: bool)      // Get(list), until the deadline
    | WrPromote(mine: Id, ends: nat)                   // Insert(writer)
    | WrGiveUp(mine: Id, ends: nat)                    // Remove(writer), return null
    | Writing(mine: Id, ends: nat)                     // the handle is returned
    | WrEndGet(mine: Id, ends: nat)                    // Dispose: Get(writer)
    | WrEndRemove(mine: Id, ends: nat)                 // Remove(writer)

  /** `added` counts the times a writer record came where none stood; `sawEmpty` are the writers that
      saw the list empty while their record stood, `sawLate` those that saw it so after it had lapsed;
      `makers[id]` is the client that drew `id`. */
  datatype RW = RW(
    lock: KeyLock.State, lasts: Duration, readers: seq<Id>, records: map<Id, nat>, writer: Option<Writer>,
    added: nat, sawEmpty: set<Id>, sawLate: set<Id>, makers: seq<nat>, points: seq<Point>)

  datatype Event =
    | Read(p: nat)             // enter ReaderAcquireStrategy
    | Write(p: nat)            // enter WriterAcquireStrategy
    | Dispose(p: nat)          // dispose the handle
    | Step(p: nat)
    | Retry(p: nat)            // LockKey returned false; try it again
    | Quit(p: nat)             // or return null
    | Deadline(p: nat)         // the waiting writer's time is up, at once if it has no deadline
    | Die(p: nat)
    | Wait(d: nat)

  function Init(n: nat, lasts: Duration): RW {
    RW(KeyLock.Init(n), lasts, [], map[], None, 0, {}, {}, [], seq(n, _ => Out))
  }

  // ---- Steps ----

  predicate Locking(pt: Point) {
    pt.RdLock? || pt.RdEndLock? || pt.WrLock?
  }

  predicate Inside(pt: Point) {
    pt.RdRecord? || pt.RdInsert? || pt.RdEndInsert? || pt.RdEndRemove? || pt.WrAdd?
  }

  predicate Unlocking(pt: Point) {
    pt.RdUnlock? || pt.RdEndUnlock? || pt.WrFailUnlock? || pt.WrUnlock?
  }

  /** Calls made without the lock of the list. */
  predicate Free(pt: Point) {
    pt.RdCheck? || pt.WrWait? || pt.WrPromote? || pt.WrGiveUp? || pt.WrEndGet? || pt.WrEndRemove?
  }

  predicate Alive(s: RW, p: nat) {
    p < |s.points| && p < |s.lock.procs| && !s.lock.procs[p].Crashed?
  }

  function At(s: RW, p: nat, pt: Point): RW
    requires p < |s.points|
  {
    s.(points := s.points[p := pt])
  }

  function Leave(s: RW, p: nat, pt: Point): RW
    requires p < |s.points|
  {
    At(s, p, pt).(lock := KeyLock.Next(s.lock, BeginUnlock(p)))
  }

  function ReaderStep(s: RW, p: nat): RW
    requires p < |s.points|
  {
    match s.points[p]
    case RdCheck => At(s, p, if s.writer.Some? then Out else RdLock(s.added))
    case RdLock(seen) =>
      At(s, p, RdRecord(s.readers + [|s.makers|], |s.makers|, seen)).(makers := s.makers + [p])
    case RdRecord(list, mine, seen) =>
      At(s, p, RdInsert(list, mine, seen)).(records := s.records[mine := s.lock.now + s.lasts])
    case RdInsert(list, mine, seen) => Leave(s, p, RdUnlock(mine, seen)).(readers := list)
    case RdEndLock(mine, seen) =>
      if mine in s.readers then At(s, p, RdEndInsert(Without(s.readers, mine), mine, seen))
      else Leave(s, p, RdEndUnlock)
    case RdEndInsert(list, mine, seen) => At(s, p, RdEndRemove(mine)).(readers := list)
    case RdEndRemove(mine) => Leave(s, p, RdEndUnlock).(records := s.records - {mine})
    case _ => s
  }

  function WriterStep(s: RW, p: nat): RW
    requires p < |s.points|
  {
    match s.points[p]
    case WrLock =>
      At(s, p, WrAdd(|s.makers|, s.readers != [])).(makers := s.makers + [p])
    case WrAdd(mine, waits) =>
      if s.writer.Some? then Leave(s, p, WrFailUnlock)
      else
        var ends := s.lock.now + s.lasts;
        Leave(s, p, WrUnlock(mine, ends, waits)).(
          writer := Some(Writer(mine, !waits, ends)), added := s.added + 1,
          sawEmpty := if s.readers == [] then s.sawEmpty + {mine} else s.sawEmpty)
    case WrWait(mine, ends, released) =>
      At(s, p, WrWait(mine, ends, released || s.readers == [])).(
        sawEmpty := if s.readers == [] && Stands(s, mine) then s.sawEmpty + {mine} else s.sawEmpty,
        sawLate := if s.readers == [] && !Stands(s, mine) then s.sawLate + {mine} else s.sawLate)
    case WrPromote(mine, _) =>
      var ends := s.lock.now + s.lasts;
      At(s, p, Writing(mine, ends)).(
        writer := Some(Writer(mine, true, ends)), added := if s.writer.None? then s.added + 1 else s.added)
    case WrGiveUp(mine, _) => At(s, p, Out).(writer := None)
    case WrEndGet(mine, ends) => At(s, p, if Stands(s, mine) then WrEndRemove(mine, ends) else Out)
    case WrEndRemove(mine, _) => At(s, p, Out).(writer := None)
    case _ => s
  }

  /** The writer record is that of `id`. */
  predicate Stands(s: RW, id: Id) {
    s.writer.Some? && s.writer.value.id == id
  }

  predicate IsReader(pt: Point) {
    pt.RdCheck? || pt.RdLock? || pt.RdRecord? || pt.RdInsert? || pt.RdUnlock? || pt.Reading? || pt.RdEndLock?
    || pt.RdEndInsert? || pt.RdEndRemove? || pt.RdEndUnlock?
  }

  function DataStep(s: RW, p: nat): RW
    requires p < |s.points|
  {
    if IsReader(s.points[p]) then ReaderStep(s, p) else WriterStep(s, p)
  }

  function Finish(pt: Point): Point {
    match pt
    case RdUnlock(mine, seen) => Reading(mine, seen)
    case RdEndUnlock => Out
    case WrFailUnlock => Out
    case WrUnlock(mine, ends, waits) => if waits then WrWait(mine, ends, false) else Writing(mine, ends)
    case _ => pt
  }

  predicate Enabled(s: RW, p: nat) {
    Alive(s, p) && (Free(s.points[p]) || ((Locking(s.points[p]) || Inside(s.points[p])) && Holds(s.lock, p, KEY)))
  }

  function StepOf(s: RW, p: nat): RW
    requires Alive(s, p)
  {
    var pt := s.points[p];
    if Unlocking(pt) then
      if s.lock.procs[p].Idle? then At(s, p, Finish(pt)) else s.(lock := KeyLock.Next(s.lock, Call(p, true)))
    else if Enabled(s, p) then DataStep(s, p)
    else if Locking(pt) then s.(lock := KeyLock.Next(s.lock, Call(p, true)))
    else s
  }

  predicate Waiting(s: RW, p: nat) {
    Alive(s, p) && Locking(s.points[p]) && (s.lock.procs[p].Idle? || s.lock.procs[p].Refused?)
  }

  function Next(s: RW, e: Event): RW {
    match e
    case Read(p) => if Alive(s, p) && s.points[p].Out? then At(s, p, RdCheck) else s
    case Write(p) => if Alive(s, p) && s.points[p].Out? then At(s, p, WrLock) else s
    case Dispose(p) =>
      if !Alive(s, p) then s
      else if s.points[p].Reading? then At(s, p, RdEndLock(s.points[p].mine, s.points[p].seen))
      else if s.points[p].Writing? then At(s, p, WrEndGet(s.points[p].mine, s.points[p].ends))
      else s
    case Step(p) => if Alive(s, p) then StepOf(s, p) else s
    case Retry(p) =>
      if Waiting(s, p) then s.(lock := KeyLock.Next(s.lock, Begin(p, KEY, Some(s.lasts), false))) else s
    case Quit(p) => if Waiting(s, p) && !s.points[p].RdEndLock? then At(s, p, Out) else s
    case Deadline(p) =>
      if Alive(s, p) && s.points[p].WrWait? then
        var pt := s.points[p];
        At(s, p, if pt.released then WrPromote(pt.mine, pt.ends) else WrGiveUp(pt.mine, pt.ends))
      else s
    case Die(p) => s.(lock := KeyLock.Next(s.lock, Crash(p)))
    case Wait(d) => Lapse(s, KeyLock.Next(s.lock, Tick(d)))
  }

  /** Records that have lapsed by the new time are gone. */
  function Lapse(s: RW, lock: KeyLock.State): RW {
    s.(lock := lock,
       records := map k | k in s.records && lock.now < s.records[k] :: s.records[k],
       writer := if s.writer.Some? && lock.now < s.writer.value.ends then s.writer else None)
  }

  function Exec(s: RW, es: seq<Event>): RW
    decreases |es|
  {
    if es == [] then s else Exec(Next(s, es[0]), es[1..])
  }

  // ---- Invariant ----

  predicate Outside(ph: Phase) {
    ph.Idle? || ph.Refused?
  }

  predicate LockOk(s: RW, p: nat)
    requires p < |s.points| && p < |s.lock.procs|
  {
    var pt, ph := s.points[p], Core(s.lock.procs[p]);
    if Locking(pt) then Outside(ph) || (!ph.Crashed? && ph.key == KEY && !ph.Peek? && !ph.CheckToken? && !ph.RemoveLock?)
    else if Inside(pt) then ph.Held? && ph.key == KEY
    else if Unlocking(pt) then ph.Idle? || ((ph.CheckToken? || ph.RemoveLock?) && ph.key == KEY)
    else Outside(ph)
  }

  /** Between the check for a writer and the end of the handle: pending, or reading. */
  predicate ReadsOrWill(pt: Point) {
    pt.RdLock? || pt.RdRecord? || pt.RdInsert? || pt.RdUnlock? || pt.Reading? || pt.RdEndLock? || pt.RdEndInsert?
  }

  /** Between the `Add` of the writer record and its `Remove`. */
  predicate WritesOrWill(pt: Point) {
    pt.WrUnlock? || pt.WrWait? || pt.WrPromote? || pt.WrGiveUp? || pt.Writing? || pt.WrEndGet? || pt.WrEndRemove?
  }

  /** Points at which the writer has been told that it may write. */
  predicate Granted(pt: Point) {
    (pt.WrUnlock? && !pt.waits) || (pt.WrWait? && pt.released) || pt.WrPromote?
    || pt.Writing? || pt.WrEndGet? || pt.WrEndRemove?
  }

  /** Between the `Insert` that lists a reader and the one that takes it off. */
  predicate Listed(pt: Point) {
    pt.RdUnlock? || pt.Reading? || pt.RdEndLock? || pt.RdEndInsert?
  }

  /** A reader that looked for a writer did so before the one that stands was added. */
  predicate ReaderOk(s: RW, p: nat)
    requires p < |s.points|
  {
    var pt := s.points[p];
    && (ReadsOrWill(pt) ==> pt.seen <= s.added && (s.writer.Some? ==> pt.seen < s.added))
    && (ReadsOrWill(pt) && !pt.RdLock? ==> pt.mine < |s.makers| && s.makers[pt.mine] == p)
    && (Listed(pt) ==> pt.mine in s.readers)
    && (Alive(s, p) && (pt.RdRecord? || pt.RdInsert?) ==> pt.list == s.readers + [pt.mine])
    && (Alive(s, p) && pt.RdEndInsert? ==> pt.list == Without(s.readers, pt.mine))
  }

  /** A record that stands lapses when its writer thinks it does. */
  predicate WriterOk(s: RW, p: nat)
    requires p < |s.points| && p < |s.lock.procs|
  {
    var pt := s.points[p];
    && (WritesOrWill(pt) || pt.WrAdd? ==> pt.mine < |s.makers| && s.makers[pt.mine] == p)
    && (WritesOrWill(pt) && Stands(s, pt.mine) ==> s.writer.value.ends == pt.ends)
    && (pt.WrAdd? ==> !Stands(s, pt.mine))
    && (Granted(pt) ==> pt.mine in s.sawEmpty || pt.mine in s.sawLate)
    && (Alive(s, p) && pt.WrAdd? ==> pt.waits == (s.readers != []))
  }

  predicate PointOk(s: RW, p: nat)
    requires p < |s.points| && p < |s.lock.procs|
  {
    LockOk(s, p) && ReaderOk(s, p) && WriterOk(s, p)
  }

  /** The record that stands runs, and its writer is between its `Add` and its `Remove`. */
  predicate RecordOk(s: RW) {
    s.writer.Some? ==>
      var w := s.writer.value;
      && s.lock.now < w.ends && w.id < |s.makers|
      && s.makers[w.id] < |s.points| && WritesOrWill(s.points[s.makers[w.id]]) && s.points[s.makers[w.id]].mine == w.id
  }

  ghost predicate Inv(s: RW) {
    && KeyLock.Inv(s.lock)
    && |s.points| == |s.lock.procs|
    && RecordOk(s)
    && forall p :: 0 <= p < |s.points| ==> PointOk(s, p)
  }

  lemma InitInv(n: nat, lasts: Duration)
    ensures Inv(Init(n, lasts))
  {
    KeyLock.InitInv(n);
  }

  lemma LockPhase(s: RW, e: KeyLock.Event, p: nat)
    requires Inv(s) && p < |s.points| && By(e, p) && !e.BeginUnlock?
    requires e.Begin? ==> Waiting(s, p) && e.key == KEY && !e.peek
    requires e.Call? ==> Locking(s.points[p]) || Unlocking(s.points[p])
    ensures LockOk(s.(lock := KeyLock.Next(s.lock, e)), p)
  {
    assert PointOk(s, p);
  }

  lemma LockStepInv(s: RW, e: KeyLock.Event)
    requires Inv(s) && (e.Begin? || e.Call? || e.Crash?)
    requires e.Begin? ==> Waiting(s, e.p) && e.key == KEY && !e.peek
    requires e.Call? && e.p < |s.points| ==> Locking(s.points[e.p]) || Unlocking(s.points[e.p])
    ensures Inv(s.(lock := KeyLock.Next(s.lock, e)))
  {
    Frame(s.lock, e, 0);
    hide KeyLock.Next;
    var s' := s.(lock := KeyLock.Next(s.lock, e));
    KeyLock.NextInv(s.lock, e);
    forall p | 0 <= p < |s'.points| ensures PointOk(s', p) {
      assert PointOk(s, p);
      Frame(s.lock, e, p);
      if By(e, p) { LockPhase(s, e, p); StaysCrashed(s.lock, e, p); }
    }
  }

  lemma WaitInv(s: RW, d: nat)
    requires Inv(s)
    ensures Inv(Next(s, Wait(d)))
  {
    var s' := Next(s, Wait(d));
    KeyLock.NextInv(s.lock, Tick(d));
    forall p | 0 <= p < |s'.points| ensures PointOk(s', p) {
      assert PointOk(s, p);
      Frame(s.lock, Tick(d), p);
    }
  }

  predicate SameOrLeft(s: RW, s': RW, p: nat) {
    s'.lock == s.lock || (Holds(s.lock, p, KEY) && s'.lock == KeyLock.Next(s.lock, BeginUnlock(p)))
  }

  /** What a step of another client has to leave true for `q`. */
  predicate OtherOk(s': RW, q: nat)
    requires q < |s'.points| && q < |s'.lock.procs|
  {
    ReaderOk(s', q) && WriterOk(s', q)
  }

  lemma Assemble(s: RW, s': RW, p: nat)
    requires Inv(s) && Alive(s, p) && SameOrLeft(s, s', p)
    requires |s'.points| == |s.points| == |s'.lock.procs| && s'.points == s.points[p := s'.points[p]]
    requires RecordOk(s') && PointOk(s', p)
    requires forall q :: 0 <= q < |s.points| && q != p ==> OtherOk(s', q)
    ensures Inv(s')
  {
    if s'.lock != s.lock { KeyLock.NextInv(s.lock, BeginUnlock(p)); }
    forall q | 0 <= q < |s'.points| ensures PointOk(s', q) {
      assert PointOk(s, q);
      if q != p { assert OtherOk(s', q); }
    }
  }

  lemma OthersElsewhere(s: RW, p: nat, q: nat)
    requires Inv(s) && p != q && q < |s.points| && Holds(s.lock, p, KEY) && Alive(s, q)
    ensures !Inside(s.points[q])
  {
    assert PointOk(s, q);
    if Owns(s.lock, q, KEY) { OneOwner(s.lock, p, q, KEY); }
  }

  /** A step that leaves list, records, writer and counts alone. */
  lemma NeutralInv(s: RW, s': RW, p: nat)
    requires Inv(s) && Alive(s, p) && SameOrLeft(s, s', p)
    requires |s'.points| == |s.points| == |s'.lock.procs| && s'.points == s.points[p := s'.points[p]]
    requires s'.readers == s.readers && s'.writer == s.writer && s'.added == s.added
    requires s.sawEmpty <= s'.sawEmpty && s.sawLate <= s'.sawLate && s.makers <= s'.makers
    requires s.writer.Some? ==> s.writer.value.id < |s.makers| && (s.makers[s.writer.value.id] == p ==>
      WritesOrWill(s'.points[p]) && s'.points[p].mine == s.writer.value.id)
    requires PointOk(s', p)
    ensures Inv(s')
  {
    forall q | 0 <= q < |s.points| && q != p ensures OtherOk(s', q) {
      assert PointOk(s, q);
    }
    Assemble(s, s', p);
  }

  /** A reader adds itself to the list, or takes itself off. */
  lemma ListInv(s: RW, p: nat)
    requires Inv(s) && Enabled(s, p) && (s.points[p].RdInsert? || s.points[p].RdEndInsert?)
    ensures Inv(DataStep(s, p))
  {
    var s' := DataStep(s, p);
    assert PointOk(s, p);
    forall q | 0 <= q < |s.points| && q != p ensures OtherOk(s', q) {
      assert PointOk(s, q);
      if Alive(s, q) { OthersElsewhere(s, p, q); }
      if s.points[p].RdEndInsert? && Listed(s.points[q]) {
        WithoutIn(s.readers, s.points[p].mine, s.points[q].mine);
      }
    }
    Assemble(s, s', p);
  }

  lemma ReaderInv(s: RW, p: nat)
    requires Inv(s) && Enabled(s, p)
    requires IsReader(s.points[p]) && !s.points[p].RdInsert? && !s.points[p].RdEndInsert?
    ensures Inv(DataStep(s, p))
  {
    assert PointOk(s, p);
    assert PointOk(DataStep(s, p), p);
    hide PointOk;
    NeutralInv(s, DataStep(s, p), p);
  }

  /** The writer's `Add`, with the lock of the list: no reader's check passes from here on. */
  lemma AddInv(s: RW, p: nat)
    requires Inv(s) && Enabled(s, p) && s.points[p].WrAdd? && s.writer.None?
    ensures Inv(DataStep(s, p))
  {
    var s' := DataStep(s, p);
    assert PointOk(s, p);
    forall q | 0 <= q < |s.points| && q != p ensures OtherOk(s', q) {
      assert PointOk(s, q);
      if Alive(s, q) { OthersElsewhere(s, p, q); }
    }
    Assemble(s, s', p);
  }

  /** A writer writes its record, or removes what stands. */
  lemma OwnRecordInv(s: RW, p: nat)
    requires Inv(s) && Enabled(s, p)
    requires var pt := s.points[p]; pt.WrPromote? || pt.WrGiveUp? || pt.WrEndRemove?
    ensures Inv(DataStep(s, p))
  {
    var s' := DataStep(s, p);
    assert PointOk(s, p);
    forall q | 0 <= q < |s.points| && q != p ensures OtherOk(s', q) {
      assert PointOk(s, q);
    }
    Assemble(s, s', p);
  }

  lemma WriterInv(s: RW, p: nat)
    requires Inv(s) && Enabled(s, p) && !IsReader(s.points[p])
    ensures Inv(DataStep(s, p))
  {
    var pt := s.points[p];
    assert PointOk(s, p);
    if pt.WrAdd? && s.writer.None? { AddInv(s, p); }
    else if pt.WrPromote? || pt.WrGiveUp? || pt.WrEndRemove? { OwnRecordInv(s, p); }
    else { WriterLooksInv(s, p); }
  }

  lemma WriterLooks(s: RW, p: nat)
    requires Inv(s) && Enabled(s, p) && !IsReader(s.points[p]) && !(s.points[p].WrAdd? && s.writer.None?)
    requires !s.points[p].WrPromote? && !s.points[p].WrGiveUp? && !s.points[p].WrEndRemove?
    ensures var s' := DataStep(s, p);
      && SameOrLeft(s, s', p) && |s'.points| == |s.points| == |s'.lock.procs| && s'.points == s.points[p := s'.points[p]]
      && s'.readers == s.readers && s'.writer == s.writer && s'.added == s.added
      && s.sawEmpty <= s'.sawEmpty && s.sawLate <= s'.sawLate && s.makers <= s'.makers
      && (WritesOrWill(s.points[p]) && s.writer.Some? && s.writer.value.id == s.points[p].mine ==>
            WritesOrWill(s'.points[p]) && s'.points[p].mine == s.points[p].mine)
  {
    assert PointOk(s, p);
  }

  lemma WriterLooksInv(s: RW, p: nat)
    requires Inv(s) && Enabled(s, p) && !IsReader(s.points[p]) && !(s.points[p].WrAdd? && s.writer.None?)
    requires !s.points[p].WrPromote? && !s.points[p].WrGiveUp? && !s.points[p].WrEndRemove?
    ensures Inv(DataStep(s, p))
  {
    WriterLooks(s, p);
    assert PointOk(s, p);
    assert PointOk(DataStep(s, p), p);
    hide PointOk, DataStep, SameOrLeft;
    NeutralInv(s, DataStep(s, p), p);
  }

  lemma StepInv(s: RW, p: nat)
    requires Inv(s) && Alive(s, p)
    ensures Inv(StepOf(s, p))
  {
    var pt := s.points[p];
    assert PointOk(s, p);
    if Unlocking(pt) {
      if s.lock.procs[p].Idle? { NeutralInv(s, StepOf(s, p), p); } else { LockStepInv(s, Call(p, true)); }
    } else if Enabled(s, p) {
      if pt.RdInsert? || pt.RdEndInsert? { ListInv(s, p); }
      else if IsReader(pt) { ReaderInv(s, p); }
      else { WriterInv(s, p); }
    } else if Locking(pt) {
      LockStepInv(s, Call(p, true));
    }
  }

  lemma NextInv(s: RW, e: Event)
    requires Inv(s)
    ensures Inv(Next(s, e))
  {
    if e.Step? {
      if Alive(s, e.p) { StepInv(s, e.p); }
    } else if e.Retry? {
      if Waiting(s, e.p) { LockStepInv(s, Begin(e.p, KEY, Some(s.lasts), false)); }
    } else if e.Die? {
      LockStepInv(s, Crash(e.p));
    } else if e.Wait? {
      WaitInv(s, e.d);
    } else {
      MoveInv(s, e);
    }
  }

  /** A client enters an operation, gives up, or reaches its deadline. */
  lemma MoveInv(s: RW, e: Event)
    requires Inv(s) && (e.Read? || e.Write? || e.Dispose? || e.Quit? || e.Deadline?)
    ensures Inv(Next(s, e))
  {
    if Alive(s, e.p) && Next(s, e) != s {
      var pt := Next(s, e).points[e.p];
      assert PointOk(s, e.p);
      assert Next(s, e) == At(s, e.p, pt);
      assert PointOk(At(s, e.p, pt), e.p);
      hide PointOk, Next;
      NeutralInv(s, At(s, e.p, pt), e.p);
    }
  }

  lemma {:induction false} ExecInv(s: RW, es: seq<Event>)
    requires Inv(s)
    ensures Inv(Exec(s, es))
    decreases |es|
  {
    if es != [] {
      NextInv(s, es[0]);
      ExecInv(Next(s, es[0]), es[1..]);
    }
  }
}
