/** Undisturbed operations of one client at the reader-writer lock: exactly what each comes to. */
module ReaderWriterTurns {
  import opened Cache
  import opened ReaderWriter
  import opened ReaderWriterGap
  import KeyLock
  import opened Lists

  /** What one client's undisturbed operation comes to; the list's lock and all other clients are as before. */
  predicate Returns(s: RW, s': RW, p: nat, pt: Point, readers: seq<Id>, records: map<Id, nat>, writer: Option<Writer>) {
    && p < |s.points| && p < |s.lock.procs|
    && s'.points == s.points[p := pt] && s'.readers == readers && s'.records == records && s'.writer == writer
    && s'.lock.locks == s.lock.locks && |s'.lock.procs| == |s.lock.procs|
    && forall q :: 0 <= q < |s.lock.procs| && q != p ==> s'.lock.procs[q] == s.lock.procs[q]
  }

  ghost predicate Alone(p: nat, es: seq<Event>) {
    forall i :: 0 <= i < |es| ==>
      es[i] == Read(p) || es[i] == Write(p) || es[i] == ReaderWriter.Event.Dispose(p) || es[i] == Step(p) || es[i] == Retry(p) || es[i] == Deadline(p)
  }

  lemma Idle(s: RW, p: nat)
    requires Inv(s) && Alive(s, p) && !Locking(s.points[p]) && !Inside(s.points[p]) && !Unlocking(s.points[p])
    ensures Outside(s.lock.procs[p])
  {
    assert PointOk(s, p);
  }

  // ---- Readers ----

  /** With the list unlocked, an undisturbed read lists a new reader, with its record, unless a writer is there: then it
      returns at once without a handle. */
  lemma ReadAlone(s: RW, p: nat) returns (es: seq<Event>)
    requires Inv(s) && Alive(s, p) && s.points[p].Out? && KEY !in s.lock.locks
    ensures Alone(p, es)
    ensures var id := |s.makers|;
      if s.writer.Some? then Returns(s, Exec(s, es), p, Out, s.readers, s.records, s.writer)
      else Returns(s, Exec(s, es), p, Reading(id, s.added), s.readers + [id], s.records[id := s.lock.now + s.lasts], None)
  {
    Idle(s, p);
    var s1 := At(s, p, RdCheck);
    var s2 := At(s, p, if s.writer.Some? then Out else RdLock(s.added));
    assert Next(s, Read(p)) == s1 && Next(s1, Step(p)) == s2;
    if s.writer.Some? {
      es := [Read(p)] + ([Step(p)] + []);
      First(s, Read(p), [Step(p)] + []);
      First(s1, Step(p), []);
    } else {
      es := [Read(p)] + ([Step(p)] + ([Retry(p)] + Steps(p, 10)));
      First(s, Read(p), [Step(p)] + ([Retry(p)] + Steps(p, 10)));
      First(s1, Step(p), [Retry(p)] + Steps(p, 10));
      ReaderGetsIn(s2, p);
      assert s2.points[p := Reading(|s.makers|, s.added)] == s.points[p := Reading(|s.makers|, s.added)];
      assert ReaderIn(s2, p).writer == s.writer;
    }
    hide Next, Steps;
  }

  /** A reader's handle, given back. */
  function ReaderOut(s: RW, r: nat): RW
    requires r < |s.points| && r < |s.lock.procs| && s.points[r].RdEndLock?
  {
    var mine := s.points[r].mine;
    s.(points := s.points[r := Out], lock := KeyLock.Freed(s.lock, r), readers := Without(s.readers, mine),
       records := if mine in s.readers then s.records - {mine} else s.records)
  }

  lemma EndCalls(s: RW, r: nat, s1: RW)
    requires r < |s.points| && r < |s.lock.procs| && s.points[r].RdEndLock? && KEY !in s.lock.locks && s.points[r].mine in s.readers
    requires s1 == s.(lock := KeyLock.Locked(s.lock, r, KEY, Some(s.lasts)))
    ensures Enabled(s1, r) && Enabled(DataStep(s1, r), r) && Enabled(DataStep(DataStep(s1, r), r), r)
    ensures DataStep(s1, r).points[r].RdEndInsert? && DataStep(DataStep(s1, r), r).points[r].RdEndRemove?
    ensures var s4 := DataStep(DataStep(DataStep(s1, r), r), r);
      Leaving(s, s4, r, Some(s.lasts)) && At(s4, r, Finish(s4.points[r])).(lock := KeyLock.Freed(s.lock, r)) == ReaderOut(s, r)
  {
    var s4 := DataStep(DataStep(DataStep(s1, r), r), r);
    assert At(s4, r, Finish(s4.points[r])).points == ReaderOut(s, r).points;
  }

  lemma EndTurn(s: RW, r: nat)
    requires Waiting(s, r) && s.points[r].RdEndLock? && KEY !in s.lock.locks && s.points[r].mine in s.readers
    ensures Exec(s, [Retry(r)] + Steps(r, 10)) == ReaderOut(s, r)
  {
    var s1 := s.(lock := KeyLock.Locked(s.lock, r, KEY, Some(s.lasts)));
    EndCalls(s, r, s1);
    hide DataStep, KeyLock.Locked, Steps, ReaderOut, KeyLock.Freed, Finish, KeyLock.Next, Exec, Leaving;
    LockList(s, r, 6);
    InsideStep(s1, r, 6);
    InsideStep(DataStep(s1, r), r, 5);
    InsideStep(DataStep(DataStep(s1, r), r), r, 4);
    UnlockList(s, DataStep(DataStep(DataStep(s1, r), r), r), r, Some(s.lasts));
  }

  /** With the list unlocked, an undisturbed dispose of a reader's handle takes the reader off the list and its record out
      of the cache. */
  lemma ReadEndsAlone(s: RW, p: nat) returns (es: seq<Event>)
    requires Inv(s) && Alive(s, p) && s.points[p].Reading? && KEY !in s.lock.locks
    ensures Alone(p, es)
    ensures var mine := s.points[p].mine;
      mine in s.readers && mine !in Without(s.readers, mine)
      && Returns(s, Exec(s, es), p, Out, Without(s.readers, mine), s.records - {mine}, s.writer)
  {
    Idle(s, p);
    assert PointOk(s, p);
    var mine := s.points[p].mine;
    WithoutIn(s.readers, mine, mine);
    var s1 := At(s, p, RdEndLock(mine, s.points[p].seen));
    assert Next(s, ReaderWriter.Event.Dispose(p)) == s1;
    es := [ReaderWriter.Event.Dispose(p)] + ([Retry(p)] + Steps(p, 10));
    First(s, ReaderWriter.Event.Dispose(p), [Retry(p)] + Steps(p, 10));
    EndTurn(s1, p);
    assert s1.points[p := Out] == s.points[p := Out];
    hide Next, Exec, Steps;
  }

  // ---- Writers ----

  /** The turn of a writer that finds another writer there. */
  function WriterOut(s: RW, w: nat): RW
    requires w < |s.points| && w < |s.lock.procs|
  {
    s.(points := s.points[w := Out], lock := KeyLock.Freed(s.lock, w), makers := s.makers + [w])
  }

  lemma FailCalls(s: RW, w: nat, s1: RW)
    requires w < |s.points| && w < |s.lock.procs| && s.points[w].WrLock? && KEY !in s.lock.locks && s.writer.Some?
    requires s1 == s.(lock := KeyLock.Locked(s.lock, w, KEY, Some(s.lasts)))
    ensures Enabled(s1, w) && Enabled(DataStep(s1, w), w) && DataStep(s1, w).points[w].WrAdd?
    ensures var s3 := DataStep(DataStep(s1, w), w);
      Leaving(s, s3, w, Some(s.lasts)) && At(s3, w, Finish(s3.points[w])).(lock := KeyLock.Freed(s.lock, w)) == WriterOut(s, w)
  {
    var s3 := DataStep(DataStep(s1, w), w);
    assert At(s3, w, Finish(s3.points[w])).points == WriterOut(s, w).points;
  }

  lemma WriterIsRefused(s: RW, w: nat)
    requires Waiting(s, w) && s.points[w].WrLock? && KEY !in s.lock.locks && s.writer.Some?
    ensures Exec(s, [Retry(w)] + Steps(w, 9)) == WriterOut(s, w)
  {
    var s1 := s.(lock := KeyLock.Locked(s.lock, w, KEY, Some(s.lasts)));
    FailCalls(s, w, s1);
    hide DataStep, KeyLock.Locked, Steps, WriterOut, KeyLock.Freed, Finish, KeyLock.Next, Exec, Leaving;
    LockList(s, w, 5);
    InsideStep(s1, w, 5);
    InsideStep(DataStep(s1, w), w, 4);
    UnlockList(s, DataStep(DataStep(s1, w), w), w, Some(s.lasts));
  }

  /** With the list unlocked, an undisturbed write adds the writer's record, for its lease, and has its handle if nobody
      reads, or waits; with another writer there it returns without a handle and changes nothing. */
  lemma WriteAlone(s: RW, p: nat) returns (es: seq<Event>)
    requires Inv(s) && Alive(s, p) && s.points[p].Out? && KEY !in s.lock.locks
    ensures Alone(p, es)
    ensures var id, ends, s' := |s.makers|, s.lock.now + s.lasts, Exec(s, es);
      if s.writer.Some? then Returns(s, s', p, Out, s.readers, s.records, s.writer)
      else if s.readers == [] then Returns(s, s', p, Writing(id, ends), [], s.records, Some(Writer(id, true, ends)))
      else Returns(s, s', p, WrWait(id, ends, false), s.readers, s.records, Some(Writer(id, false, ends)))
  {
    Idle(s, p);
    var s1 := At(s, p, WrLock);
    assert Next(s, Write(p)) == s1;
    es := [Write(p)] + ([Retry(p)] + Steps(p, 9));
    First(s, Write(p), [Retry(p)] + Steps(p, 9));
    if s.writer.Some? {
      WriterIsRefused(s1, p);
      assert s1.points[p := Out] == s.points[p := Out];
    } else {
      WriterGetsIn(s1, p);
      var pt := WriterIn(s1, p).points[p];
      assert s1.points[p := pt] == s.points[p := pt];
    }
    hide Next, Exec, Steps;
  }

  /** A waiting writer that looks once more, undisturbed, when its time is up: if it sees nobody on the list, or has seen
      nobody there before, it has its handle, and a new record for its lease; else it returns without one and removes the
      record. */
  lemma WaitEndsAlone(s: RW, p: nat) returns (es: seq<Event>)
    requires Inv(s) && Alive(s, p) && s.points[p].WrWait?
    ensures Alone(p, es)
    ensures var id, ends, s' := s.points[p].mine, s.lock.now + s.lasts, Exec(s, es);
      if s.points[p].released || s.readers == []
      then Returns(s, s', p, Writing(id, ends), s.readers, s.records, Some(Writer(id, true, ends)))
      else Returns(s, s', p, Out, s.readers, s.records, None)
  {
    var mine, ends := s.points[p].mine, s.points[p].ends;
    var free := s.points[p].released || s.readers == [];
    var s1 := Next(s, Step(p));
    assert s1.points == s.points[p := WrWait(mine, ends, free)];
    var s2 := Next(s1, Deadline(p));
    assert s2.points == s.points[p := if free then WrPromote(mine, ends) else WrGiveUp(mine, ends)];
    var s3 := Next(s2, Step(p));
    assert s3.points == s.points[p := if free then Writing(mine, s.lock.now + s.lasts) else Out];
    es := [Step(p)] + ([Deadline(p)] + ([Step(p)] + []));
    hide Next;
    First(s, Step(p), [Deadline(p)] + ([Step(p)] + []));
    First(s1, Deadline(p), [Step(p)] + []);
    First(s2, Step(p), []);
  }

  /** An undisturbed dispose of a writer's handle removes its own record, and no other's. */
  lemma WriteEndsAlone(s: RW, p: nat) returns (es: seq<Event>)
    requires Alive(s, p) && s.points[p].Writing?
    ensures Alone(p, es)
    ensures Returns(s, Exec(s, es), p, Out, s.readers, s.records, if Stands(s, s.points[p].mine) then None else s.writer)
  {
    var mine, ends := s.points[p].mine, s.points[p].ends;
    var s1 := At(s, p, WrEndGet(mine, ends));
    var s2 := Next(s1, Step(p));
    assert Next(s, ReaderWriter.Event.Dispose(p)) == s1;
    assert s2 == At(s, p, if Stands(s, mine) then WrEndRemove(mine, ends) else Out);
    var n := if Stands(s, mine) then 2 else 1;
    es := [ReaderWriter.Event.Dispose(p)] + Steps(p, n);
    First(s, ReaderWriter.Event.Dispose(p), Steps(p, n));
    OneStep(s1, p, n);
    if n == 2 {
      assert Next(s2, Step(p)).points == s.points[p := Out];
      OneStep(s2, p, 1);
    }
    NoSteps(if n == 2 then Next(s2, Step(p)) else s2, p);
    hide Exec, Steps;
  }

  /** Time takes away the records that have lapsed, the writer's among them, and no other. */
  lemma OnlyLapsedRecordsGo(s: RW, d: nat)
    requires KeyLock.LeasesKept(s.lock, s.lock.now + d)
    ensures var s' := Next(s, Wait(d));
      && s'.lock.now == s.lock.now + d && s'.readers == s.readers && s'.points == s.points
      && (forall id :: id in s'.records <==> id in s.records && s.records[id] > s.lock.now + d)
      && (forall id :: id in s'.records ==> s'.records[id] == s.records[id])
      && s'.writer == if s.writer.Some? && s.writer.value.ends > s.lock.now + d then s.writer else None
  {
  }

  /** A client that does not get the list's lock in time returns without a handle, and one that dies is heard of no more;
      both leave list and records alone. */
  lemma LeavesWithoutAHandle(s: RW, p: nat)
    requires Waiting(s, p) && !s.points[p].RdEndLock?
    ensures Next(s, Quit(p)) == At(s, p, Out)
    ensures var s' := Next(s, Die(p));
      !Alive(s', p) && s'.readers == s.readers && s'.records == s.records && s'.writer == s.writer
  {
  }

  /** When a client dies with the list's lock in hand, the next reader gets it once the lease has ended. */
  lemma DeadHolderIsOvercome(s: RW, p: nat, d: nat, q: nat) returns (es: seq<Event>)
    requires Inv(s) && Alive(s, p) && KeyLock.Owns(s.lock, p, KEY) && KEY in s.lock.locks && s.lock.locks[KEY].ends == Some(s.lock.now + d)
    requires KeyLock.LeasesKept(KeyLock.Next(s.lock, KeyLock.Crash(p)), s.lock.now + d)
    requires Alive(s, q) && s.points[q].Out? && q != p && (s.writer.Some? ==> s.writer.value.ends <= s.lock.now + d)
    ensures var s' := Exec(s, [Die(p)] + ([Wait(d)] + es));
      Alone(q, es) && q < |s'.points| && s'.points[q].Reading? && s'.readers == s.readers + [s'.points[q].mine]
  {
    assert KeyLock.ClientOk(s.lock, p);
    var s1 := Next(s, Die(p));
    var s2 := Next(s1, Wait(d));
    ReaderWriter.NextInv(s, Die(p));
    ReaderWriter.NextInv(s1, Wait(d));
    OnlyLapsedRecordsGo(s1, d);
    KeyLock.LapsedIsPurged(s1.lock, KEY, s.lock.now + d);
    es := ReadAlone(s2, q);
    First(s, Die(p), [Wait(d)] + es);
    First(s1, Wait(d), es);
    hide Exec, Next, Inv;
  }
}
