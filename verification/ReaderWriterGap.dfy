/** Undisturbed turns of readers and writers, and what they make possible: exactly when a reader can join a
    writer, and a run in which two writers meet. */
module ReaderWriterGap {
  import opened Cache
  import opened ReaderWriter
  import opened ReaderWriterRuns
  import KeyLock
  import opened Lists

  lemma {:induction false} ExecConcat(s: RW, a: seq<Event>, b: seq<Event>)
    ensures Exec(s, a + b) == Exec(Exec(s, a), b)
    decreases |a|
  {
    if a == [] {
      assert a + b == b;
    } else {
      assert (a + b)[1..] == a[1..] + b;
      hide Next;
      ExecConcat(Next(s, a[0]), a[1..], b);
    }
  }

  /** `k` steps of client `p`. */
  function Steps(p: nat, k: nat): (es: seq<Event>)
    ensures OnlyBy(p, es)
  {
    if k == 0 then [] else [Step(p)] + Steps(p, k - 1)
  }

  /** Runs in which one client goes on alone. */
  predicate OnlyBy(p: nat, es: seq<Event>) {
    forall i :: 0 <= i < |es| ==> es[i] == Step(p) || es[i] == Retry(p)
  }

  lemma OneStep(s: RW, p: nat, k: nat)
    requires k > 0
    ensures Exec(s, Steps(p, k)) == Exec(Next(s, Step(p)), Steps(p, k - 1))
  {
    assert Steps(p, k)[1..] == Steps(p, k - 1);
    hide Next;
  }

  lemma First(s: RW, e: Event, es: seq<Event>)
    ensures Exec(s, [e] + es) == Exec(Next(s, e), es)
  {
    assert ([e] + es)[1..] == es;
    hide Next;
  }

  // ---- Getting the list's lock ----

  /** A step of a client that waits for the list's lock is a step of `LockKey`. */
  lemma LockStep(s: RW, lock: KeyLock.State, p: nat, k: nat)
    requires p < |s.points| && Locking(s.points[p]) && k > 0
    requires p < |lock.procs| && !lock.procs[p].Crashed? && !KeyLock.Holds(lock, p, KEY)
    ensures Exec(s.(lock := lock), Steps(p, k)) == Exec(s.(lock := KeyLock.CallOf(lock, p, true)), Steps(p, k - 1))
  {
    OneStep(s.(lock := lock), p, k);
  }

  /** Wherever it is in `LockKey`, with the list unlocked, its steps lock it. */
  lemma {:induction false} GoesOn(s: RW, lock: KeyLock.State, p: nat, k: nat)
    requires p < |s.points| && Locking(s.points[p]) && KeyLock.Approaching(lock, p) && lock.procs[p].key == KEY
    ensures Exec(s.(lock := lock), Steps(p, k + KeyLock.CallsLeft(lock.procs[p]))) ==
            Exec(s.(lock := KeyLock.Reached(lock, p)), Steps(p, k))
    decreases KeyLock.CallsLeft(lock.procs[p])
  {
    hide Exec, Steps, KeyLock.CallOf, KeyLock.Reached;
    if lock.procs[p].Held? {
      KeyLock.Arrived(lock, p);
    } else {
      KeyLock.Nearer(lock, p);
      LockStep(s, lock, p, k + KeyLock.CallsLeft(lock.procs[p]));
      GoesOn(s, KeyLock.CallOf(lock, p, true), p, k);
    }
  }

  lemma RetryEnters(s: RW, p: nat)
    requires Waiting(s, p)
    ensures Next(s, Retry(p)) == s.(lock := KeyLock.At(s.lock, p, KeyLock.CheckKey(KEY, Some(s.lasts))))
  {
  }

  /** With the list unlocked, one `Retry` and four steps lock it. */
  lemma LockList(s: RW, p: nat, k: nat)
    requires Waiting(s, p) && KEY !in s.lock.locks
    ensures Exec(s, [Retry(p)] + Steps(p, k + 4)) == Exec(s.(lock := KeyLock.Locked(s.lock, p, KEY, Some(s.lasts))), Steps(p, k))
  {
    hide Exec, Steps, Next, KeyLock.Reached, KeyLock.Approaching, KeyLock.Locked;
    RetryEnters(s, p);
    First(s, Retry(p), Steps(p, k + 4));
    KeyLock.Enters(s.lock, p, KEY, Some(s.lasts), false);
    GoesOn(s, KeyLock.At(s.lock, p, KeyLock.CheckKey(KEY, Some(s.lasts))), p, k);
  }

  // ---- Leaving it ----

  /** `s1` is reached in a turn of `p` that began in `s`, at the start of its `UnlockKey`. */
  predicate Leaving(s: RW, s1: RW, p: nat, lease: Option<Duration>) {
    && p < |s.lock.procs| && KEY !in s.lock.locks
    && p < |s1.points| && Unlocking(s1.points[p])
    && s1.lock == KeyLock.Next(KeyLock.Locked(s.lock, p, KEY, lease), KeyLock.BeginUnlock(p))
  }

  lemma UnlockStep(s: RW, p: nat)
    requires Alive(s, p) && Unlocking(s.points[p]) && (s.lock.procs[p].CheckToken? || s.lock.procs[p].RemoveLock?)
    ensures Next(s, Step(p)) == s.(lock := KeyLock.CallOf(s.lock, p, true))
  {
  }

  /** Three steps unlock the list and finish the operation. */
  lemma UnlockList(s: RW, s1: RW, p: nat, lease: Option<Duration>)
    requires Leaving(s, s1, p, lease)
    ensures Exec(s1, Steps(p, 3)) == At(s1, p, Finish(s1.points[p])).(lock := KeyLock.Freed(s.lock, p))
  {
    KeyLock.TurnEnds(s.lock, p, KEY, lease);
    var l1 := KeyLock.CallOf(s1.lock, p, true);
    UnlockStep(s1, p);
    UnlockStep(s1.(lock := l1), p);
    var s3 := s1.(lock := KeyLock.Freed(s.lock, p));
    assert Next(s3, Step(p)) == At(s3, p, Finish(s1.points[p]));
    hide Next, KeyLock.CallOf, KeyLock.Freed, Finish;
    OneStep(s1, p, 3);
    OneStep(s1.(lock := l1), p, 2);
    OneStep(s3, p, 1);
    NoSteps(At(s3, p, Finish(s1.points[p])), p);
  }

  lemma NoSteps(s: RW, p: nat)
    ensures Exec(s, Steps(p, 0)) == s
  {
  }

  /** One step inside the critical section. */
  lemma InsideStep(s: RW, p: nat, k: nat)
    requires Enabled(s, p) && !Unlocking(s.points[p]) && k > 0
    ensures Exec(s, Steps(p, k)) == Exec(DataStep(s, p), Steps(p, k - 1))
  {
    OneStep(s, p, k);
  }

  // ---- Whole turns ----

  /** A writer that found no writer: it has its handle, or waits for the readers listed. */
  function WriterIn(s: RW, w: nat): RW
    requires w < |s.points| && w < |s.lock.procs|
  {
    var id, ends, waits := |s.makers|, s.lock.now + s.lasts, s.readers != [];
    s.(points := s.points[w := if waits then WrWait(id, ends, false) else Writing(id, ends)],
       lock := KeyLock.Freed(s.lock, w), makers := s.makers + [w],
       writer := Some(Writer(id, !waits, ends)), added := s.added + 1,
       sawEmpty := if waits then s.sawEmpty else s.sawEmpty + {id})
  }

  /** The two calls a writer makes under the list's lock. */
  lemma WriterCalls(s: RW, w: nat, s1: RW)
    requires w < |s.points| && w < |s.lock.procs| && s.points[w].WrLock? && KEY !in s.lock.locks && s.writer.None?
    requires s1 == s.(lock := KeyLock.Locked(s.lock, w, KEY, Some(s.lasts)))
    ensures Enabled(s1, w) && Enabled(DataStep(s1, w), w) && DataStep(s1, w).points[w].WrAdd?
    ensures var s3 := DataStep(DataStep(s1, w), w);
      Leaving(s, s3, w, Some(s.lasts)) && At(s3, w, Finish(s3.points[w])).(lock := KeyLock.Freed(s.lock, w)) == WriterIn(s, w)
  {
    var s3 := DataStep(DataStep(s1, w), w);
    assert At(s3, w, Finish(s3.points[w])).points == WriterIn(s, w).points;
  }

  lemma WriterGetsIn(s: RW, w: nat)
    requires Waiting(s, w) && s.points[w].WrLock? && KEY !in s.lock.locks && s.writer.None?
    ensures Exec(s, [Retry(w)] + Steps(w, 9)) == WriterIn(s, w)
  {
    hide DataStep, KeyLock.Locked, Steps, WriterIn, KeyLock.Freed, Finish, KeyLock.Next, Exec, Leaving, Enabled;
    var s1 := s.(lock := KeyLock.Locked(s.lock, w, KEY, Some(s.lasts)));
    WriterCalls(s, w, s1);
    LockList(s, w, 5);
    InsideStep(s1, w, 5);
    InsideStep(DataStep(s1, w), w, 4);
    UnlockList(s, DataStep(DataStep(s1, w), w), w, Some(s.lasts));
  }

  /** A reader past its check, with its handle; whether a writer stands makes no difference. */
  function ReaderIn(s: RW, r: nat): RW
    requires r < |s.points| && r < |s.lock.procs| && s.points[r].RdLock?
  {
    var id := |s.makers|;
    s.(points := s.points[r := Reading(id, s.points[r].seen)], lock := KeyLock.Freed(s.lock, r), makers := s.makers + [r],
       readers := s.readers + [id], records := s.records[id := s.lock.now + s.lasts])
  }

  lemma ReaderCalls(s: RW, r: nat, s1: RW, lease: Option<Duration>)
    requires r < |s.points| && r < |s.lock.procs| && s.points[r].RdLock? && KEY !in s.lock.locks
    requires s1 == s.(lock := KeyLock.Locked(s.lock, r, KEY, lease))
    ensures Enabled(s1, r) && Enabled(DataStep(s1, r), r) && Enabled(DataStep(DataStep(s1, r), r), r)
    ensures DataStep(s1, r).points[r].RdRecord? && DataStep(DataStep(s1, r), r).points[r].RdInsert?
    ensures var s4 := DataStep(DataStep(DataStep(s1, r), r), r);
      Leaving(s, s4, r, lease) && At(s4, r, Finish(s4.points[r])).(lock := KeyLock.Freed(s.lock, r)) == ReaderIn(s, r)
  {
    var s4 := DataStep(DataStep(DataStep(s1, r), r), r);
    assert At(s4, r, Finish(s4.points[r])).points == ReaderIn(s, r).points;
  }

  lemma ReaderGoesOn(s: RW, r: nat, lease: Option<Duration>)
    requires r < |s.points| && r < |s.lock.procs| && s.points[r].RdLock? && KEY !in s.lock.locks
    ensures Exec(s.(lock := KeyLock.Locked(s.lock, r, KEY, lease)), Steps(r, 6)) == ReaderIn(s, r)
  {
    var s1 := s.(lock := KeyLock.Locked(s.lock, r, KEY, lease));
    ReaderCalls(s, r, s1, lease);
    hide DataStep, KeyLock.Locked, Steps, ReaderIn, KeyLock.Freed, Finish, KeyLock.Next, Exec, Leaving;
    InsideStep(s1, r, 6);
    InsideStep(DataStep(s1, r), r, 5);
    InsideStep(DataStep(DataStep(s1, r), r), r, 4);
    UnlockList(s, DataStep(DataStep(DataStep(s1, r), r), r), r, lease);
  }

  lemma ReaderGetsIn(s: RW, r: nat)
    requires Waiting(s, r) && s.points[r].RdLock? && KEY !in s.lock.locks
    ensures Exec(s, [Retry(r)] + Steps(r, 10)) == ReaderIn(s, r)
  {
    hide Exec, Steps;
    LockList(s, r, 6);
    ReaderGoesOn(s, r, Some(s.lasts));
  }

  // ---- Exactly when a reader can join a writer ----

  /** A client that goes on alone as a reader leaves the writer record and all other points as they are. */
  lemma {:induction false} ReaderAlone(s: RW, q: nat, es: seq<Event>)
    requires OnlyBy(q, es) && q < |s.points| && (IsReader(s.points[q]) || s.points[q].Out?) && s.writer.Some?
    ensures var s' := Exec(s, es);
      StoodFor(s, es) && |s'.points| == |s.points| && forall w :: 0 <= w < |s.points| && w != q ==> s'.points[w] == s.points[w]
    decreases |es|
  {
    if es != [] {
      var s1 := Next(s, es[0]);
      ReaderAloneStep(s, q, es[0]);
      hide Next;
      ReaderAlone(s1, q, es[1..]);
    }
  }

  lemma ReaderAloneStep(s: RW, q: nat, e: Event)
    requires (e == Step(q) || e == Retry(q)) && q < |s.points| && (IsReader(s.points[q]) || s.points[q].Out?)
    ensures var s' := Next(s, e);
      && |s'.points| == |s.points| && (IsReader(s'.points[q]) || s'.points[q].Out?) && s'.writer == s.writer
      && forall w :: 0 <= w < |s.points| && w != q ==> s'.points[w] == s.points[w]
  {
    if e == Step(q) && Alive(s, q) {
      if IsReader(s.points[q]) {
        ReaderFrame(s, q);
        ReaderStays(s, q);
      }
    }
    hide ReaderStep, WriterStep, KeyLock.Next;
  }

  lemma ReaderStays(s: RW, q: nat)
    requires q < |s.points| && IsReader(s.points[q])
    ensures |ReaderStep(s, q).points| == |s.points| && (IsReader(ReaderStep(s, q).points[q]) || ReaderStep(s, q).points[q].Out?)
  {
  }

  /** With the key free, a live client that waits at its loop is outside `LockKey`, or before its `Add`, or
      about to read who refused it. */
  lemma PhasesOnTheWay(s: RW, r: nat)
    requires Inv(s) && Alive(s, r) && Locking(s.points[r]) && KEY !in s.lock.locks
    ensures var ph := s.lock.procs[r];
      Outside(ph) || (ph.key == KEY && (ph.CheckKey? || ph.CheckLock? || ph.AddLock? || ph.ReadHolder?))
  {
    assert PointOk(s, r) && KeyLock.ClientOk(s.lock, r);
  }

  lemma ApproachAgain(s: RW, r: nat) returns (es: seq<Event>)
    requires Alive(s, r) && s.points[r].RdLock? && KEY !in s.lock.locks && s.lock.procs[r] == KeyLock.ReadHolder(KEY)
    ensures OnlyBy(r, es) && Exec(s, es) == s.(lock := KeyLock.Locked(s.lock, r, KEY, Some(s.lasts)))
  {
    es := [Step(r)] + ([Retry(r)] + Steps(r, 4));
    var s1 := s.(lock := KeyLock.At(s.lock, r, KeyLock.Refused(KEY, None)));
    assert Next(s, Step(r)) == s1;
    assert KeyLock.Locked(s1.lock, r, KEY, Some(s.lasts)).procs == KeyLock.Locked(s.lock, r, KEY, Some(s.lasts)).procs;
    First(s, Step(r), [Retry(r)] + Steps(r, 4));
    LockList(s1, r, 0);
    NoSteps(s1.(lock := KeyLock.Locked(s1.lock, r, KEY, Some(s.lasts))), r);
  }

  lemma ApproachOn(s: RW, r: nat) returns (es: seq<Event>, lease: Option<Duration>)
    requires Alive(s, r) && s.points[r].RdLock? && KEY !in s.lock.locks
    requires var ph := s.lock.procs[r]; (ph.CheckKey? || ph.CheckLock? || ph.AddLock?) && ph.key == KEY
    ensures OnlyBy(r, es) && Exec(s, es) == s.(lock := KeyLock.Locked(s.lock, r, KEY, lease))
  {
    lease := s.lock.procs[r].lease;
    es := Steps(r, KeyLock.CallsLeft(s.lock.procs[r]));
    assert s == s.(lock := s.lock);
    GoesOn(s, s.lock, r, 0);
    NoSteps(s.(lock := KeyLock.Locked(s.lock, r, KEY, lease)), r);
    hide Exec, Next, Steps;
  }

  /** A reader past its check gets the list's lock, wherever it is in `LockKey`. */
  lemma Approach(s: RW, r: nat) returns (es: seq<Event>, lease: Option<Duration>)
    requires Inv(s) && Alive(s, r) && s.points[r].RdLock? && KEY !in s.lock.locks
    ensures OnlyBy(r, es) && Exec(s, es) == s.(lock := KeyLock.Locked(s.lock, r, KEY, lease))
  {
    PhasesOnTheWay(s, r);
    hide Inv, Exec, Steps;
    if Outside(s.lock.procs[r]) {
      es, lease := [Retry(r)] + Steps(r, 4), Some(s.lasts);
      LockList(s, r, 0);
      NoSteps(s.(lock := KeyLock.Locked(s.lock, r, KEY, lease)), r);
    } else if s.lock.procs[r].ReadHolder? {
      lease := Some(s.lasts);
      es := ApproachAgain(s, r);
    } else {
      es, lease := ApproachOn(s, r);
    }
  }

  /** A live client that is reading under a handle. */
  predicate Reads(s: RW, q: nat) {
    Alive(s, q) && s.points[q].Reading?
  }

  /** A live client that is past its check and has no handle yet, or has one. */
  predicate OnItsWay(s: RW, q: nat) {
    Alive(s, q) && (s.points[q].RdLock? || s.points[q].RdUnlock? || s.points[q].Reading?)
  }

  /** In some run that leaves writer `w` where it is, and throughout which a record stands, a client comes to read. */
  ghost predicate CanBeJoined(s: RW, w: nat) {
    exists es: seq<Event>, q: nat :: Joins(s, w, es, q)
  }

  ghost predicate Joins(s: RW, w: nat, es: seq<Event>, q: nat) {
    StoodFor(s, es) && w < |s.points| && w < |Exec(s, es).points| && Exec(s, es).points[w] == s.points[w] && Reads(Exec(s, es), q)
  }

  lemma UnlockerReads(s: RW, q: nat) returns (es: seq<Event>)
    requires Inv(s) && Alive(s, q) && s.points[q].RdUnlock? && KEY !in s.lock.locks
    ensures OnlyBy(q, es) && Reads(Exec(s, es), q)
  {
    assert PointOk(s, q) && KeyLock.ClientOk(s.lock, q);
    es := Steps(q, 1);
    OneStep(s, q, 1);
    NoSteps(Next(s, Step(q)), q);
  }

  lemma LockerReads(s: RW, q: nat) returns (es: seq<Event>)
    requires Inv(s) && Alive(s, q) && s.points[q].RdLock? && KEY !in s.lock.locks
    ensures OnlyBy(q, es) && Reads(Exec(s, es), q)
  {
    var pre, lease := Approach(s, q);
    ReaderGoesOn(s, q, lease);
    ExecConcat(s, pre, Steps(q, 6));
    es := pre + Steps(q, 6);
  }

  lemma NobodyOnItsWay(s: RW)
    requires Inv(s) && KEY !in s.lock.locks && forall q: nat :: !OnItsWay(s, q)
    ensures NoReaders(s)
  {
    forall q: nat | q < |s.points| && Alive(s, q) ensures !MayRead(s.points[q]) {
      assert PointOk(s, q) && KeyLock.ClientOk(s.lock, q) && !OnItsWay(s, q);
    }
  }

  /** With the list's lock free, a writer that writes can be joined by a reader while a record stands if and only
      if a live client is past its check for a writer and has its handle, or is still to get it. */
  lemma {:induction false} JoinedExactlyByEarlierReaders(s: RW, w: nat)
    requires Inv(s) && w < |s.points| && s.points[w].Writing? && s.writer.Some? && KEY !in s.lock.locks
    ensures CanBeJoined(s, w) <==> exists q: nat :: OnItsWay(s, q)
  {
    if exists q: nat :: OnItsWay(s, q) {
      var q: nat :| OnItsWay(s, q);
      var es: seq<Event> := [];
      if s.points[q].RdUnlock? {
        es := UnlockerReads(s, q);
      } else if s.points[q].RdLock? {
        es := LockerReads(s, q);
      }
      ReaderAlone(s, q, es);
      assert Joins(s, w, es, q);
    } else {
      NobodyOnItsWay(s);
      forall es: seq<Event>, q: nat ensures !Joins(s, w, es, q) {
        if StoodFor(s, es) {
          AloneThroughout(s, es);
        }
      }
    }
  }

  // ---- Reachable from the start ----

  /** Some run leads from `s` to `s'`. */
  ghost predicate Reaches(s: RW, s': RW) {
    exists es: seq<Event> :: Exec(s, es) == s'
  }

  lemma Onward(s: RW, s1: RW, es: seq<Event>, s2: RW)
    requires Reaches(s, s1) && Exec(s1, es) == s2
    ensures Reaches(s, s2)
  {
    var a: seq<Event> :| Exec(s, a) == s1;
    ExecConcat(s, a, es);
  }

  lemma One(s: RW, e: Event)
    ensures Exec(s, [e]) == Next(s, e)
  {
    First(s, e, []);
    assert [e] + [] == [e];
  }

  /** The list's lock is free and every client's lock operation is over. */
  predicate Still(s: RW) {
    s.lock.locks == map[] && |s.lock.procs| == |s.points| && forall p :: 0 <= p < |s.points| ==> s.lock.procs[p].Idle?
  }

  lemma FreedStaysStill(s: RW, p: nat)
    requires Still(s) && p < |s.points|
    ensures KeyLock.Freed(s.lock, p).locks == map[] && |KeyLock.Freed(s.lock, p).procs| == |s.points|
    ensures forall q :: 0 <= q < |s.points| ==> KeyLock.Freed(s.lock, p).procs[q].Idle?
  {
  }

  /** A client comes along and takes its turn as a writer. */
  lemma WriterComes(s0: RW, s: RW, w: nat)
    requires Reaches(s0, s) && Still(s) && w < |s.points| && s.points[w].Out? && s.writer.None?
    ensures Reaches(s0, WriterIn(s, w)) && Still(WriterIn(s, w))
  {
    var s1 := At(s, w, WrLock);
    assert Next(s, Write(w)) == s1;
    One(s, Write(w));
    Onward(s0, s, [Write(w)], s1);
    WriterGetsIn(s1, w);
    assert WriterIn(s1, w).points == WriterIn(s, w).points;
    FreedStaysStill(s, w);
    Onward(s0, s1, [Retry(w)] + Steps(w, 9), WriterIn(s, w));
  }

  /** Readers and writers are not exclusive: a reader that has looked for a writer, and found none, enters after
      a writer has got its handle. No time passes and nothing fails. */
  lemma ReaderAndWriterTogether(n: nat, lasts: Duration, r: nat, w: nat)
    requires r < n && w < n && r != w
    ensures exists s :: Reaches(Init(n, lasts), s) && |s.points| == n && Reads(s, r) && HoldsWrite(s, w) && s.points[w].Writing?
  {
    var s0 := Init(n, lasts);
    var s1, s2 := At(s0, r, RdCheck), At(s0, r, RdLock(0));
    assert Next(s0, Read(r)) == s1 && Next(s1, Step(r)) == s2;
    assert Exec(s0, []) == s0;
    One(s0, Read(r));
    One(s1, Step(r));
    Onward(s0, s0, [Read(r)], s1);
    Onward(s0, s1, [Step(r)], s2);
    WriterComes(s0, s2, w);
    var s3 := WriterIn(s2, w);
    ReaderGetsIn(s3, r);
    Onward(s0, s3, [Retry(r)] + Steps(r, 10), ReaderIn(s3, r));
    var s4 := ReaderIn(s3, r);
    assert Reads(s4, r) && HoldsWrite(s4, w) && s4.points[w].Writing?;
  }

  // ---- Two writers ----

  /** A reader's Dispose, undisturbed, takes it off the list. */
  function ReaderOut(s: RW, r: nat): RW
    requires r < |s.points| && r < |s.lock.procs| && s.points[r].RdEndLock?
  {
    var mine := s.points[r].mine;
    s.(points := s.points[r := Out], lock := KeyLock.Freed(s.lock, r), readers := Without(s.readers, mine), records := s.records - {mine})
  }

  lemma ReaderEndCalls(s: RW, r: nat, s1: RW)
    requires r < |s.points| && r < |s.lock.procs| && s.points[r].RdEndLock? && s.points[r].mine in s.readers && KEY !in s.lock.locks
    requires s1 == s.(lock := KeyLock.Locked(s.lock, r, KEY, Some(s.lasts)))
    ensures Enabled(s1, r) && Enabled(DataStep(s1, r), r) && Enabled(DataStep(DataStep(s1, r), r), r)
    ensures DataStep(s1, r).points[r].RdEndInsert? && DataStep(DataStep(s1, r), r).points[r].RdEndRemove?
    ensures var s4 := DataStep(DataStep(DataStep(s1, r), r), r);
      Leaving(s, s4, r, Some(s.lasts)) && At(s4, r, Finish(s4.points[r])).(lock := KeyLock.Freed(s.lock, r)) == ReaderOut(s, r)
  {
    var s4 := DataStep(DataStep(DataStep(s1, r), r), r);
    assert At(s4, r, Finish(s4.points[r])).points == ReaderOut(s, r).points;
  }

  lemma ReaderGetsOut(s: RW, r: nat)
    requires Waiting(s, r) && s.points[r].RdEndLock? && s.points[r].mine in s.readers && KEY !in s.lock.locks
    ensures Exec(s, [Retry(r)] + Steps(r, 10)) == ReaderOut(s, r)
  {
    var s1 := s.(lock := KeyLock.Locked(s.lock, r, KEY, Some(s.lasts)));
    ReaderEndCalls(s, r, s1);
    hide DataStep, KeyLock.Locked, Steps, ReaderOut, KeyLock.Freed, Finish, KeyLock.Next, Exec, Leaving;
    LockList(s, r, 6);
    InsideStep(s1, r, 6);
    InsideStep(DataStep(s1, r), r, 5);
    InsideStep(DataStep(DataStep(s1, r), r), r, 4);
    UnlockList(s, DataStep(DataStep(DataStep(s1, r), r), r), r, Some(s.lasts));
  }

  /** A reader comes, finding no writer, and gets its handle. */
  lemma ReaderComes(s0: RW, s: RW, r: nat) returns (s': RW)
    requires Reaches(s0, s) && Still(s) && r < |s.points| && s.points[r].Out? && s.writer.None?
    ensures s' == ReaderIn(At(s, r, RdLock(s.added)), r) && Reaches(s0, s') && Still(s')
  {
    var s1, s2 := At(s, r, RdCheck), At(s, r, RdLock(s.added));
    assert Next(s, Read(r)) == s1 && Next(s1, Step(r)) == s2;
    One(s, Read(r));
    One(s1, Step(r));
    Onward(s0, s, [Read(r)], s1);
    Onward(s0, s1, [Step(r)], s2);
    s' := ReaderIn(s2, r);
    ReaderGetsIn(s2, r);
    FreedStaysStill(s2, r);
    Onward(s0, s2, [Retry(r)] + Steps(r, 10), s');
  }

  lemma ReaderGoes(s0: RW, s: RW, r: nat) returns (s': RW)
    requires Reaches(s0, s) && Still(s) && r < |s.points| && s.points[r].Reading? && s.points[r].mine in s.readers
    ensures s' == ReaderOut(At(s, r, RdEndLock(s.points[r].mine, s.points[r].seen)), r) && Reaches(s0, s') && Still(s')
  {
    var s1 := At(s, r, RdEndLock(s.points[r].mine, s.points[r].seen));
    assert Next(s, Dispose(r)) == s1;
    One(s, Dispose(r));
    Onward(s0, s, [Dispose(r)], s1);
    s' := ReaderOut(s1, r);
    ReaderGetsOut(s1, r);
    FreedStaysStill(s1, r);
    Onward(s0, s1, [Retry(r)] + Steps(r, 10), s');
  }

  /** A writer that has seen the list empty waits on until its lease is over, and is told that its time is up. */
  lemma WaitTooLong(s0: RW, s: RW, w: nat) returns (s': RW)
    requires Reaches(s0, s) && Still(s) && w < |s.points| && s.points[w].WrWait? && s.readers == []
    requires s.writer.Some? && s.writer.value.ends <= s.lock.now + s.lasts
    ensures Reaches(s0, s') && Still(s') && s'.writer.None? && |s'.points| == |s.points|
    ensures s'.points[w] == WrPromote(s.points[w].mine, s.points[w].ends) && s'.lasts == s.lasts && s'.readers == []
    ensures forall q :: 0 <= q < |s.points| && q != w ==> s'.points[q] == s.points[q]
  {
    var pt := s.points[w];
    var s1 := Next(s, Step(w));
    assert s1.points == s.points[w := WrWait(pt.mine, pt.ends, true)] && s1.writer == s.writer && s1.lock == s.lock && s1.lasts == s.lasts;
    assert Still(s1) && s1.readers == [];
    var s2 := Next(s1, Wait(s.lasts));
    Lapses(s1);
    s' := Next(s2, Deadline(w));
    assert s'.points == s2.points[w := WrPromote(pt.mine, pt.ends)] && s'.lock == s2.lock && s'.writer == s2.writer;
    hide Next, Exec;
    One(s, Step(w));
    One(s1, Wait(s.lasts));
    One(s2, Deadline(w));
    Onward(s0, s, [Step(w)], s1);
    Onward(s0, s1, [Wait(s.lasts)], s2);
    Onward(s0, s2, [Deadline(w)], s');
  }

  lemma Lapses(s: RW)
    requires Still(s) && s.writer.Some? && s.writer.value.ends <= s.lock.now + s.lasts
    ensures var s' := Next(s, Wait(s.lasts));
      s'.writer.None? && s'.points == s.points && Still(s') && s'.readers == s.readers && s'.lasts == s.lasts
  {
    assert KeyLock.Next(s.lock, KeyLock.Tick(s.lasts)) == KeyLock.Advance(s.lock, s.lock.now + s.lasts);
  }

  /** Wherever a writer is about to promote itself with its record gone, the next writer gets in and the
      promotion follows. */
  lemma LatePromotion(s0: RW, s: RW, w: nat, v: nat) returns (s': RW)
    requires Reaches(s0, s) && Still(s) && s.writer.None? && s.readers == []
    requires w < |s.points| && s.points[w].WrPromote? && v < |s.points| && s.points[v].Out?
    ensures Reaches(s0, s') && HoldsWrite(s', w) && HoldsWrite(s', v) && s'.points[w].Writing? && s'.points[v].Writing?
  {
    WriterComes(s0, s, v);
    var s1 := WriterIn(s, v);
    assert s1.points[v].Writing? && s1.points[w].WrPromote? && HoldsWrite(s1, v);
    hide KeyLock.Freed;
    s' := Next(s1, Step(w));
    assert s' == DataStep(s1, w);
    One(s1, Step(w));
    Onward(s0, s1, [Step(w)], s');
  }

  /** A reader is listed, a writer waits for it, and the reader goes. */
  lemma WriterWaits(n: nat, lasts: Duration, r: nat, w: nat) returns (s: RW)
    requires r < n && w < n && r != w
    ensures Reaches(Init(n, lasts), s) && Still(s) && |s.points| == n && s.lasts == lasts && s.readers == []
    ensures s.points[w].WrWait? && s.writer.Some? && s.writer.value.ends <= s.lock.now + lasts
    ensures forall q :: 0 <= q < n && q != w ==> s.points[q].Out?
  {
    var s0 := Init(n, lasts);
    assert Exec(s0, []) == s0;
    var s1 := ReaderComes(s0, s0, r);
    WriterComes(s0, s1, w);
    var s2 := WriterIn(s1, w);
    assert s1.readers == [0] && s2.points[w] == WrWait(1, lasts, false) && s2.points[r] == Reading(0, 0);
    hide KeyLock.Freed, Exec, Next;
    s := ReaderGoes(s0, s2, r);
    assert Without([0], 0) == [];
  }

  /** From the start two writers can both come to write inside leases that run: the first waits for a reader
      longer than its own lease, the second gets in, and the first is promoted all the same. */
  lemma TwoWriters(n: nat, lasts: Duration, r: nat, w: nat, v: nat)
    requires r < n && w < n && v < n && r != w && w != v && r != v
    ensures exists s :: Reaches(Init(n, lasts), s) && HoldsWrite(s, w) && HoldsWrite(s, v) && s.points[w].Writing? && s.points[v].Writing?
  {
    var s1 := WriterWaits(n, lasts, r, w);
    var s2 := WaitTooLong(Init(n, lasts), s1, w);
    var s3 := LatePromotion(Init(n, lasts), s2, w, v);
  }
}
