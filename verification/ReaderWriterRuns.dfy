/** What every run of the reader-writer lock guarantees, and exactly when two writers can meet. */
module ReaderWriterRuns {
  import opened Cache
  import opened ReaderWriter
  import KeyLock

  // ---- Writers ----

  /** A client between the `Add` and the `Remove` of its writer record, whose lease runs. */
  predicate HoldsWrite(s: RW, p: nat) {
    p < |s.points| && WritesOrWill(s.points[p]) && s.lock.now < s.points[p].ends
  }

  /** Whoever holds the write side by its own clock has its record standing. */
  predicate Exclusive(s: RW) {
    forall p: nat :: p < |s.points| && HoldsWrite(s, p) ==> Stands(s, s.points[p].mine)
  }

  lemma OnlyOne(s: RW, p: nat, q: nat)
    requires Inv(s) && Exclusive(s) && HoldsWrite(s, p) && HoldsWrite(s, q)
    ensures p == q
  {
    assert PointOk(s, p) && PointOk(s, q);
  }

  /** The writer of the record that stands. */
  lemma OwnerHolds(s: RW) returns (q: nat)
    requires Inv(s) && s.writer.Some?
    ensures HoldsWrite(s, q) && s.points[q].mine == s.writer.value.id
  {
    q := s.makers[s.writer.value.id];
    assert PointOk(s, q);
  }

  /** A client about to write or remove the writer record, while another's record stands. */
  predicate Usurps(s: RW, e: Event) {
    && e.Step? && Alive(s, e.p)
    && (s.points[e.p].WrPromote? || s.points[e.p].WrGiveUp? || s.points[e.p].WrEndRemove?)
    && s.writer.Some? && s.writer.value.id != s.points[e.p].mine
  }

  lemma UsurpersBreak(s: RW, e: Event)
    requires Inv(s) && Usurps(s, e)
    ensures !Exclusive(Next(s, e))
  {
    var q := OwnerHolds(s);
    assert HoldsWrite(Next(s, e), q) && !Stands(Next(s, e), s.points[q].mine);
  }

  lemma ReaderFrame(s: RW, p: nat)
    requires p < |s.points|
    ensures |ReaderStep(s, p).points| == |s.points| && ReaderStep(s, p).points == s.points[p := ReaderStep(s, p).points[p]]
    ensures ReaderStep(s, p).lock == s.lock || ReaderStep(s, p).lock == KeyLock.Next(s.lock, KeyLock.BeginUnlock(p))
    ensures ReaderStep(s, p).writer == s.writer
  {
  }

  lemma WriterFrame(s: RW, p: nat)
    requires p < |s.points|
    ensures |WriterStep(s, p).points| == |s.points| && WriterStep(s, p).points == s.points[p := WriterStep(s, p).points[p]]
    ensures WriterStep(s, p).lock == s.lock || WriterStep(s, p).lock == KeyLock.Next(s.lock, KeyLock.BeginUnlock(p))
  {
  }

  lemma LockFrame(lock: KeyLock.State, e: KeyLock.Event, p: nat, q: nat)
    requires e == KeyLock.BeginUnlock(p) || e == KeyLock.Call(p, true)
    ensures KeyLock.Next(lock, e).now == lock.now && |KeyLock.Next(lock, e).procs| == |lock.procs|
    ensures q < |lock.procs| && lock.procs[q].Crashed? ==> KeyLock.Next(lock, e).procs[q] == lock.procs[q]
  {
  }

  /** Nobody else changes its point, time stands still, and no crashed client comes back in a step of `p`. */
  lemma StepFrame(s: RW, p: nat, q: nat)
    requires Alive(s, p) && q < |s.points|
    ensures |StepOf(s, p).points| == |s.points| && StepOf(s, p).lock.now == s.lock.now
    ensures q != p ==> StepOf(s, p).points[q] == s.points[q]
    ensures Alive(StepOf(s, p), q) ==> Alive(s, q)
  {
    ReaderFrame(s, p);
    WriterFrame(s, p);
    LockFrame(s.lock, KeyLock.BeginUnlock(p), p, q);
    LockFrame(s.lock, KeyLock.Call(p, true), p, q);
    hide ReaderStep, WriterStep, KeyLock.Next, Enabled, Finish;
  }

  lemma StepKeepsExclusive(s: RW, p: nat)
    requires Inv(s) && Exclusive(s) && Alive(s, p) && !Usurps(s, Step(p))
    ensures Exclusive(StepOf(s, p))
  {
    var s' := StepOf(s, p);
    assert PointOk(s, p);
    forall q: nat | q < |s'.points| && HoldsWrite(s', q) ensures Stands(s', s'.points[q].mine) {
      StepFrame(s, p, q);
      assert PointOk(s, q);
      if q != p {
        assert HoldsWrite(s, q);
        OtherRecordStays(s, p, s.points[q].mine);
      } else {
        OwnRecordStands(s, p);
      }
      hide StepOf;
    }
  }

  /** A step that does not usurp leaves another's record alone. */
  lemma OtherRecordStays(s: RW, p: nat, id: Id)
    requires Alive(s, p) && !Usurps(s, Step(p)) && Stands(s, id)
    requires WritesOrWill(s.points[p]) ==> s.points[p].mine != id
    ensures Stands(StepOf(s, p), id)
  {
  }

  lemma WriterOwn(s: RW, p: nat)
    requires p < |s.points| && !IsReader(s.points[p]) && (HoldsWrite(s, p) ==> Stands(s, s.points[p].mine))
    ensures var s' := WriterStep(s, p);
      |s'.points| == |s.points|
      && (WritesOrWill(s'.points[p]) && s.lock.now < s'.points[p].ends ==> Stands(s', s'.points[p].mine))
  {
  }

  lemma ReaderOwn(s: RW, p: nat)
    requires p < |s.points| && IsReader(s.points[p])
    ensures var s' := ReaderStep(s, p);
      |s'.points| == |s.points| && !WritesOrWill(s'.points[p])
      && (s.writer.Some? && !MayRead(s.points[p]) ==> !MayRead(s'.points[p]))
  {
  }

  lemma FinishOwn(pt: Point)
    ensures WritesOrWill(Finish(pt)) ==> WritesOrWill(pt) && Finish(pt).mine == pt.mine && Finish(pt).ends == pt.ends
    ensures MayRead(Finish(pt)) ==> MayRead(pt)
  {
  }

  lemma OwnRecordStands(s: RW, p: nat)
    requires Alive(s, p) && p < |s.points| && (HoldsWrite(s, p) ==> Stands(s, s.points[p].mine))
    requires |StepOf(s, p).points| == |s.points| && StepOf(s, p).lock.now == s.lock.now && HoldsWrite(StepOf(s, p), p)
    ensures Stands(StepOf(s, p), StepOf(s, p).points[p].mine)
  {
    FinishOwn(s.points[p]);
    if IsReader(s.points[p]) { ReaderOwn(s, p); } else { WriterOwn(s, p); }
    hide ReaderStep, WriterStep, KeyLock.Next, Finish, Enabled, WritesOrWill;
  }

  lemma WaitKeepsExclusive(s: RW, d: nat)
    requires Inv(s) && Exclusive(s)
    ensures Exclusive(Next(s, Wait(d)))
  {
    var s' := Next(s, Wait(d));
    KeyLock.Frame(s.lock, KeyLock.Tick(d), 0);
    forall q: nat | q < |s'.points| && HoldsWrite(s', q) ensures Stands(s', s'.points[q].mine) {
      assert HoldsWrite(s, q) && PointOk(s, q);
    }
  }

  lemma OthersKeepExclusive(s: RW, e: Event)
    requires Inv(s) && Exclusive(s) && !e.Step? && !e.Wait?
    ensures Exclusive(Next(s, e))
  {
    var s' := Next(s, e);
    assert s'.writer == s.writer && |s'.points| == |s.points|;
    if !e.Die? { assert s'.lock.now == s.lock.now; } else { KeyLock.Frame(s.lock, KeyLock.Crash(e.p), 0); }
    forall q: nat | q < |s'.points| && HoldsWrite(s', q) ensures Stands(s', s'.points[q].mine) {
      assert HoldsWrite(s, q) && s'.points[q].mine == s.points[q].mine;
    }
  }

  /** A step breaks writer exclusion exactly when a writer writes or removes the record while another's
      record stands. */
  lemma BrokenExactlyByUsurping(s: RW, e: Event)
    requires Inv(s) && Exclusive(s)
    ensures !Exclusive(Next(s, e)) <==> Usurps(s, e)
  {
    if Usurps(s, e) {
      UsurpersBreak(s, e);
    } else if e.Step? {
      if Alive(s, e.p) { StepKeepsExclusive(s, e.p); }
    } else if e.Wait? {
      WaitKeepsExclusive(s, e.d);
    } else {
      OthersKeepExclusive(s, e);
    }
  }

  /** Such a writer has let its own record lapse. */
  lemma UsurpersAreLate(s: RW, e: Event)
    requires Inv(s) && Exclusive(s) && Usurps(s, e)
    ensures s.points[e.p].ends <= s.lock.now
  {
    if s.lock.now < s.points[e.p].ends {
      assert HoldsWrite(s, e.p);
    }
  }

  /** A late promotion puts two writers inside leases that run. */
  lemma PromotionMakesTwo(s: RW, e: Event)
    requires Inv(s) && Usurps(s, e) && s.points[e.p].WrPromote?
    ensures exists q: nat :: q != e.p && HoldsWrite(Next(s, e), q) && HoldsWrite(Next(s, e), e.p)
  {
    var q := OwnerHolds(s);
    assert HoldsWrite(Next(s, e), q) && HoldsWrite(Next(s, e), e.p);
  }

  // ---- Runs in which writers are in time ----

  /** A writer on its way to a handle, or about to remove the record it just read as its own. */
  predicate Hurries(pt: Point) {
    pt.WrUnlock? || pt.WrWait? || pt.WrPromote? || pt.WrGiveUp? || pt.WrEndRemove?
  }

  /** No live writer that still counts on its record has let it lapse by `now`. */
  predicate WritersInTime(s: RW, now: nat) {
    forall p: nat :: p < |s.points| && Alive(s, p) && Hurries(s.points[p]) ==> now < s.points[p].ends
  }

  /** Writers wait, and dispose, inside their lease throughout the run. */
  predicate InTime(s: RW, es: seq<Event>)
    decreases |es|
  {
    es == [] || (WritersInTime(Next(s, es[0]), Next(s, es[0]).lock.now) && InTime(Next(s, es[0]), es[1..]))
  }

  predicate Timely(s: RW) {
    Exclusive(s) && WritersInTime(s, s.lock.now) && s.sawLate == {}
  }

  lemma TimelyWritersDoNotUsurp(s: RW, e: Event)
    requires Inv(s) && Timely(s)
    ensures !Usurps(s, e)
  {
    if e.Step? && Alive(s, e.p) && Hurries(s.points[e.p]) {
      assert HoldsWrite(s, e.p);
    }
  }

  lemma NobodySeesLate(s: RW, e: Event)
    requires Inv(s) && Timely(s)
    ensures Next(s, e).sawLate == {}
  {
    if e.Step? && Alive(s, e.p) && Hurries(s.points[e.p]) {
      assert HoldsWrite(s, e.p);
    }
  }

  lemma {:induction false} ExecTimely(s: RW, es: seq<Event>)
    requires Inv(s) && Timely(s) && InTime(s, es)
    ensures Inv(Exec(s, es)) && Timely(Exec(s, es))
    decreases |es|
  {
    if es != [] {
      NextInv(s, es[0]);
      TimelyWritersDoNotUsurp(s, es[0]);
      BrokenExactlyByUsurping(s, es[0]);
      NobodySeesLate(s, es[0]);
      hide Next, Inv;
      ExecTimely(Next(s, es[0]), es[1..]);
    }
  }

  lemma InitTimely(n: nat, lasts: Duration)
    ensures Inv(Init(n, lasts)) && Timely(Init(n, lasts))
  {
    InitInv(n, lasts);
  }

  /** In runs in which writers are in time two of them never coexist, waiting ones included. */
  lemma {:induction false} OneWriter(n: nat, lasts: Duration, es: seq<Event>, p: nat, q: nat)
    requires InTime(Init(n, lasts), es)
    ensures var s := Exec(Init(n, lasts), es);
      HoldsWrite(s, p) && HoldsWrite(s, q) ==> p == q
  {
    InitTimely(n, lasts);
    ExecTimely(Init(n, lasts), es);
    var s := Exec(Init(n, lasts), es);
    if HoldsWrite(s, p) && HoldsWrite(s, q) { OnlyOne(s, p, q); }
  }

  /** A writer holds a handle only if it saw the list empty: while its own record stood, if writers are in
      time; in any run, unless it saw it so only after the record had lapsed. */
  lemma {:induction false} WriterSawEmpty(n: nat, lasts: Duration, es: seq<Event>, p: nat)
    ensures var s := Exec(Init(n, lasts), es);
      p < |s.points| && s.points[p].Writing? ==> s.points[p].mine in s.sawEmpty || s.points[p].mine in s.sawLate
    ensures InTime(Init(n, lasts), es) ==> Exec(Init(n, lasts), es).sawLate == {}
  {
    InitTimely(n, lasts);
    ExecInv(Init(n, lasts), es);
    var s := Exec(Init(n, lasts), es);
    if p < |s.points| { assert PointOk(s, p); }
    if InTime(Init(n, lasts), es) { ExecTimely(Init(n, lasts), es); }
  }

  /** A look at the empty list counts as late exactly when the writer's own record is gone. */
  lemma LateExactlyWithoutRecord(s: RW, p: nat)
    requires Inv(s) && Alive(s, p) && s.points[p].WrWait? && s.points[p].mine !in s.sawLate
    ensures s.points[p].mine in Next(s, Step(p)).sawLate <==> s.readers == [] && !Stands(s, s.points[p].mine)
  {
  }

  // ---- Readers and the writer ----

  /** Seeing the list empty means just that: the writer's record stands, and no client is
      reading under a handle, though one may still be on its way. */
  lemma EmptyMeansNoHandle(s: RW, e: Event, id: Id, q: nat)
    requires Inv(s) && id !in s.sawEmpty && id in Next(s, e).sawEmpty
    ensures var s' := Next(s, e);
      Stands(s', id) && (q < |s'.points| ==> !s'.points[q].Reading?)
  {
    NextInv(s, e);
    var s' := Next(s, e);
    assert e.Step? && Alive(s, e.p) && Enabled(s, e.p) && (s.points[e.p].WrAdd? || s.points[e.p].WrWait?);
    assert s'.readers == [];
    if q < |s'.points| { assert PointOk(s', q); }
  }

  /** While a writer record stands, every reader pending or reading looked for a writer before
      a record came to stand there: one that looks later is turned away. */
  lemma {:induction false} LateReadersStayOut(n: nat, lasts: Duration, es: seq<Event>, q: nat)
    ensures var s := Exec(Init(n, lasts), es);
      s.writer.Some? && q < |s.points| && ReadsOrWill(s.points[q]) ==> s.points[q].seen < s.added
  {
    InitInv(n, lasts);
    ExecInv(Init(n, lasts), es);
    var s := Exec(Init(n, lasts), es);
    if q < |s.points| { assert PointOk(s, q); }
  }

  /** Past the check for a writer, up to the handle. */
  predicate MayRead(pt: Point) {
    pt.RdLock? || pt.RdRecord? || pt.RdInsert? || pt.RdUnlock? || pt.Reading?
  }

  /** No live client reads, or is past its check for a writer. */
  predicate NoReaders(s: RW) {
    forall q: nat :: q < |s.points| && Alive(s, q) ==> !MayRead(s.points[q])
  }

  lemma StepStaysOut(s: RW, p: nat, q: nat)
    requires Inv(s) && s.writer.Some? && NoReaders(s) && Alive(s, p) && q < |s.points|
    ensures |StepOf(s, p).points| == |s.points| && (Alive(StepOf(s, p), q) ==> !MayRead(StepOf(s, p).points[q]))
  {
    StepFrame(s, p, q);
    if q == p { OwnStepStaysOut(s, p); }
    hide StepOf, MayRead;
  }

  lemma OwnStepStaysOut(s: RW, p: nat)
    requires s.writer.Some? && Alive(s, p) && !MayRead(s.points[p])
    requires |StepOf(s, p).points| == |s.points|
    ensures !MayRead(StepOf(s, p).points[p])
  {
    FinishOwn(s.points[p]);
    if IsReader(s.points[p]) { ReaderOwn(s, p); }
    if !IsReader(s.points[p]) && Enabled(s, p) { WriterNotIn(s, p); }
    hide ReaderStep, WriterStep, KeyLock.Next, Finish, Enabled, MayRead;
  }

  lemma WriterNotIn(s: RW, p: nat)
    requires p < |s.points| && !IsReader(s.points[p])
    ensures |WriterStep(s, p).points| == |s.points| && !MayRead(WriterStep(s, p).points[p])
  {
  }

  /** Any other event of a client or of the clock. */
  lemma MoveStaysOut(s: RW, e: Event, q: nat)
    requires NoReaders(s) && q < |Next(s, e).points| && Alive(Next(s, e), q) && !e.Step?
    ensures !MayRead(Next(s, e).points[q])
  {
    if e.Die? {
      KeyLock.Frame(s.lock, KeyLock.Crash(e.p), q);
      KeyLock.StaysCrashed(s.lock, KeyLock.Crash(e.p), q);
    } else if e.Wait? {
      KeyLock.Frame(s.lock, KeyLock.Tick(e.d), q);
    }
    hide ReaderStep, WriterStep;
  }

  /** Once the earlier readers are gone, the writer is alone, for as long as a record stands. */
  lemma StaysAlone(s: RW, e: Event)
    requires Inv(s) && s.writer.Some? && NoReaders(s)
    ensures NoReaders(Next(s, e))
  {
    var s' := Next(s, e);
    if e.Step? && Alive(s, e.p) {
      assert s' == StepOf(s, e.p);
      forall q: nat | q < |s'.points| && Alive(s', q) ensures !MayRead(s'.points[q]) {
        StepFrame(s, e.p, q);
        StepStaysOut(s, e.p, q);
        hide StepOf, Next, MayRead, Inv;
      }
    } else {
      forall q: nat | q < |s'.points| && Alive(s', q) ensures !MayRead(s'.points[q]) {
        if e.Step? {
          assert s' == s;
        } else {
          MoveStaysOut(s, e, q);
        }
        hide StepOf, Next, MayRead, Inv;
      }
    }
  }

  /** A writer record stands before every event of the run. */
  ghost predicate StoodFor(s: RW, es: seq<Event>)
    decreases |es|
  {
    es == [] || (s.writer.Some? && StoodFor(Next(s, es[0]), es[1..]))
  }

  lemma {:induction false} AloneThroughout(s: RW, es: seq<Event>)
    requires Inv(s) && NoReaders(s) && StoodFor(s, es)
    ensures NoReaders(Exec(s, es))
    decreases |es|
  {
    if es != [] {
      NextInv(s, es[0]);
      StaysAlone(s, es[0]);
      hide Next, Inv, NoReaders;
      AloneThroughout(Next(s, es[0]), es[1..]);
    }
  }
}
