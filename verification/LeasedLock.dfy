/** The leased lock: one record that the cache drops when its lease ends, and any number of handles.

    A handle gets its lock by `Add` and gives it back by a `Get` and, if the record is its own, a
    `Remove`; anything may happen between the two. A handle that is never disposed takes no more steps. */
module LeasedLock {
  import opened Cache

  datatype Phase =
    | Made                   // the acquisition exists, `Add` is next
    | Refused                // `Add` found a record
    | Held                   // the handle is out
    | Matched                // Dispose: `Get` saw the handle's own record, `Remove` is next
    | Disposed

  /** `since`: when the handle's `Add` went through. */
  datatype Handle = Handle(since: nat, phase: Phase)

  datatype Record = Record(owner: nat, ends: nat)

  /** Handle `h` is `handles[h]`; the index is its ownership id. */
  datatype Lock = Lock(now: nat, lease: Duration, record: Option<Record>, handles: seq<Handle>)

  datatype Event =
    | Make
    | Add(h: nat)
    | Get(h: nat)             // the first call of Dispose; a handle may be disposed again
    | Remove(h: nat)
    | Tick(d: nat)

  function Init(lease: Duration): Lock {
    Lock(0, lease, None, [])
  }

  predicate In(s: Lock, h: nat, phase: Phase) {
    h < |s.handles| && s.handles[h].phase == phase
  }

  function Set(s: Lock, h: nat, phase: Phase): Lock
    requires h < |s.handles|
  {
    s.(handles := s.handles[h := s.handles[h].(phase := phase)])
  }

  function Next(s: Lock, e: Event): Lock {
    match e
    case Make => s.(handles := s.handles + [Handle(0, Made)])
    case Add(h) =>
      if !In(s, h, Made) then s
      else if s.record.Some? then Set(s, h, Refused)
      else s.(record := Some(Record(h, s.now + s.lease)), handles := s.handles[h := Handle(s.now, Held)])
    case Get(h) =>
      if !In(s, h, Held) && !In(s, h, Disposed) then s
      else Set(s, h, if s.record.Some? && s.record.value.owner == h then Matched else Disposed)
    case Remove(h) => if In(s, h, Matched) then Set(s, h, Disposed).(record := None) else s
    case Tick(d) =>
      s.(now := s.now + d, record := if s.record.Some? && s.record.value.ends <= s.now + d then None else s.record)
  }

  function Exec(s: Lock, es: seq<Event>): Lock
    decreases |es|
  {
    if es == [] then s else Exec(Next(s, es[0]), es[1..])
  }

  /** The handle has not been disposed, and its `Add` was less than the lease ago. */
  predicate Live(s: Lock, h: nat) {
    (In(s, h, Held) || In(s, h, Matched)) && s.now < s.handles[h].since + s.lease
  }

  /** A `Remove` of a handle whose lease has ended. */
  predicate Late(s: Lock, e: Event) {
    e.Remove? && In(s, e.h, Matched) && s.handles[e.h].since + s.lease <= s.now
  }

  /** Every Dispose of the run finishes its `Get` and `Remove` inside its own lease. */
  predicate InTime(s: Lock, es: seq<Event>)
    decreases |es|
  {
    es == [] || (!Late(s, es[0]) && InTime(Next(s, es[0]), es[1..]))
  }

  ghost predicate RecordOk(s: Lock) {
    s.record.Some? ==>
      var Record(h, ends) := s.record.value;
      h < |s.handles| && (s.handles[h].phase.Held? || s.handles[h].phase.Matched?)
      && s.handles[h].since <= s.now < ends == s.handles[h].since + s.lease
  }

  ghost predicate Inv(s: Lock) {
    RecordOk(s) && forall h: nat :: Live(s, h) ==> s.record.Some? && s.record.value.owner == h
  }

  lemma WasLive(s: Lock, e: Event, h: nat)
    requires RecordOk(s) && Live(Next(s, e), h) && e != Add(h)
    ensures Live(s, h)
  {
  }

  lemma NextInv(s: Lock, e: Event)
    requires Inv(s) && !Late(s, e)
    ensures Inv(Next(s, e))
  {
    var s' := Next(s, e);
    if s.record.Some? {
      assert Live(s, s.record.value.owner);
      assert s'.record == s.record ==> Live(s', s.record.value.owner);
    }
    if e.Remove? && In(s, e.h, Matched) {
      assert Live(s, e.h);
    }
    forall h: nat | Live(s', h) ensures s'.record.Some? && s'.record.value.owner == h {
      if !(e.Add? && e.h == h) {
        WasLive(s, e, h);
      }
    }
  }

  lemma {:induction false} ExecInv(s: Lock, es: seq<Event>)
    requires Inv(s) && InTime(s, es)
    ensures Inv(Exec(s, es))
    decreases |es|
  {
    if es != [] {
      NextInv(s, es[0]);
      ExecInv(Next(s, es[0]), es[1..]);
    }
  }

  lemma {:induction false} LeaseStays(s: Lock, es: seq<Event>)
    ensures Exec(s, es).lease == s.lease
    decreases |es|
  {
    if es != [] {
      LeaseStays(Next(s, es[0]), es[1..]);
    }
  }

  /** An undisposed handle keeps its lock for its whole lease: as long as its `Add` was less than the lease ago, its own
      record stands. */
  lemma {:induction false} HeldForTheWholeLease(lease: Duration, es: seq<Event>, h: nat)
    requires InTime(Init(lease), es)
    ensures var s := Exec(Init(lease), es);
      (In(s, h, Held) || In(s, h, Matched)) && s.now < s.handles[h].since + lease ==>
        s.record == Some(Record(h, s.handles[h].since + lease))
  {
    ExecInv(Init(lease), es);
    LeaseStays(Init(lease), es);
    var s := Exec(Init(lease), es);
    if (In(s, h, Held) || In(s, h, Matched)) && s.now < s.handles[h].since + lease {
      assert Live(s, h);
    }
  }

  /** At every moment at most one undisposed handle has a lease that runs. */
  lemma {:induction false} OneHolder(lease: Duration, es: seq<Event>, g: nat, h: nat)
    requires InTime(Init(lease), es)
    ensures Live(Exec(Init(lease), es), g) && Live(Exec(Init(lease), es), h) ==> g == h
  {
    ExecInv(Init(lease), es);
  }

  /** A Dispose inside its own lease removes its own record, not another's. */
  lemma {:induction false} RemovesItsOwn(lease: Duration, es: seq<Event>, h: nat)
    requires InTime(Init(lease), es)
    ensures var s := Exec(Init(lease), es);
      In(s, h, Matched) && !Late(s, Remove(h)) ==> s.record == Some(Record(h, s.handles[h].since + s.lease))
  {
    ExecInv(Init(lease), es);
    var s := Exec(Init(lease), es);
    if In(s, h, Matched) && !Late(s, Remove(h)) {
      assert Live(s, h);
    }
  }

  /** A step breaks the exclusion exactly when it is a late `Remove` that finds another's record. */
  lemma BrokenExactlyByStealing(s: Lock, e: Event)
    requires Inv(s)
    ensures !Inv(Next(s, e)) <==> Late(s, e) && s.record.Some?
  {
    if !Late(s, e) {
      NextInv(s, e);
    } else if s.record.None? {
      forall h: nat | Live(Next(s, e), h) ensures false {
        assert Live(s, h);
      }
    } else {
      var g := s.record.value.owner;
      assert Live(s, g) && g != e.h;
      assert Live(Next(s, e), g);
    }
  }

  lemma Unroll(s: Lock, e: Event, es: seq<Event>)
    ensures Exec(s, [e] + es) == Exec(Next(s, e), es)
  {
    assert ([e] + es)[1..] == es;
  }

  lemma LateSteps(s: Lock, h: nat)
    requires In(s, h, Matched) && s.record.None?
    ensures var n := |s.handles|;
      var s' := Next(Next(Next(Next(Next(s, Make), Add(n)), Remove(h)), Make), Add(n + 1));
      Live(s', n) && Live(s', n + 1)
  {
    var n := |s.handles|;
    var s2 := Next(Next(s, Make), Add(n));
    assert Live(s2, n) && In(s2, h, Matched);
    var s4 := Next(Next(s2, Remove(h)), Make);
    assert Live(s4, n) && In(s4, n + 1, Made) && s4.record.None?;
  }

  /** Whenever a Dispose is between its calls when its lease ends, a run exists in which it removes the
      record of the next holder and a third handle joins that holder. */
  lemma LateDisposeLetsTwoIn(s: Lock, h: nat)
    requires In(s, h, Matched) && s.record.None?
    ensures var n := |s.handles|;
      var s' := Exec(s, [Make] + ([Add(n)] + ([Remove(h)] + ([Make] + ([Add(n + 1)] + [])))));
      Live(s', n) && Live(s', n + 1)
  {
    LateSteps(s, h);
    hide Next, Live, Exec;
    var n := |s.handles|;
    var s1 := Next(s, Make);
    var s2 := Next(s1, Add(n));
    var s3 := Next(s2, Remove(h));
    var s4 := Next(s3, Make);
    var late: seq<Event> := [Make] + ([Add(n + 1)] + []);
    Unroll(s, Make, [Add(n)] + ([Remove(h)] + late));
    Unroll(s1, Add(n), [Remove(h)] + late);
    Unroll(s2, Remove(h), late);
    Unroll(s3, Make, [Add(n + 1)] + []);
    Unroll(s4, Add(n + 1), []);
    ExecNone(Next(s4, Add(n + 1)));
  }

  lemma ExecNone(s: Lock)
    ensures Exec(s, []) == s
  {
  }

  /** An undisturbed Dispose gives the lock back, so that the next handle gets it at once; of a record that is not its own
      it leaves all as it was. */
  lemma DisposeFrees(s: Lock, h: nat)
    requires In(s, h, Held)
    ensures var s' := Exec(s, [Get(h)] + ([Remove(h)] + [])); var n := |s.handles|;
      && In(s', h, Disposed)
      && (if s.record.Some? && s.record.value.owner == h
          then s'.record.None? && Live(Exec(s', [Make] + ([Add(n)] + [])), n) else s'.record == s.record)
  {
    var n := |s.handles|;
    var s1 := Next(s, Get(h));
    var s2 := Next(s1, Remove(h));
    var s3 := Next(s2, Make);
    Unroll(s, Get(h), [Remove(h)] + []);
    Unroll(s1, Remove(h), []);
    ExecNone(s2);
    Unroll(s2, Make, [Add(n)] + []);
    Unroll(s3, Add(n), []);
    ExecNone(Next(s3, Add(n)));
  }

  /** A holder that is never disposed keeps the lock no longer than its lease. */
  lemma LeaseEnds(s: Lock, d: nat)
    requires Inv(s) && d >= s.lease
    ensures Next(s, Tick(d)).record.None? && forall h: nat :: !Live(Next(s, Tick(d)), h)
  {
    forall h: nat ensures !Live(Next(s, Tick(d)), h) {
      if Live(Next(s, Tick(d)), h) {
        assert Live(s, h);
        assert false;
      }
    }
  }
}
