/** Wake-up signals: watchers add at most a hundred per queue and round, workers take them one by one and
    try to dequeue. */
module Backlog {
  import opened Cache

  const CAP: nat := 100

  /** `depths`: the jobs waiting in each queue; `signals`: one server's JobAvailable, oldest first. Its
      workers serve the queues of `subscribed`. */
  datatype Backlog = Backlog(depths: map<nat, nat>, signals: seq<nat>, subscribed: set<nat>)

  datatype Event =
    | Signal(q: nat)              // CheckAndSignal, one queue's part
    | Drain(q: nat)               // DrainBacklog: a signal for every job
    | Take(granted: bool)         // a worker takes the next signal; `granted`: TryDequeue got the head lock
    | Elsewhere(q: nat)           // another server's worker dequeues
    | Notify(q: nat)              // a topic message wakes a worker

  function Depth(s: Backlog, q: nat): nat {
    if q in s.depths then s.depths[q] else 0
  }

  function Min(a: nat, b: nat): nat {
    if a < b then a else b
  }

  /** `max(0, a)`. */
  function Positive(a: int): nat {
    if a > 0 then a else 0
  }

  function Repeat(q: nat, n: nat): (r: seq<nat>)
    ensures |r| == n && forall i :: 0 <= i < n ==> r[i] == q
  {
    seq(n, _ => q)
  }

  function Dequeue(s: Backlog, q: nat): Backlog {
    if Depth(s, q) > 0 then s.(depths := s.depths[q := Depth(s, q) - 1]) else s
  }

  function Next(s: Backlog, e: Event): Backlog {
    match e
    case Signal(q) => s.(signals := s.signals + Repeat(q, Min(Depth(s, q), CAP)))
    case Drain(q) => s.(signals := s.signals + Repeat(q, Depth(s, q)))
    case Take(granted) =>
      if s.signals == [] then s
      else
        var s' := s.(signals := s.signals[1..]);
        if granted && s.signals[0] in s.subscribed then Dequeue(s', s.signals[0]) else s'
    case Elsewhere(q) => Dequeue(s, q)
    case Notify(q) => s.(signals := s.signals + [q])
  }

  function Exec(s: Backlog, es: seq<Event>): Backlog
    decreases |es|
  {
    if es == [] then s else Exec(Next(s, es[0]), es[1..])
  }

  function Count(signals: seq<nat>, q: nat): nat {
    if signals == [] then 0 else (if signals[0] == q then 1 else 0) + Count(signals[1..], q)
  }

  lemma {:induction false} CountConcat(a: seq<nat>, b: seq<nat>, q: nat)
    ensures Count(a + b, q) == Count(a, q) + Count(b, q)
  {
    if a == [] {
      assert a + b == b;
    } else {
      assert (a + b)[1..] == a[1..] + b;
      CountConcat(a[1..], b, q);
    }
  }

  lemma {:induction false} CountRepeat(p: nat, n: nat, q: nat)
    ensures Count(Repeat(p, n), q) == if p == q then n else 0
  {
    if n > 0 {
      assert Repeat(p, n)[1..] == Repeat(p, n - 1);
      CountRepeat(p, n - 1, q);
    }
  }

  // ---- The jobs no signal stands for ----

  function Uncovered(s: Backlog, q: nat): nat {
    Positive(Depth(s, q) - Count(s.signals, q))
  }

  /** A signal for `q` that is taken without a dequeue, though a job may wait. */
  function Wasted(s: Backlog, e: Event, q: nat): nat {
    if e.Take? && s.signals != [] && s.signals[0] == q && !e.granted then 1 else 0
  }

  function AllWasted(s: Backlog, es: seq<Event>, q: nat): nat
    decreases |es|
  {
    if es == [] then 0 else Wasted(s, es[0], q) + AllWasted(Next(s, es[0]), es[1..], q)
  }

  function Rounds(es: seq<Event>, q: nat): nat {
    if es == [] then 0 else (if es[0] == Signal(q) then 1 else 0) + Rounds(es[1..], q)
  }

  lemma AddingSignals(s: Backlog, p: nat, n: nat, q: nat)
    ensures Uncovered(s.(signals := s.signals + Repeat(p, n)), q) ==
            if p == q then Positive(Depth(s, q) - Count(s.signals, q) - n) else Uncovered(s, q)
  {
    CountConcat(s.signals, Repeat(p, n), q);
    CountRepeat(p, n, q);
  }

  /** No step uncovers a job, but for a wasted signal; a round covers a hundred more. */
  lemma NextUncovers(s: Backlog, e: Event, q: nat)
    requires q in s.subscribed
    ensures Next(s, e).subscribed == s.subscribed
    ensures Uncovered(Next(s, e), q) <= Positive(Uncovered(s, q) - if e == Signal(q) then CAP else 0) + Wasted(s, e, q)
  {
    match e
    case Signal(p) => AddingSignals(s, p, Min(Depth(s, p), CAP), q);
    case Drain(p) => AddingSignals(s, p, Depth(s, p), q);
    case Notify(p) =>
      AddingSignals(s, p, 1, q);
      assert [p] == Repeat(p, 1);
    case Take(_) =>
    case Elsewhere(_) =>
  }

  lemma {:induction false} ExecUncovers(s: Backlog, es: seq<Event>, q: nat)
    requires q in s.subscribed
    ensures Uncovered(Exec(s, es), q) <= Positive(Uncovered(s, q) - Rounds(es, q) * CAP) + AllWasted(s, es, q)
    decreases |es|
  {
    if es != [] {
      NextUncovers(s, es[0], q);
      var s' := Next(s, es[0]);
      hide Next, Uncovered;
      ExecUncovers(s', es[1..], q);
    }
  }

  /** However signals, takes and other servers interleave: with `n` rounds and no signal left, at most
      `d - 100 n` jobs wait, plus one for every signal that was taken without the head lock. */
  lemma {:induction false} BacklogShrinks(s: Backlog, es: seq<Event>, q: nat)
    requires q in s.subscribed && Count(Exec(s, es).signals, q) == 0
    ensures Depth(Exec(s, es), q) <= Positive(Depth(s, q) - Rounds(es, q) * CAP) + AllWasted(s, es, q)
  {
    ExecUncovers(s, es, q);
  }

  /** So the queue is empty once there were as many rounds as hundreds of jobs, rounded up. */
  lemma {:induction false} BacklogDrains(s: Backlog, es: seq<Event>, q: nat)
    requires q in s.subscribed && Count(Exec(s, es).signals, q) == 0 && AllWasted(s, es, q) == 0
    requires Rounds(es, q) >= (Depth(s, q) + CAP - 1) / CAP
    ensures Depth(Exec(s, es), q) == 0
  {
    BacklogShrinks(s, es, q);
    assert (Depth(s, q) + CAP - 1) / CAP * CAP >= Depth(s, q);
  }

  lemma {:induction false} OneDrainIsEnough(s: Backlog, es: seq<Event>, q: nat)
    requires q in s.subscribed && es != [] && es[0] == Drain(q)
    requires Count(Exec(s, es).signals, q) == 0 && AllWasted(s, es, q) == 0
    ensures Depth(Exec(s, es), q) == 0
  {
    AddingSignals(s, q, Depth(s, q), q);
    ExecUncovers(Next(s, es[0]), es[1..], q);
  }

  // ---- What a step may take and add at most ----

  /** A queue gets shorter by one job at a step that dequeues it, and by none at any other; it gets at most a hundred
      signals in a round, and never more than it has jobs in a round or a drain. */
  lemma StepsAreBounded(s: Backlog, e: Event, q: nat)
    ensures var s' := Next(s, e);
      && Depth(s', q) == Depth(s, q) - (if Dequeues(s, e, q) then 1 else 0)
      && (e == Signal(q) ==> Count(s'.signals, q) == Count(s.signals, q) + Min(Depth(s, q), 100))
      && (e == Drain(q) ==> Count(s'.signals, q) == Count(s.signals, q) + Depth(s, q))
      && (e == Notify(q) ==> Count(s'.signals, q) == Count(s.signals, q) + 1)
      && (e.Take? && s.signals != [] && s.signals[0] == q ==> Count(s'.signals, q) == Count(s.signals, q) - 1)
      && ((e.Signal? || e.Drain? || e.Notify?) && e.q != q ==> Count(s'.signals, q) == Count(s.signals, q))
  {
    match e
    case Signal(p) => AddingCounts(s, p, Min(Depth(s, p), CAP), q);
    case Drain(p) => AddingCounts(s, p, Depth(s, p), q);
    case Notify(p) =>
      AddingCounts(s, p, 1, q);
      assert [p] == Repeat(p, 1);
    case Take(_) =>
    case Elsewhere(_) =>
  }

  lemma AddingCounts(s: Backlog, p: nat, n: nat, q: nat)
    ensures Count(s.signals + Repeat(p, n), q) == Count(s.signals, q) + if p == q then n else 0
  {
    CountConcat(s.signals, Repeat(p, n), q);
    CountRepeat(p, n, q);
  }

  /** A worker here takes a signal of a queue it serves, with the head lock; or another server's worker dequeues. */
  predicate Dequeues(s: Backlog, e: Event, q: nat) {
    Depth(s, q) > 0 &&
      (e == Elsewhere(q) || (e == Take(true) && s.signals != [] && s.signals[0] == q && q in s.subscribed))
  }

  // ---- Taking all signals ----

  function Takes(n: nat): (es: seq<Event>)
    ensures |es| == n
  {
    seq(n, _ => Take(true))
  }

  /** When workers take every signal, each queue they serve loses one job a signal until it is empty; signals
      beyond its depth, and those for other queues, change nothing. */
  lemma {:induction false} TakingAll(s: Backlog, q: nat)
    ensures var s' := Exec(s, Takes(|s.signals|));
      && s'.signals == []
      && Depth(s', q) == if q in s.subscribed then Uncovered(s, q) else Depth(s, q)
    decreases |s.signals|
  {
    if s.signals != [] {
      var s1 := Next(s, Take(true));
      assert Takes(|s.signals|)[1..] == Takes(|s1.signals|);
      TakingAll(s1, q);
    }
  }

  // ---- As written ----

  lemma {:induction false} ExecSnoc(s: Backlog, es: seq<Event>, e: Event)
    ensures Exec(s, es + [e]) == Next(Exec(s, es), e)
    decreases |es|
  {
    if es == [] {
      assert Exec(s, [e]) == Next(s, e);
      assert es + [e] == [e];
    } else {
      assert (es + [e])[1..] == es[1..] + [e];
      ExecSnoc(Next(s, es[0]), es[1..], e);
    }
  }

  /** A round over the registry. */
  function Round(registry: seq<nat>): (es: seq<Event>)
    ensures |es| == |registry|
  {
    seq(|registry|, i requires 0 <= i < |registry| => Signal(registry[i]))
  }

  /** Takes with and without the head lock. */
  function Taking(grants: seq<bool>): (es: seq<Event>)
    ensures |es| == |grants|
  {
    seq(|grants|, i requires 0 <= i < |grants| => Take(grants[i]))
  }

  class Storage {
    var depths: map<nat, nat>
    var signals: seq<nat>

    function State(subscribed: set<nat>): Backlog
      reads this
    {
      Backlog(depths, signals, subscribed)
    }

    method CheckAndSignal(registry: seq<nat>, ghost subscribed: set<nat>)
      modifies this`signals
      ensures State(subscribed) == Exec(old(State(subscribed)), Round(registry))
    {
      ghost var s0 := State(subscribed);
      for i := 0 to |registry|
        invariant depths == old(depths) && State(subscribed) == Exec(s0, Round(registry[..i]))
      {
        var q := registry[i];
        assert Round(registry[..i + 1]) == Round(registry[..i]) + [Signal(q)];
        ExecSnoc(s0, Round(registry[..i]), Signal(q));
        var depth := if q in depths then depths[q] else 0;
        var count := Min(depth, CAP);
        ghost var before := signals;
        for k := 0 to count
          invariant signals == before + Repeat(q, k) && depths == old(depths)
        {
          signals := signals + [q];
        }
      }
      assert registry[..|registry|] == registry;
    }

    method DrainBacklog(q: nat)
      modifies this`signals
      ensures forall subscribed :: State(subscribed) == Next(old(State(subscribed)), Drain(q))
    {
      var length := if q in depths then depths[q] else 0;
      ghost var before := signals;
      for k := 0 to length
        invariant signals == before + Repeat(q, k)
      {
        signals := signals + [q];
      }
    }

    /** Takes signals until one brings a job; `grants` says which of its `TryDequeue` calls get the head lock. `None` when
        the signals have run out and the worker would block. */
    method FetchNextJob(queues: set<nat>, grants: seq<bool>) returns (from: Option<nat>, taken: nat)
      requires |grants| >= |signals|
      modifies this
      ensures taken <= |old(signals)| && State(queues) == Exec(old(State(queues)), Taking(grants[..taken]))
      ensures from.None? ==> signals == []
      ensures from.Some? ==> taken > 0 && grants[taken - 1] && from.value == old(signals)[taken - 1]
      ensures from.Some? ==> (from.value in queues && from.value in old(depths) && old(depths)[from.value] > 0
        && depths == old(depths)[from.value := old(depths)[from.value] - 1])
      ensures forall i :: 0 <= i < (if from.Some? then taken - 1 else taken) ==>
        !(grants[i] && old(signals)[i] in queues && old(signals)[i] in old(depths) && old(depths)[old(signals)[i]] > 0)
    {
      taken := 0;
      ghost var s0 := State(queues);
      assert grants[..0] == [];
      while signals != []
        invariant depths == old(depths) && taken <= |old(signals)| && signals == old(signals)[taken..]
        invariant State(queues) == Exec(s0, Taking(grants[..taken]))
        invariant forall i :: 0 <= i < taken ==>
          !(grants[i] && old(signals)[i] in queues && old(signals)[i] in depths && depths[old(signals)[i]] > 0)
        decreases |signals|
      {
        var q := signals[0];
        assert Taking(grants[..taken + 1]) == Taking(grants[..taken]) + [Take(grants[taken])];
        ExecSnoc(s0, Taking(grants[..taken]), Take(grants[taken]));
        signals := signals[1..];
        taken := taken + 1;
        if q in queues {
          if grants[taken - 1] && q in depths && depths[q] > 0 {
            depths := depths[q := depths[q] - 1];
            return Some(q), taken;
          }
        }
      }
      from := None;
    }
  }
}
