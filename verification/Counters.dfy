/** Batched counter deltas: several servers queue deltas for one counter, drain them into a sum and add
    the sum to the stored value under the counter's lock. */
module Counters {
  import opened Cache

  /** A delta, and how long the counter is to live after it, if that is limited. */
  datatype Delta = Delta(amount: int, expireIn: Option<nat>)

  datatype Flusher =
    | Waiting
    | Draining(sum: int, latest: Option<nat>, batch: seq<Delta>)
    | Storing(sum: int, latest: Option<nat>, batch: seq<Delta>)     // the guarded read-modify-write is next

  /** `stored` is 0 when the key is absent; `expiration` is that of the stored item. The rest keeps the books: `batch`
      has the changes a flusher drained, `last` those stored last since the item expired. */
  datatype Counter = Counter(stored: int, expiration: Option<nat>, pending: seq<seq<Delta>>, flushers: seq<Flusher>,
                             total: int, lost: int, expired: int, last: seq<Delta>)

  datatype Event =
    | Change(server: nat, delta: Delta)       // ChangeCounter
    | Begin(server: nat)                      // FlushOne finds the queue not empty
    | Take(server: nat)                       // TryDequeue
    | Store(server: nat, granted: bool)       // Execute; the sum is lost with the lock
    | Expire

  function Init(servers: nat): Counter {
    Counter(0, None, seq(servers, _ => []), seq(servers, _ => Waiting), 0, 0, 0, [])
  }

  predicate Shaped(s: Counter) {
    |s.pending| == |s.flushers|
  }

  function At(s: Counter, server: nat, f: Flusher): Counter
    requires server < |s.flushers|
  {
    s.(flushers := s.flushers[server := f])
  }

  function Latest(was: Option<nat>, d: Delta): Option<nat> {
    if d.expireIn.Some? then d.expireIn else was
  }

  function TakeOf(s: Counter, server: nat): Counter
    requires Shaped(s) && server < |s.flushers| && s.flushers[server].Draining?
  {
    var f, queue := s.flushers[server], s.pending[server];
    if queue == [] then
      At(s, server, if f.sum == 0 && f.latest.None? then Waiting else Storing(f.sum, f.latest, f.batch))
    else
      At(s, server, Draining(f.sum + queue[0].amount, Latest(f.latest, queue[0]), f.batch + [queue[0]])).(
        pending := s.pending[server := queue[1..]])
  }

  function StoreOf(s: Counter, server: nat, granted: bool): Counter
    requires server < |s.flushers| && s.flushers[server].Storing?
  {
    var f := s.flushers[server];
    if granted then At(s, server, Waiting).(stored := s.stored + f.sum, expiration := f.latest, last := f.batch)
    else At(s, server, Waiting).(lost := s.lost + f.sum)
  }

  function Next(s: Counter, e: Event): Counter
    requires Shaped(s)
  {
    match e
    case Change(server, d) =>
      if server < |s.pending|
      then s.(pending := s.pending[server := s.pending[server] + [d]], total := s.total + d.amount) else s
    case Begin(server) =>
      if server < |s.flushers| && s.flushers[server].Waiting? && s.pending[server] != []
      then At(s, server, Draining(0, None, [])) else s
    case Take(server) =>
      if server < |s.flushers| && s.flushers[server].Draining? then TakeOf(s, server) else s
    case Store(server, granted) =>
      if server < |s.flushers| && s.flushers[server].Storing? then StoreOf(s, server, granted) else s
    case Expire =>
      if s.expiration.Some? then s.(stored := 0, expiration := None, expired := s.expired + s.stored, last := []) else s
  }

  function Exec(s: Counter, es: seq<Event>): Counter
    requires Shaped(s)
    decreases |es|
  {
    if es == [] then s else Exec(Next(s, es[0]), es[1..])
  }

  // ---- Sums ----

  function Sum(queue: seq<Delta>): int {
    if queue == [] then 0 else queue[0].amount + Sum(queue[1..])
  }

  function SumAll(queues: seq<seq<Delta>>): int {
    if queues == [] then 0 else Sum(queues[0]) + SumAll(queues[1..])
  }

  function Hand(f: Flusher): int {
    if f.Waiting? then 0 else f.sum
  }

  function Hands(fs: seq<Flusher>): int {
    if fs == [] then 0 else Hand(fs[0]) + Hands(fs[1..])
  }

  lemma {:induction false} SumSnoc(queue: seq<Delta>, d: Delta)
    ensures Sum(queue + [d]) == Sum(queue) + d.amount
  {
    if queue == [] {
      assert queue + [d] == [d];
    } else {
      assert (queue + [d])[1..] == queue[1..] + [d];
      SumSnoc(queue[1..], d);
    }
  }

  lemma {:induction false} SumAllUpdate(queues: seq<seq<Delta>>, i: nat, queue: seq<Delta>)
    requires i < |queues|
    ensures SumAll(queues[i := queue]) == SumAll(queues) - Sum(queues[i]) + Sum(queue)
  {
    if i == 0 {
      assert queues[i := queue][1..] == queues[1..];
    } else {
      assert queues[i := queue][1..] == queues[1..][i - 1 := queue];
      SumAllUpdate(queues[1..], i - 1, queue);
    }
  }

  lemma {:induction false} HandsUpdate(fs: seq<Flusher>, i: nat, f: Flusher)
    requires i < |fs|
    ensures Hands(fs[i := f]) == Hands(fs) - Hand(fs[i]) + Hand(f)
  {
    if i == 0 {
      assert fs[i := f][1..] == fs[1..];
    } else {
      assert fs[i := f][1..] == fs[1..][i - 1 := f];
      HandsUpdate(fs[1..], i - 1, f);
    }
  }

  lemma {:induction false} AllZero(queues: seq<seq<Delta>>, fs: seq<Flusher>)
    requires |queues| == |fs|
    requires forall i :: 0 <= i < |queues| ==> queues[i] == [] && fs[i].Waiting?
    ensures SumAll(queues) == 0 && Hands(fs) == 0
  {
    if queues != [] {
      AllZero(queues[1..], fs[1..]);
    }
  }

  // ---- Conservation ----

  /** Every amount is stored, pending, in a flusher's hands, lost with a lock, or expired. */
  predicate Conserved(s: Counter) {
    Shaped(s) && s.stored + SumAll(s.pending) + Hands(s.flushers) + s.lost + s.expired == s.total
  }

  lemma TakeConserves(s: Counter, server: nat)
    requires Conserved(s) && server < |s.flushers| && s.flushers[server].Draining?
    ensures Conserved(TakeOf(s, server))
  {
    var f, queue := s.flushers[server], s.pending[server];
    if queue == [] {
      HandsUpdate(s.flushers, server, TakeOf(s, server).flushers[server]);
    } else {
      HandsUpdate(s.flushers, server, TakeOf(s, server).flushers[server]);
      SumAllUpdate(s.pending, server, queue[1..]);
    }
  }

  lemma NextConserves(s: Counter, e: Event)
    requires Conserved(s)
    ensures Conserved(Next(s, e))
  {
    match e
    case Change(server, d) =>
      if server < |s.pending| {
        SumSnoc(s.pending[server], d);
        SumAllUpdate(s.pending, server, s.pending[server] + [d]);
      }
    case Begin(server) =>
      if server < |s.flushers| && s.flushers[server].Waiting? {
        HandsUpdate(s.flushers, server, Draining(0, None, []));
      }
    case Take(server) =>
      if server < |s.flushers| && s.flushers[server].Draining? {
        TakeConserves(s, server);
      }
    case Store(server, granted) =>
      if server < |s.flushers| && s.flushers[server].Storing? {
        HandsUpdate(s.flushers, server, Waiting);
      }
    case Expire =>
  }

  lemma {:induction false} ExecConserves(s: Counter, es: seq<Event>)
    requires Conserved(s)
    ensures Conserved(Exec(s, es))
    decreases |es|
  {
    if es != [] {
      NextConserves(s, es[0]);
      hide Next;
      ExecConserves(Next(s, es[0]), es[1..]);
    }
  }

  /** All the amounts of the run's changes. */
  function Amounts(servers: nat, es: seq<Event>): int {
    if es == [] then 0
    else (if es[0].Change? && es[0].server < servers then es[0].delta.amount else 0) + Amounts(servers, es[1..])
  }

  lemma {:induction false} TotalIs(s: Counter, es: seq<Event>)
    requires Shaped(s)
    ensures Exec(s, es).total == s.total + Amounts(|s.pending|, es)
    decreases |es|
  {
    if es != [] {
      TotalIs(Next(s, es[0]), es[1..]);
    }
  }

  predicate NoLimit(d: Delta) {
    d.expireIn.None?
  }

  /** No lock is lost, and no change limits the counter's life. */
  predicate Calm(es: seq<Event>) {
    forall i :: 0 <= i < |es| ==> (es[i].Store? ==> es[i].granted) && (es[i].Change? ==> NoLimit(es[i].delta))
  }

  predicate Unlimited(s: Counter) {
    && s.expiration.None? && s.lost == 0 && s.expired == 0
    && (forall i :: 0 <= i < |s.flushers| ==> s.flushers[i].Waiting? || s.flushers[i].latest.None?)
    && (forall i, k :: 0 <= i < |s.pending| && 0 <= k < |s.pending[i]| ==> NoLimit(s.pending[i][k]))
  }

  lemma NextUnlimited(s: Counter, e: Event)
    requires Shaped(s) && Unlimited(s) && Calm([e])
    ensures Unlimited(Next(s, e))
  {
    assert (e.Store? ==> e.granted) && (e.Change? ==> NoLimit(e.delta)) by {
      assert [e][0] == e;
    }
  }

  lemma {:induction false} ExecUnlimited(s: Counter, es: seq<Event>)
    requires Shaped(s) && Unlimited(s) && Calm(es)
    ensures Unlimited(Exec(s, es))
    decreases |es|
  {
    if es != [] {
      NextUnlimited(s, es[0]);
      hide Next, Unlimited;
      ExecUnlimited(Next(s, es[0]), es[1..]);
    }
  }

  /** For any number of servers and any batching: what is stored, pending and in the flushers' hands adds
      up to all the changes, zero sums that are never stored included. */
  lemma {:induction false} NothingLost(servers: nat, es: seq<Event>)
    requires Calm(es)
    ensures var s := Exec(Init(servers), es);
      s.stored + SumAll(s.pending) + Hands(s.flushers) == Amounts(servers, es)
  {
    var s0 := Init(servers);
    AllZero(s0.pending, s0.flushers);
    ExecConserves(s0, es);
    TotalIs(s0, es);
    ExecUnlimited(s0, es);
  }

  /** Once everything is flushed, the stored value is the sum of all changes, whatever the run; short only
      by the sums lost with a lock and the values that expired. */
  lemma {:induction false} FlushedIsExact(servers: nat, es: seq<Event>)
    ensures var s := Exec(Init(servers), es);
      (forall i :: 0 <= i < |s.pending| ==> s.pending[i] == [] && i < |s.flushers| && s.flushers[i].Waiting?) ==>
        s.stored == Amounts(servers, es) - s.lost - s.expired
  {
    var s0 := Init(servers);
    AllZero(s0.pending, s0.flushers);
    ExecConserves(s0, es);
    TotalIs(s0, es);
    var s := Exec(s0, es);
    if forall i :: 0 <= i < |s.pending| ==> s.pending[i] == [] && i < |s.flushers| && s.flushers[i].Waiting? {
      AllZero(s.pending, s.flushers);
    }
  }

  // ---- The expiration ----

  function LatestOf(queue: seq<Delta>, latest: Option<nat>): Option<nat>
    decreases |queue|
  {
    if queue == [] then latest else LatestOf(queue[1..], Latest(latest, queue[0]))
  }

  /** In one batch the last limit wins; without any, the earlier one stays. */
  lemma {:induction false} LatestIsTheLastLimit(queue: seq<Delta>, latest: Option<nat>)
    ensures (forall i :: 0 <= i < |queue| ==> NoLimit(queue[i])) ==> LatestOf(queue, latest) == latest
    ensures forall k :: 0 <= k < |queue| && !NoLimit(queue[k]) && (forall i :: k < i < |queue| ==> NoLimit(queue[i])) ==>
      LatestOf(queue, latest) == queue[k].expireIn
    decreases |queue|
  {
    if queue != [] {
      LatestIsTheLastLimit(queue[1..], Latest(latest, queue[0]));
      assert forall i :: 0 < i < |queue| ==> queue[i] == queue[1..][i - 1];
    }
  }

  lemma {:induction false} LatestConcat(a: seq<Delta>, b: seq<Delta>, latest: Option<nat>)
    ensures LatestOf(a + b, latest) == LatestOf(b, LatestOf(a, latest))
    decreases |a|
  {
    if a == [] {
      assert a + b == b;
    } else {
      assert (a + b)[1..] == a[1..] + b;
      LatestConcat(a[1..], b, Latest(latest, a[0]));
    }
  }

  lemma {:induction false} SumConcat(a: seq<Delta>, b: seq<Delta>)
    ensures Sum(a + b) == Sum(a) + Sum(b)
  {
    if a == [] {
      assert a + b == b;
    } else {
      assert (a + b)[1..] == a[1..] + b;
      SumConcat(a[1..], b);
    }
  }

  /** A flusher's sum and limit are those of its batch; the stored expiration is that of the batch stored last. */
  predicate BatchesOk(s: Counter) {
    && (forall i :: 0 <= i < |s.flushers| && !s.flushers[i].Waiting? ==>
          s.flushers[i].sum == Sum(s.flushers[i].batch) && s.flushers[i].latest == LatestOf(s.flushers[i].batch, None))
    && s.expiration == LatestOf(s.last, None)
  }

  lemma NextBatchesOk(s: Counter, e: Event)
    requires Shaped(s) && BatchesOk(s)
    ensures BatchesOk(Next(s, e))
  {
    if e.Take? && e.server < |s.flushers| && s.flushers[e.server].Draining? && s.pending[e.server] != [] {
      var d := s.pending[e.server][0];
      SumSnoc(s.flushers[e.server].batch, d);
      LatestConcat(s.flushers[e.server].batch, [d], None);
      hide Sum;
    }
  }

  lemma {:induction false} ExecBatchesOk(s: Counter, es: seq<Event>)
    requires Shaped(s) && BatchesOk(s)
    ensures BatchesOk(Exec(s, es))
    decreases |es|
  {
    if es != [] {
      NextBatchesOk(s, es[0]);
      hide Next, BatchesOk;
      ExecBatchesOk(Next(s, es[0]), es[1..]);
    }
  }

  /** In every run the stored counter has an expiration if and only if the batch stored last holds a change with one;
      it is that of the last such change of that batch. Limits in earlier batches are forgotten. */
  lemma {:induction false} OnlyTheLastBatchLimits(servers: nat, es: seq<Event>)
    ensures var s := Exec(Init(servers), es);
      && (s.expiration.Some? <==> exists k :: 0 <= k < |s.last| && !NoLimit(s.last[k]))
      && (forall k :: 0 <= k < |s.last| && !NoLimit(s.last[k]) && (forall i :: k < i < |s.last| ==> NoLimit(s.last[i])) ==>
            s.expiration == s.last[k].expireIn)
  {
    ExecBatchesOk(Init(servers), es);
    var last := Exec(Init(servers), es).last;
    LatestIsTheLastLimit(last, None);
    if exists k :: 0 <= k < |last| && !NoLimit(last[k]) {
      var k := LastLimited(last, |last|);
    }
  }

  lemma {:induction false} LastLimited(queue: seq<Delta>, n: nat) returns (k: nat)
    requires n <= |queue| && exists k :: 0 <= k < n && !NoLimit(queue[k])
    ensures k < n && !NoLimit(queue[k]) && forall i :: k < i < n ==> NoLimit(queue[i])
  {
    if NoLimit(queue[n - 1]) {
      k := LastLimited(queue, n - 1);
    } else {
      k := n - 1;
    }
  }

  /** A stored value and its expiration. */
  datatype Item = Item(value: int, expiration: Option<nat>)

  /** What one flush of a batch leaves: one that cancels out and sets no limit is not stored. */
  function Flushed(item: Item, batch: seq<Delta>): Item {
    if Sum(batch) == 0 && LatestOf(batch, None).None? then item
    else Item(item.value + Sum(batch), LatestOf(batch, None))
  }

  /** Two flushes and one leave the same value always; the same expiration unless the second batch is stored without a
      limit, and the first has one, or the two cancel out and an older limit stands. */
  lemma BatchingSparesTheValue(item: Item, x: seq<Delta>, y: seq<Delta>)
    ensures Flushed(Flushed(item, x), y).value == Flushed(item, x + y).value
    ensures Flushed(Flushed(item, x), y) == Flushed(item, x + y) <==>
      !(Sum(y) != 0 && LatestOf(y, None).None? &&
        (LatestOf(x, None).Some? || (Sum(x) + Sum(y) == 0 && item.expiration.Some?)))
  {
    SumConcat(x, y);
    LatestConcat(x, y, None);
    LatestFrom(y, LatestOf(x, None));
  }

  /** The stored value goes at an expiry if and only if its item has an expiration; nothing that waits or is in hand goes. */
  lemma ExpiresExactlyWithALimit(s: Counter)
    requires Shaped(s)
    ensures var s' := Next(s, Expire);
      && s'.pending == s.pending && s'.flushers == s.flushers
      && Item(s'.stored, s'.expiration) == (if s.expiration.Some? then Item(0, None) else Item(s.stored, None))
      && s'.stored + s'.expired == s.stored + s.expired
  {
  }

  // ---- One flush alone ----

  /** `k` dequeues of one server. */
  function Takes(server: nat, k: nat): seq<Event> {
    if k == 0 then [] else [Take(server)] + Takes(server, k - 1)
  }

  lemma First(s: Counter, e: Event, es: seq<Event>)
    requires Shaped(s)
    ensures Exec(s, [e] + es) == Exec(Next(s, e), es)
  {
    assert ([e] + es)[1..] == es;
    hide Next;
  }

  lemma {:induction false} ExecConcat(s: Counter, a: seq<Event>, b: seq<Event>)
    requires Shaped(s)
    ensures Shaped(Exec(s, a)) && Exec(s, a + b) == Exec(Exec(s, a), b)
    decreases |a|
  {
    if a == [] {
      assert a + b == b;
    } else {
      assert (a + b)[1..] == a[1..] + b;
      assert Shaped(Next(s, a[0]));
      hide Next;
      ExecConcat(Next(s, a[0]), a[1..], b);
    }
  }

  /** The state of a flusher that has drained its server's queue. */
  function Drained(s: Counter, server: nat): Counter
    requires Shaped(s) && server < |s.flushers| && s.flushers[server].Draining?
  {
    var f, queue := s.flushers[server], s.pending[server];
    At(s, server, Draining(f.sum + Sum(queue), LatestOf(queue, f.latest), f.batch + queue)).(pending := s.pending[server := []])
  }

  lemma {:induction false} TakesDrain(s: Counter, server: nat)
    requires Shaped(s) && server < |s.flushers| && s.flushers[server].Draining?
    ensures Exec(s, Takes(server, |s.pending[server]|)) == Drained(s, server)
    decreases |s.pending[server]|
  {
    var f, queue := s.flushers[server], s.pending[server];
    if queue == [] {
      assert f.batch + queue == f.batch && Drained(s, server).flushers == s.flushers && Drained(s, server).pending == s.pending;
    } else {
      var s1 := TakeOf(s, server);
      First(s, Take(server), Takes(server, |queue| - 1));
      TakesDrain(s1, server);
      assert f.batch + [queue[0]] + queue[1..] == f.batch + queue;
      assert Drained(s1, server).flushers == Drained(s, server).flushers && Drained(s1, server).pending == Drained(s, server).pending;
    }
  }

  /** An undisturbed flush of a server with changes pending drains them all and leaves the item of one flush; or, if it
      loses the lock, loses their sum. No other server's changes are touched. */
  lemma FlushAlone(s: Counter, server: nat, granted: bool) returns (es: seq<Event>)
    requires Shaped(s) && server < |s.flushers| && s.flushers[server].Waiting? && s.pending[server] != []
    ensures var s', queue := Exec(s, es), s.pending[server];
      var stores := Sum(queue) != 0 || LatestOf(queue, None).Some?;
      && s'.pending == s.pending[server := []] && s'.flushers == s.flushers && s'.total == s.total
      && Item(s'.stored, s'.expiration) ==
           (if granted then Flushed(Item(s.stored, s.expiration), queue) else Item(s.stored, s.expiration))
      && s'.lost == s.lost + (if stores && !granted then Sum(queue) else 0)
  {
    var queue := s.pending[server];
    var s1 := Next(s, Begin(server));
    TakesDrain(s1, server);
    var s2 := Drained(s1, server);
    var s3 := Next(s2, Take(server));
    var tail := [Take(server)] + ([Store(server, granted)] + []);
    es := [Begin(server)] + (Takes(server, |queue|) + tail);
    First(s, Begin(server), Takes(server, |queue|) + tail);
    ExecConcat(s1, Takes(server, |queue|), tail);
    First(s2, Take(server), [Store(server, granted)] + []);
    First(s3, Store(server, granted), []);
    var s4 := Next(s3, Store(server, granted));
    assert s4.flushers == s.flushers && s4.pending == s.pending[server := []];
    hide Exec, Takes, Sum, LatestOf;
    assert Exec(s, es) == Exec(s4, []);
    ExecEmpty(s4);
  }

  lemma ExecEmpty(s: Counter)
    requires Shaped(s)
    ensures Exec(s, []) == s
  {
  }

  lemma {:induction false} LatestFrom(queue: seq<Delta>, latest: Option<nat>)
    ensures LatestOf(queue, latest) == if LatestOf(queue, None).Some? then LatestOf(queue, None) else latest
    decreases |queue|
  {
    if queue != [] {
      LatestFrom(queue[1..], Latest(latest, queue[0]));
      LatestFrom(queue[1..], queue[0].expireIn);
    }
  }

  /** A change with a limit and one without: flushed apart the counter never expires, flushed together it does. */
  lemma BatchingDecidesTheExpiration(limit: nat)
    ensures var x, y := [Delta(1, Some(limit))], [Delta(1, None)];
      Flushed(Flushed(Item(0, None), x), y) == Item(2, None) && Flushed(Item(0, None), x + y) == Item(2, Some(limit))
  {
    var x, y := [Delta(1, Some(limit))], [Delta(1, None)];
    BatchingSparesTheValue(Item(0, None), x, y);
    LatestConcat(x, y, None);
    SumConcat(x, y);
  }

  // ---- The flusher as written ----

  class CounterFlusher {
    var pending: seq<Delta>
    var stored: int
    var expiration: Option<nat>

    constructor ()
      ensures pending == [] && stored == 0 && expiration == None
    {
      pending, stored, expiration := [], 0, None;
    }

    /** A batch that cancels out and sets no limit is not stored; `granted` is false when the lock is lost. */
    method FlushOne(granted: bool) returns (thrown: bool)
      modifies this
      ensures pending == []
      ensures thrown == (!granted && (Sum(old(pending)) != 0 || LatestOf(old(pending), None).Some?))
      ensures Item(stored, expiration) ==
        if thrown then old(Item(stored, expiration)) else Flushed(old(Item(stored, expiration)), old(pending))
    {
      thrown := false;
      if pending == [] { return; }
      var sum: int, latest: Option<nat> := 0, None;
      while pending != []
        invariant sum + Sum(pending) == Sum(old(pending)) && LatestOf(pending, latest) == LatestOf(old(pending), None)
        invariant stored == old(stored) && expiration == old(expiration)
        decreases |pending|
      {
        var entry := pending[0];
        pending := pending[1..];
        sum := sum + entry.amount;
        if entry.expireIn.Some? {
          latest := entry.expireIn;
        }
      }
      if sum == 0 && latest.None? { return; }
      if !granted { return true; }
      stored := stored + sum;
      expiration := latest;
    }
  }
}
