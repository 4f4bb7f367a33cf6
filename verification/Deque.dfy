/** The double-ended queue that the cached queue stands for, and its laws. */
module Deque {
  import opened Cache

  type Job = nat

  /** What happened to a queue, and which client did it. */
  datatype Deed = PushBack(client: nat, job: Job) | PopFront(client: nat, job: Job) | PushFront(client: nat, job: Job)

  /** One deed; `None` if it is not possible on `q`. */
  function Do(q: seq<Job>, d: Deed): Option<seq<Job>> {
    match d
    case PushBack(_, j) => Some(q + [j])
    case PushFront(_, j) => Some([j] + q)
    case PopFront(_, j) => if q != [] && q[0] == j then Some(q[1..]) else None
  }

  /** The queue left by all deeds, starting from the empty one. */
  function DoAll(deeds: seq<Deed>): Option<seq<Job>> {
    if deeds == [] then Some([]) else
      var before := DoAll(deeds[..|deeds| - 1]);
      if before.None? then None else Do(before.value, deeds[|deeds| - 1])
  }

  function Enqueued(deeds: seq<Deed>): seq<Job> {
    if deeds == [] then [] else
      var d, before := deeds[|deeds| - 1], Enqueued(deeds[..|deeds| - 1]);
      if d.PushBack? then before + [d.job] else before
  }

  function Dequeued(deeds: seq<Deed>): seq<Job> {
    if deeds == [] then [] else
      var d, before := deeds[|deeds| - 1], Dequeued(deeds[..|deeds| - 1]);
      if d.PopFront? then before + [d.job] else before
  }

  function Requeued(deeds: seq<Deed>): seq<Job> {
    if deeds == [] then [] else
      var d, before := deeds[|deeds| - 1], Requeued(deeds[..|deeds| - 1]);
      if d.PushFront? then before + [d.job] else before
  }

  /** The jobs of `q` that are in `js`, in their order. */
  function Keep(q: seq<Job>, js: set<Job>): seq<Job> {
    if q == [] then [] else (if q[0] in js then [q[0]] else []) + Keep(q[1..], js)
  }

  lemma {:induction false} KeepConcat(a: seq<Job>, b: seq<Job>, js: set<Job>)
    ensures Keep(a + b, js) == Keep(a, js) + Keep(b, js)
  {
    if a == [] {
      assert a + b == b;
    } else {
      assert (a + b)[1..] == a[1..] + b;
      KeepConcat(a[1..], b, js);
      var first := if a[0] in js then [a[0]] else [];
      assert Keep(a + b, js) == first + Keep(a[1..] + b, js);
      assert Keep(a, js) == first + Keep(a[1..], js);
      hide Keep;
    }
  }

  /** First in, first out: jobs never pushed to the front leave in the order they came,
      and those still waiting are the rest, in that order. */
  lemma {:induction false} FirstInFirstOut(deeds: seq<Deed>, js: set<Job>)
    requires DoAll(deeds).Some? && Keep(Requeued(deeds), js) == []
    ensures Keep(Dequeued(deeds), js) + Keep(DoAll(deeds).value, js) == Keep(Enqueued(deeds), js)
    decreases |deeds|
  {
    if deeds != [] {
      var rest, d := deeds[..|deeds| - 1], deeds[|deeds| - 1];
      var q := DoAll(rest).value;
      if d.PushFront? { KeepConcat(Requeued(rest), [d.job], js); }
      FirstInFirstOut(rest, js);
      var now := DoAll(deeds).value;
      assert Some(now) == Do(q, d);
      if d.PushBack? {
        KeepConcat(q, [d.job], js);
        KeepConcat(Enqueued(rest), [d.job], js);
      } else if d.PushFront? {
        KeepConcat([d.job], q, js);
      } else {
        assert q == [d.job] + now;
        KeepConcat([d.job], now, js);
        KeepConcat(Dequeued(rest), [d.job], js);
      }
    }
  }

  /** What came in, from either end, is what left and what waits. */
  ghost predicate Balanced(deeds: seq<Deed>, q: seq<Job>) {
    multiset(Enqueued(deeds)) + multiset(Requeued(deeds)) == multiset(Dequeued(deeds)) + multiset(q)
  }

  lemma Snoc(q: seq<Job>, j: Job)
    ensures multiset(q + [j]) == multiset(q) + multiset{j} == multiset([j] + q)
  {
  }

  lemma AddBoth(a: multiset<Job>, b: multiset<Job>, c: multiset<Job>, d: multiset<Job>, j: Job)
    requires a + b == c + d
    ensures (a + multiset{j}) + b == c + (d + multiset{j}) == a + (b + multiset{j})
  {
    assert (a + multiset{j}) + b == (a + b) + multiset{j};
    assert c + (d + multiset{j}) == (c + d) + multiset{j};
    assert a + (b + multiset{j}) == (a + b) + multiset{j};
  }

  lemma BalanceStep(deeds: seq<Deed>, q: seq<Job>, d: Deed)
    requires Balanced(deeds, q) && Do(q, d).Some?
    ensures Balanced(deeds + [d], Do(q, d).value)
  {
    assert (deeds + [d])[..|deeds|] == deeds;
    var e, r, o := Enqueued(deeds), Requeued(deeds), Dequeued(deeds);
    Snoc(q, d.job);
    if d.PopFront? {
      var now := Do(q, d).value;
      assert q == [d.job] + now;
      Snoc(now, d.job);
      Snoc(o, d.job);
      assert (multiset(o) + multiset{d.job}) + multiset(now) == multiset(o) + multiset(q);
    } else {
      if d.PushBack? { Snoc(e, d.job); } else { Snoc(r, d.job); }
      AddBoth(multiset(e), multiset(r), multiset(o), multiset(q), d.job);
    }
  }

  /** No job is lost or doubled. */
  lemma {:induction false} NothingLost(deeds: seq<Deed>)
    requires DoAll(deeds).Some?
    ensures Balanced(deeds, DoAll(deeds).value)
    decreases |deeds|
  {
    if deeds != [] {
      var rest, d := deeds[..|deeds| - 1], deeds[|deeds| - 1];
      NothingLost(rest);
      BalanceStep(rest, DoAll(rest).value, d);
      assert deeds == rest + [d];
    }
  }

  /** A dequeue followed at once by the requeue of its job leaves the queue as it was. */
  lemma RequeueUndoesDequeue(q: seq<Job>, p: nat, j: Job)
    requires Do(q, PopFront(p, j)).Some?
    ensures Do(Do(q, PopFront(p, j)).value, PushFront(p, j)) == Some(q)
  {
    assert q == [j] + q[1..];
  }
}
