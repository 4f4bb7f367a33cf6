/** The lists of finished jobs: batches moved to the front, duplicates dropped, cut to a size, while the
    expiration manager trims between batches. */
module TerminalLists {
  import opened Lists

  type Job = int

  function ToFront(list: seq<Job>, j: Job): seq<Job> {
    [j] + Without(list, j)
  }

  function Prepend(list: seq<Job>, batch: seq<Job>): seq<Job>
    decreases |batch|
  {
    if batch == [] then list else Prepend(ToFront(list, batch[0]), batch[1..])
  }

  function Cut(list: seq<Job>, size: nat): seq<Job> {
    if |list| > size then list[..size] else list
  }

  /** What `FlushOne` stores; an empty batch leaves the list alone. */
  function Flushed(list: seq<Job>, batch: seq<Job>, size: nat): seq<Job> {
    if batch == [] then list else Cut(Prepend(list, batch), size)
  }

  predicate Distinct(list: seq<Job>) {
    forall i, k :: 0 <= i < k < |list| ==> list[i] != list[k]
  }

  // ---- Removing and cutting ----

  lemma {:induction false} WithoutDistinct(list: seq<Job>, j: Job)
    requires Distinct(list)
    ensures Distinct(Without(list, j))
  {
    if list != [] {
      WithoutDistinct(list[1..], j);
      WithoutIn(list[1..], j, list[0]);
    }
  }

  lemma {:induction false} WithoutLength(list: seq<Job>, j: Job)
    ensures |Without(list, j)| == |list| - multiset(list)[j]
  {
    if list != [] {
      WithoutLength(list[1..], j);
      assert list == [list[0]] + list[1..];
    }
  }

  lemma {:induction false} WithoutAll(list: seq<Job>, j: Job)
    ensures Without(list, j) == [] <==> forall i :: 0 <= i < |list| ==> list[i] == j
  {
    if list != [] {
      WithoutAll(list[1..], j);
      assert forall i :: 0 < i < |list| ==> list[i] == list[1..][i - 1];
    }
  }

  lemma CutsAgree(a: seq<Job>, b: seq<Job>, size: nat)
    ensures Cut(a, size) == Cut(a + b, size) <==> b == [] || |a| >= size
  {
    if b == [] {
      assert a + b == a;
    } else if |a| >= size {
      assert a[..size] == (a + b)[..size];
    } else {
      assert |Cut(a + b, size)| > |a|;
    }
  }

  predicate OnlyAfter(list: seq<Job>, size: nat, j: Job) {
    forall i :: size <= i < |list| ==> list[i] == j
  }

  /** Cutting the list before a job is moved to the front makes no difference exactly when the job stands
      at most once in what is kept, or nothing else is cut off. */
  lemma CutFirstMakesNoDifference(list: seq<Job>, j: Job, size: nat)
    requires size > 0
    ensures Cut(ToFront(Cut(list, size), j), size) == Cut(ToFront(list, j), size)
      <==> multiset(Cut(list, size))[j] <= 1 || OnlyAfter(list, size, j)
  {
    if |list| > size {
      KeptIsLongEnough(list[..size], j, size);
      SplitFront(list, j, size);
      OnlyAfterMeans(list, size, j);
      assert Cut(list, size) == list[..size];
      hide Without, ToFront, OnlyAfter;
      CutsAgree(ToFront(list[..size], j), Without(list[size..], j), size);
    }
  }

  lemma KeptIsLongEnough(kept: seq<Job>, j: Job, size: nat)
    requires |kept| == size
    ensures |ToFront(kept, j)| >= size <==> multiset(kept)[j] <= 1
  {
    WithoutLength(kept, j);
  }

  lemma SplitFront(list: seq<Job>, j: Job, size: nat)
    requires size <= |list|
    ensures ToFront(list, j) == ToFront(list[..size], j) + Without(list[size..], j)
  {
    assert list == list[..size] + list[size..];
    WithoutConcat(list[..size], list[size..], j);
  }

  lemma OnlyAfterMeans(list: seq<Job>, size: nat, j: Job)
    requires size <= |list|
    ensures OnlyAfter(list, size, j) <==> Without(list[size..], j) == []
  {
    var gone := list[size..];
    WithoutAll(gone, j);
    assert forall i :: size <= i < |list| ==> list[i] == gone[i - size];
    assert forall i :: 0 <= i < |gone| ==> gone[i] == list[size + i];
  }

  lemma {:induction false} CountDistinct(list: seq<Job>, j: Job)
    requires Distinct(list)
    ensures multiset(list)[j] <= 1
  {
    if list != [] {
      CountDistinct(list[1..], j);
      assert list == [list[0]] + list[1..];
      if list[0] == j {
        assert j !in multiset(list[1..]);
      }
    }
  }

  lemma CutToFront(list: seq<Job>, j: Job, size: nat)
    requires Distinct(list)
    ensures Cut(ToFront(Cut(list, size), j), size) == Cut(ToFront(list, j), size)
  {
    if size > 0 {
      CountDistinct(Cut(list, size), j);
      CutFirstMakesNoDifference(list, j, size);
    }
  }

  /** On a list without duplicates, cutting before a batch is the same as cutting after it. */
  lemma {:induction false} CutBeforeBatch(list: seq<Job>, batch: seq<Job>, size: nat)
    requires Distinct(list)
    ensures Cut(Prepend(Cut(list, size), batch), size) == Cut(Prepend(list, batch), size)
    decreases |batch|
  {
    if batch == [] {
    } else {
      var j, rest := batch[0], batch[1..];
      ToFrontDistinct(list, j);
      ToFrontDistinct(Cut(list, size), j);
      CutToFront(list, j, size);
      CutBeforeBatch(ToFront(list, j), rest, size);
      CutBeforeBatch(ToFront(Cut(list, size), j), rest, size);
    }
  }

  lemma ToFrontDistinct(list: seq<Job>, j: Job)
    requires Distinct(list)
    ensures Distinct(ToFront(list, j))
  {
    WithoutDistinct(list, j);
    WithoutIn(list, j, j);
  }

  lemma {:induction false} PrependDistinct(list: seq<Job>, batch: seq<Job>)
    requires Distinct(list)
    ensures Distinct(Prepend(list, batch))
    decreases |batch|
  {
    if batch != [] {
      ToFrontDistinct(list, batch[0]);
      PrependDistinct(ToFront(list, batch[0]), batch[1..]);
    }
  }

  lemma {:induction false} PrependConcat(list: seq<Job>, a: seq<Job>, b: seq<Job>)
    ensures Prepend(list, a + b) == Prepend(Prepend(list, a), b)
    decreases |a|
  {
    if a == [] {
      assert a + b == b;
    } else {
      assert (a + b)[1..] == a[1..] + b;
      PrependConcat(ToFront(list, a[0]), a[1..], b);
    }
  }

  // ---- The list in terms of what was tracked ----

  /** The place of the last occurrence of `j`. */
  function LastIndex(ids: seq<Job>, j: Job): int {
    if ids == [] then -1
    else if ids[|ids| - 1] == j then |ids| - 1
    else LastIndex(ids[..|ids| - 1], j)
  }

  lemma {:induction false} LastIndexIs(ids: seq<Job>, j: Job)
    ensures -1 <= LastIndex(ids, j) < |ids| && (LastIndex(ids, j) >= 0 <==> j in ids)
    ensures LastIndex(ids, j) >= 0 ==> ids[LastIndex(ids, j)] == j
    ensures forall i :: LastIndex(ids, j) < i < |ids| ==> ids[i] != j
  {
    if ids != [] && ids[|ids| - 1] != j {
      LastIndexIs(ids[..|ids| - 1], j);
      assert ids == ids[..|ids| - 1] + [ids[|ids| - 1]];
    }
  }

  /** `list` holds the jobs of `ids`, each once, the one tracked last in front. */
  ghost predicate MostRecentFirst(list: seq<Job>, ids: seq<Job>) {
    && (forall j :: j in list <==> j in ids)
    && (forall i, k :: 0 <= i < k < |list| ==> LastIndex(ids, list[i]) > LastIndex(ids, list[k]))
  }

  lemma {:induction false} WithoutKeepsOrder(list: seq<Job>, j: Job, ids: seq<Job>)
    requires forall i, k :: 0 <= i < k < |list| ==> LastIndex(ids, list[i]) > LastIndex(ids, list[k])
    ensures forall i, k :: 0 <= i < k < |Without(list, j)| ==> LastIndex(ids, Without(list, j)[i]) > LastIndex(ids, Without(list, j)[k])
  {
    if list != [] {
      WithoutKeepsOrder(list[1..], j, ids);
      var rest := Without(list[1..], j);
      forall k | 0 <= k < |rest| ensures LastIndex(ids, list[0]) > LastIndex(ids, rest[k]) {
        WithoutIn(list[1..], j, rest[k]);
        var i :| 0 <= i < |list[1..]| && list[1..][i] == rest[k];
      }
    }
  }

  lemma ToFrontIsMostRecent(list: seq<Job>, ids: seq<Job>, j: Job)
    requires MostRecentFirst(list, ids)
    ensures MostRecentFirst(ToFront(list, j), ids + [j])
  {
    var ids', list' := ids + [j], ToFront(list, j);
    assert ids'[..|ids|] == ids;
    WithoutKeepsOrder(list, j, ids);
    forall x ensures x in list' <==> x in ids' {
      WithoutIn(list, j, x);
    }
    forall i, k | 0 <= i < k < |list'| ensures LastIndex(ids', list'[i]) > LastIndex(ids', list'[k]) {
      var rest := Without(list, j);
      WithoutIn(list, j, rest[k - 1]);
      LastIndexIs(ids, list'[k]);
      if i > 0 {
        WithoutIn(list, j, rest[i - 1]);
      }
    }
  }

  lemma {:induction false} PrependIsMostRecent(list: seq<Job>, ids: seq<Job>, batch: seq<Job>)
    requires MostRecentFirst(list, ids)
    ensures MostRecentFirst(Prepend(list, batch), ids + batch)
    decreases |batch|
  {
    if batch == [] {
      assert ids + batch == ids;
    } else {
      ToFrontIsMostRecent(list, ids, batch[0]);
      PrependIsMostRecent(ToFront(list, batch[0]), ids + [batch[0]], batch[1..]);
      assert ids + [batch[0]] + batch[1..] == ids + batch;
    }
  }

  /** There is only one such list. */
  lemma {:induction false} MostRecentIsUnique(a: seq<Job>, b: seq<Job>, ids: seq<Job>)
    requires MostRecentFirst(a, ids) && MostRecentFirst(b, ids)
    ensures a == b
  {
    SameFrom(a, b, ids, 0);
  }

  lemma {:induction false} SameFrom(a: seq<Job>, b: seq<Job>, ids: seq<Job>, n: nat)
    requires MostRecentFirst(a, ids) && MostRecentFirst(b, ids)
    requires n <= |a| && n <= |b| && forall i :: 0 <= i < n ==> a[i] == b[i]
    ensures a == b
    decreases |a| - n
  {
    if n < |a| {
      assert a[n] in a && a[n] in ids;
      var k :| 0 <= k < |b| && b[k] == a[n];
      assert k >= n;
      assert b[n] in b && b[n] in ids;
      var i :| 0 <= i < |a| && a[i] == b[n];
      assert i >= n;
      assert a[n] == b[n];
      SameFrom(a, b, ids, n + 1);
    } else {
      NoLonger(a, b, ids);
    }
  }

  lemma NoLonger(a: seq<Job>, b: seq<Job>, ids: seq<Job>)
    requires MostRecentFirst(a, ids) && MostRecentFirst(b, ids)
    requires |a| <= |b| && forall i :: 0 <= i < |a| ==> a[i] == b[i]
    ensures |b| == |a|
  {
    if b != [] {
      var k := |b| - 1;
      assert b[k] in b && b[k] in ids;
      var i :| 0 <= i < |a| && a[i] == b[k];
      assert b[i] == b[k];
      assert i == k;
    }
  }

  // ---- Whole runs ----

  datatype Event = Flush(batch: seq<Job>) | Trim

  function Next(list: seq<Job>, e: Event, size: nat): seq<Job> {
    if e.Flush? then Flushed(list, e.batch, size) else Cut(list, size)
  }

  function Exec(list: seq<Job>, es: seq<Event>, size: nat): seq<Job>
    decreases |es|
  {
    if es == [] then list else Exec(Next(list, es[0], size), es[1..], size)
  }

  /** All that was flushed, in order. */
  function Batches(es: seq<Event>): seq<Job> {
    if es == [] then [] else (if es[0].Flush? then es[0].batch else []) + Batches(es[1..])
  }

  lemma {:induction false} RunIsOneFlush(whole: seq<Job>, es: seq<Event>, size: nat)
    requires Distinct(whole)
    ensures Exec(Cut(whole, size), es, size) == Cut(Prepend(whole, Batches(es)), size)
    decreases |es|
  {
    if es != [] {
      var e, list := es[0], Cut(whole, size);
      if e.Flush? && e.batch != [] {
        CutBeforeBatch(whole, e.batch, size);
        PrependDistinct(whole, e.batch);
        PrependConcat(whole, e.batch, Batches(es[1..]));
        RunIsOneFlush(Prepend(whole, e.batch), es[1..], size);
      } else {
        assert Batches(es) == [] + Batches(es[1..]) == Batches(es[1..]);
        RunIsOneFlush(whole, es[1..], size);
      }
    }
  }

  /** However the jobs were batched and the list trimmed in between, it ends as the most recent `size` of
      the jobs tracked, each once, the last one in front. */
  lemma {:induction false} ListIsMostRecent(es: seq<Event>, size: nat)
    ensures exists whole :: MostRecentFirst(whole, Batches(es)) && Exec([], es, size) == Cut(whole, size)
  {
    RunIsOneFlush([], es, size);
    PrependIsMostRecent([], [], Batches(es));
    assert [] + Batches(es) == Batches(es);
    assert Cut([], size) == [];
    assert MostRecentFirst(Prepend([], Batches(es)), Batches(es));
  }

  /** Two runs that flush the same jobs in the same order end with the same list. */
  lemma BatchingMakesNoDifference(a: seq<Event>, b: seq<Event>, size: nat)
    requires Batches(a) == Batches(b)
    ensures Exec([], a, size) == Exec([], b, size)
  {
    RunIsOneFlush([], a, size);
    RunIsOneFlush([], b, size);
  }

  /** On a list that holds a job twice, as `InsertToList` can make it, trimming first does show. */
  lemma DuplicatesShow(j: Job, k: Job)
    requires j != k
    ensures Next(Next([j, j, k], Trim, 2), Flush([j]), 2) == [j]
    ensures Next([j, j, k], Flush([j]), 2) == [j, k]
  {
    assert [j, j, k][..2] == [j] + [j] && [j, j, k] == [j] + ([j] + [k]);
    WithoutConcat([j], [j], j);
    WithoutConcat([j], [j] + [k], j);
    WithoutConcat([j], [k], j);
    assert Prepend([j, j], [j]) == ToFront([j, j], j);
    assert Prepend([j, j, k], [j]) == ToFront([j, j, k], j);
  }

  // ---- The flusher and the manager as written ----

  /** One server's pending jobs and the stored list. */
  class TerminalList {
    var pending: seq<Job>
    var list: seq<Job>

    constructor ()
      ensures pending == [] && list == []
    {
      pending, list := [], [];
    }

    method Track(j: Job)
      modifies this`pending
      ensures pending == old(pending) + [j]
    {
      pending := pending + [j];
    }

    /** Drains what is pending and stores it; `granted` is false when the list's lock is lost, and then the
        batch is gone. */
    method FlushOne(size: nat, granted: bool) returns (thrown: bool)
      modifies this
      ensures pending == [] && thrown == (old(pending) != [] && !granted)
      ensures list == if thrown then old(list) else Next(old(list), Flush(old(pending)), size)
      ensures old(pending) == [] ==> list == old(list)
    {
      thrown := false;
      if pending == [] { return; }
      var batch := [];
      while pending != []
        invariant batch + pending == old(pending) && list == old(list)
        decreases |pending|
      {
        batch, pending := batch + [pending[0]], pending[1..];
      }
      assert batch + [] == batch;
      if !granted { return true; }
      var items := list;
      for i := 0 to |batch|
        invariant Prepend(items, batch[i..]) == Prepend(list, batch) && list == old(list) && pending == []
      {
        items := Without(items, batch[i]);
        items := [batch[i]] + items;
        assert batch[i..][1..] == batch[i + 1..];
      }
      if |items| > size {
        items := items[..size];
      }
      list := items;
    }

    method TrimList(size: nat, granted: bool)
      modifies this`list
      ensures list == if granted then Next(old(list), Trim, size) else old(list)
    {
      if granted {
        if |list| <= size { return; }
        list := list[..size];
      }
    }
  }
}
