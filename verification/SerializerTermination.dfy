/** On which graphs serialisation ends: exactly those without a reachable cycle that meets no plain
    object of a reference type. And on a graph without cycles nothing is cut. */
module SerializerTermination {
  import opened Cache
  import opened Serializer

  /** Arrays, lists and inline values: objects that may be met again inside themselves without being cut. */
  predicate Unremembered(g: Graph, n: nat) {
    n < |g| && (g[n].ArrayNode? || g[n].ListNode? || g[n].ValueNode?)
  }

  /** Object `m` refers to object `n`, from an element or a field. */
  predicate Edge(g: Graph, m: nat, n: nat) {
    m < |g| && n < |g| &&
    match g[m]
    case SimpleNode(_, _) => false
    case ArrayNode(_, elems) => Some(n) in elems
    case ListNode(_, elems) => Some(n) in elems
    case PlainNode(_, fields) => exists i :: 0 <= i < |fields| && fields[i].target == Some(n)
    case ValueNode(_, fields) => exists i :: 0 <= i < |fields| && fields[i].target == Some(n)
  }

  predicate Walk(g: Graph, w: seq<nat>) {
    && |w| > 0
    && (forall i :: 0 <= i < |w| ==> w[i] < |g|)
    && forall i :: 0 <= i < |w| - 1 ==> Edge(g, w[i], w[i + 1])
  }

  predicate From(w: seq<nat>, a: nat, b: nat) {
    |w| > 0 && w[0] == a && w[|w| - 1] == b
  }

  ghost predicate Reaches(g: Graph, a: nat, b: nat) {
    exists w: seq<nat> :: Walk(g, w) && From(w, a, b)
  }

  /** A way round from an object to itself. */
  predicate Cycle(g: Graph, w: seq<nat>) {
    Walk(g, w) && |w| >= 2 && w[0] == w[|w| - 1]
  }

  /** A cycle without a plain object of a reference type. */
  predicate BareCycle(g: Graph, w: seq<nat>) {
    Cycle(g, w) && forall i :: 0 <= i < |w| ==> Unremembered(g, w[i])
  }

  ghost predicate OnBareCycle(g: Graph, n: nat) {
    exists w: seq<nat> :: BareCycle(g, w) && w[0] == n
  }

  ghost predicate Ends(g: Graph, n: nat)
    requires Closed(g) && n < |g|
  {
    exists stack: nat :: Serialize(g, n, {}, stack).Some?
  }

  // ---- Endless graphs ----

  lemma {:induction false} ItemOverflows(g: Graph, rs: seq<Option<nat>>, i: nat, visited: set<nat>, stack: nat)
    requires Closed(g) && AllPoint(g, rs) && i < |rs| && rs[i].Some?
    requires Serialize(g, rs[i].value, visited, stack).None?
    ensures SerializeItems(g, rs, visited, stack).None?
    decreases |rs|
  {
    if i < |rs| - 1 { ItemOverflows(g, rs[..|rs| - 1], i, visited, stack); }
  }

  lemma {:induction false} FieldOverflows(g: Graph, fs: seq<Field>, i: nat, visited: set<nat>, stack: nat)
    requires Closed(g) && FieldsPoint(g, fs) && i < |fs| && fs[i].target.Some?
    requires Serialize(g, fs[i].target.value, visited, stack).None?
    ensures SerializeFields(g, fs, visited, stack).None?
    decreases |fs|
  {
    if i < |fs| - 1 { FieldOverflows(g, fs[..|fs| - 1], i, visited, stack); }
  }

  /** If a child overflows the stack, so does an object not cut off before it. */
  lemma ChildOverflows(g: Graph, m: nat, n: nat, visited: set<nat>, stack: nat)
    requires Closed(g) && Edge(g, m, n) && stack > 0
    requires Unremembered(g, m) ==> Serialize(g, n, visited, stack - 1).None?
    requires g[m].PlainNode? ==> m !in visited && Serialize(g, n, visited + {m}, stack - 1).None?
    ensures Serialize(g, m, visited, stack).None?
  {
    match g[m]
    case ArrayNode(_, elems) =>
      var i :| 0 <= i < |elems| && elems[i] == Some(n);
      ItemOverflows(g, elems, i, visited, stack - 1);
    case ListNode(_, elems) =>
      var i :| 0 <= i < |elems| && elems[i] == Some(n);
      ItemOverflows(g, elems, i, visited, stack - 1);
    case PlainNode(_, fields) =>
      var i :| 0 <= i < |fields| && fields[i].target == Some(n);
      FieldOverflows(g, fields, i, visited + {m}, stack - 1);
    case ValueNode(_, fields) =>
      var i :| 0 <= i < |fields| && fields[i].target == Some(n);
      FieldOverflows(g, fields, i, visited, stack - 1);
  }

  /** Round a bare cycle there is no stack deep enough. */
  lemma {:induction false} CycleOverflows(g: Graph, w: seq<nat>, i: nat, visited: set<nat>, stack: nat)
    requires Closed(g) && BareCycle(g, w) && i < |w| - 1
    ensures Serialize(g, w[i], visited, stack).None?
    decreases stack
  {
    if stack > 0 {
      var next := if i + 1 < |w| - 1 then i + 1 else 0;
      assert Edge(g, w[i], w[i + 1]) && w[i + 1] == w[next];
      CycleOverflows(g, w, next, visited, stack - 1);
      ChildOverflows(g, w[i], w[next], visited, stack);
    }
  }

  predicate Distinct(w: seq<nat>) {
    forall i, j :: 0 <= i < j < |w| ==> w[i] != w[j]
  }

  /** Nor is there on the way to one, along a walk that meets no object twice and so is not cut. */
  lemma {:induction false} WayOverflows(g: Graph, w: seq<nat>, visited: set<nat>, stack: nat)
    requires Closed(g) && Walk(g, w) && Distinct(w) && OnBareCycle(g, w[|w| - 1])
    requires forall i :: 0 <= i < |w| ==> w[i] !in visited
    ensures Serialize(g, w[0], visited, stack).None?
    decreases |w|
  {
    if |w| == 1 {
      var c :| BareCycle(g, c) && c[0] == w[0];
      CycleOverflows(g, c, 0, visited, stack);
    } else if stack > 0 {
      var rest := w[1..];
      assert Edge(g, w[0], w[1]);
      assert Walk(g, rest) by {
        forall i | 0 <= i < |rest| - 1 ensures Edge(g, rest[i], rest[i + 1]) { assert Edge(g, w[i + 1], w[i + 2]); }
      }
      if g[w[0]].PlainNode? {
        WayOverflows(g, rest, visited + {w[0]}, stack - 1);
      } else {
        WayOverflows(g, rest, visited, stack - 1);
      }
      ChildOverflows(g, w[0], w[1], visited, stack);
    }
  }

  /** A walk can be made to meet no object twice. */
  lemma {:induction false} Straighten(g: Graph, w: seq<nat>) returns (v: seq<nat>)
    requires Walk(g, w)
    ensures Walk(g, v) && Distinct(v) && From(v, w[0], w[|w| - 1])
    decreases |w|
  {
    if Distinct(w) {
      v := w;
    } else {
      var i, j :| 0 <= i < j < |w| && w[i] == w[j];
      var u := w[..i] + w[j..];
      forall k | 0 <= k < |u| - 1 ensures Edge(g, u[k], u[k + 1]) {
        if k + 1 < i { assert Edge(g, w[k], w[k + 1]); }
        else if k + 1 == i { assert Edge(g, w[k], w[i]); }
        else { assert Edge(g, w[k - i + j], w[k - i + j + 1]); }
      }
      v := Straighten(g, u);
    }
  }

  // ---- Graphs on which it ends ----

  lemma {:induction false} MoreStack(g: Graph, n: nat, visited: set<nat>, stack: nat, more: nat)
    requires Closed(g) && n < |g| && stack <= more && Serialize(g, n, visited, stack).Some?
    ensures Serialize(g, n, visited, more) == Serialize(g, n, visited, stack)
    decreases stack, 0
  {
    match g[n]
    case SimpleNode(_, _) =>
    case ArrayNode(_, elems) => MoreStackItems(g, elems, visited, stack - 1, more - 1);
    case ListNode(_, elems) => MoreStackItems(g, elems, visited, stack - 1, more - 1);
    case PlainNode(_, fields) =>
      if n !in visited { MoreStackFields(g, fields, visited + {n}, stack - 1, more - 1); }
    case ValueNode(_, fields) => MoreStackFields(g, fields, visited, stack - 1, more - 1);
  }

  lemma {:induction false} MoreStackItems(g: Graph, rs: seq<Option<nat>>, visited: set<nat>, stack: nat, more: nat)
    requires Closed(g) && AllPoint(g, rs) && stack <= more && SerializeItems(g, rs, visited, stack).Some?
    ensures SerializeItems(g, rs, visited, more) == SerializeItems(g, rs, visited, stack)
    decreases stack, 1 + |rs|
  {
    if rs != [] {
      MoreStackItems(g, rs[..|rs| - 1], visited, stack, more);
      var last := rs[|rs| - 1];
      if last.Some? { MoreStack(g, last.value, visited, stack, more); }
    }
  }

  lemma {:induction false} MoreStackFields(g: Graph, fs: seq<Field>, visited: set<nat>, stack: nat, more: nat)
    requires Closed(g) && FieldsPoint(g, fs) && stack <= more && SerializeFields(g, fs, visited, stack).Some?
    ensures SerializeFields(g, fs, visited, more) == SerializeFields(g, fs, visited, stack)
    decreases stack, 1 + |fs|
  {
    if fs != [] {
      MoreStackFields(g, fs[..|fs| - 1], visited, stack, more);
      var last := fs[|fs| - 1];
      if last.target.Some? { MoreStack(g, last.target.value, visited, stack, more); }
    }
  }

  /** No way through unremembered objects alone leads from `n` over more than `k` of them. */
  predicate Shallow(g: Graph, n: nat, k: nat)
    decreases k
  {
    Unremembered(g, n) ==> k > 0 && forall m :: 0 <= m < |g| && Edge(g, n, m) && Unremembered(g, m) ==> Shallow(g, m, k - 1)
  }

  function Deep(g: Graph, k: nat): set<nat> {
    set n | 0 <= n < |g| && !Shallow(g, n, k)
  }

  lemma {:induction false} ShallowGrows(g: Graph, n: nat, k: nat)
    requires Shallow(g, n, k)
    ensures Shallow(g, n, k + 1)
    decreases k
  {
    if Unremembered(g, n) {
      forall m | 0 <= m < |g| && Edge(g, n, m) && Unremembered(g, m) ensures Shallow(g, m, k) {
        ShallowGrows(g, m, k - 1);
      }
    }
  }

  lemma DeepShrinks(g: Graph, k: nat)
    ensures Deep(g, k + 1) <= Deep(g, k)
  {
    forall n | n in Deep(g, k + 1) ensures n in Deep(g, k) {
      if Shallow(g, n, k) { ShallowGrows(g, n, k); }
    }
  }

  lemma SubsetCard(a: set<nat>, b: set<nat>)
    requires a < b
    ensures |a| < |b|
  {
    var x :| x in b && x !in a;
    assert a <= b - {x};
    SubsetLeq(a, b - {x});
  }

  lemma {:induction false} SubsetLeq(a: set<nat>, b: set<nat>)
    requires a <= b
    ensures |a| <= |b|
    decreases |a|
  {
    if a != {} {
      var x :| x in a;
      SubsetLeq(a - {x}, b - {x});
    }
  }

  predicate IsNode(g: Graph, n: nat) {
    n < |g|
  }

  function Nodes(g: Graph): set<nat> {
    set n | 0 <= n < |g| && IsNode(g, n)
  }

  lemma {:induction false} NodeCount(g: Graph)
    ensures |Nodes(g)| == |g|
    decreases |g|
  {
    if g != [] {
      var last := |g| - 1;
      NodeCount(g[..last]);
      assert Nodes(g) == Nodes(g[..last]) + {last} by {
        forall n | n in Nodes(g) ensures n in Nodes(g[..last]) + {last} { assert n < last ==> IsNode(g[..last], n); }
        forall n | n in Nodes(g[..last]) + {last} ensures n in Nodes(g) { assert IsNode(g, n); }
      }
    }
  }

  /** The deep objects shrink to a set that stays. */
  lemma {:induction false} Settles(g: Graph, k: nat) returns (j: nat)
    requires |Deep(g, k)| <= |g| - k
    ensures Deep(g, j + 1) == Deep(g, j)
    decreases |g| - k
  {
    if Deep(g, k + 1) == Deep(g, k) {
      j := k;
    } else {
      DeepShrinks(g, k);
      SubsetCard(Deep(g, k + 1), Deep(g, k));
      j := Settles(g, k + 1);
    }
  }

  /** In a set that stays, every member is unremembered and refers to a member. */
  predicate Trap(g: Graph, s: set<nat>) {
    forall n :: n in s ==> Trapped(g, s, n)
  }

  predicate Trapped(g: Graph, s: set<nat>, n: nat) {
    Unremembered(g, n) && exists m :: m in s && Edge(g, n, m)
  }

  lemma SettledIsTrap(g: Graph, j: nat)
    requires Deep(g, j + 1) == Deep(g, j)
    ensures Trap(g, Deep(g, j + 1))
  {
    var s := Deep(g, j + 1);
    forall n | n in s ensures Trapped(g, s, n) {
      var m :| 0 <= m < |g| && Edge(g, n, m) && Unremembered(g, m) && !Shallow(g, m, j);
      assert m in Deep(g, j);
    }
  }

  lemma Prepend(g: Graph, n: nat, w: seq<nat>)
    requires Walk(g, w) && Edge(g, n, w[0])
    ensures Walk(g, [n] + w)
  {
    var v := [n] + w;
    forall i | 0 <= i < |v| - 1 ensures Edge(g, v[i], v[i + 1]) {
      if i > 0 { assert Edge(g, w[i - 1], w[i]); }
    }
  }

  predicate Within(w: seq<nat>, s: set<nat>) {
    forall i :: 0 <= i < |w| ==> w[i] in s
  }

  /** From any member of a trap one can walk as far as one likes without leaving it. */
  lemma {:induction false} TrapWalk(g: Graph, s: set<nat>, n: nat, len: nat) returns (w: seq<nat>)
    requires Trap(g, s) && n in s
    ensures Walk(g, w) && |w| == len + 1 && w[0] == n && Within(w, s)
    decreases len
  {
    hide Edge;
    assert Trapped(g, s, n);
    if len == 0 {
      w := [n];
    } else {
      var m :| m in s && Edge(g, n, m);
      var rest := TrapWalk(g, s, m, len - 1);
      Prepend(g, n, rest);
      w := [n] + rest;
    }
  }

  lemma {:induction false} Pigeonhole(w: seq<nat>, s: set<nat>)
    requires Distinct(w) && Within(w, s)
    ensures |w| <= |s|
    decreases |w|
  {
    if w != [] {
      var last := w[|w| - 1];
      Pigeonhole(w[..|w| - 1], s - {last});
    }
  }

  lemma Repeats(w: seq<nat>, s: set<nat>) returns (i: nat, j: nat)
    requires Within(w, s) && |w| > |s|
    ensures i < j < |w| && w[i] == w[j]
  {
    if Distinct(w) { Pigeonhole(w, s); }
    i, j :| 0 <= i < j < |w| && w[i] == w[j];
  }

  lemma PrefixReaches(g: Graph, w: seq<nat>, i: nat)
    requires Walk(g, w) && i < |w|
    ensures Reaches(g, w[0], w[i])
  {
    hide Edge;
    SubWalk(g, w, 0, i + 1);
    assert From(w[0..i + 1], w[0], w[i]);
  }

  /** A trap holds a bare cycle that can be reached from each of its members. */
  lemma TrapHasCycle(g: Graph, s: set<nat>, n: nat) returns (m: nat)
    requires Trap(g, s) && n in s
    ensures m < |g| && OnBareCycle(g, m) && Reaches(g, n, m)
  {
    var w := TrapWalk(g, s, n, |s|);
    var i, j := Repeats(w, s);
    m := w[i];
    assert m < |g|;
    hide Edge, Walk, OnBareCycle, Trap, Within, Reaches;
    LoopIsCycle(g, s, w, i, j);
    PrefixReaches(g, w, i);
  }

  lemma LoopIsCycle(g: Graph, s: set<nat>, w: seq<nat>, i: nat, j: nat)
    requires Trap(g, s) && Walk(g, w) && Within(w, s) && i < j < |w| && w[i] == w[j]
    ensures OnBareCycle(g, w[i])
  {
    hide Edge;
    SubWalk(g, w, i, j + 1);
    var c := w[i..j + 1];
    forall k | 0 <= k < |c| ensures Unremembered(g, c[k]) { assert Trapped(g, s, w[i + k]); }
    assert BareCycle(g, c);
  }

  lemma SubWalk(g: Graph, w: seq<nat>, lo: nat, hi: nat)
    requires Walk(g, w) && lo < hi <= |w|
    ensures Walk(g, w[lo..hi])
  {
    var v := w[lo..hi];
    forall i | 0 <= i < |v| - 1 ensures Edge(g, v[i], v[i + 1]) { assert Edge(g, w[lo + i], w[lo + i + 1]); }
  }

  lemma Join(g: Graph, a: seq<nat>, b: seq<nat>)
    requires Walk(g, a) && Walk(g, b) && a[|a| - 1] == b[0]
    ensures Walk(g, a + b[1..]) && From(a + b[1..], a[0], b[|b| - 1])
  {
    var w := a + b[1..];
    forall i | 0 <= i < |w| - 1 ensures Edge(g, w[i], w[i + 1]) {
      if i < |a| - 1 { assert Edge(g, a[i], a[i + 1]); }
      else { assert Edge(g, b[i - |a| + 1], b[i - |a| + 2]); }
    }
  }

  lemma ReachesThrough(g: Graph, a: nat, b: nat, c: nat)
    requires Reaches(g, a, b) && Reaches(g, b, c)
    ensures Reaches(g, a, c)
  {
    var v :| Walk(g, v) && From(v, a, b);
    var w :| Walk(g, w) && From(w, b, c);
    Join(g, v, w);
  }

  ghost predicate NoBareCycleFrom(g: Graph, r: nat) {
    forall n: nat :: n < |g| && Reaches(g, r, n) ==> !OnBareCycle(g, n)
  }

  /** Without a bare cycle in reach, ways through unremembered objects alone are bounded. */
  lemma Bounded(g: Graph, r: nat) returns (k: nat)
    requires r < |g| && NoBareCycleFrom(g, r)
    ensures forall n: nat :: n < |g| && Reaches(g, r, n) ==> Shallow(g, n, k)
  {
    NodeCount(g);
    forall n | n in Deep(g, 0) ensures n in Nodes(g) { assert IsNode(g, n); }
    SubsetLeq(Deep(g, 0), Nodes(g));
    var j := Settles(g, 0);
    SettledIsTrap(g, j);
    k := j + 1;
    forall n: nat | n < |g| && Reaches(g, r, n) ensures Shallow(g, n, k) {
      if !Shallow(g, n, k) {
        var m := TrapHasCycle(g, Deep(g, k), n);
        hide Shallow, Trap, OnBareCycle;
        ReachesThrough(g, r, n, m);
      }
    }
  }

  lemma ReachesOn(g: Graph, r: nat, m: nat, n: nat)
    requires Reaches(g, r, m) && Edge(g, m, n)
    ensures Reaches(g, r, n)
  {
    var a :| Walk(g, a) && From(a, r, m);
    assert Walk(g, [m, n]);
    Join(g, a, [m, n]);
  }

  function Left(g: Graph, visited: set<nat>): nat {
    |Nodes(g) - visited|
  }

  function Rank(g: Graph, n: nat, k: nat): nat {
    if Unremembered(g, n) then k else 0
  }

  /** What is assumed all along: everything in reach of the root is shallow. */
  ghost predicate AllShallow(g: Graph, r: nat, k: nat) {
    forall n: nat :: n < |g| && Reaches(g, r, n) ==> Shallow(g, n, k)
  }

  /** A stack that is deep enough; the measure is the plain objects not being serialised yet,
      and then the unremembered ones that can still be nested. */
  lemma {:induction false} Enough(g: Graph, r: nat, top: nat, n: nat, k: nat, visited: set<nat>) returns (stack: nat)
    requires Closed(g) && r < |g| && AllShallow(g, r, top) && n < |g| && Reaches(g, r, n) && Shallow(g, n, k)
    ensures Serialize(g, n, visited, stack).Some?
    decreases Left(g, visited), Rank(g, n, k), 0
  {
    match g[n]
    case SimpleNode(_, _) => stack := 1;
    case ArrayNode(_, elems) =>
      forall i | 0 <= i < |elems| && elems[i].Some? ensures Edge(g, n, elems[i].value) {}
      var s := EnoughItems(g, r, top, n, k, elems, visited);
      stack := s + 1;
    case ListNode(_, elems) =>
      forall i | 0 <= i < |elems| && elems[i].Some? ensures Edge(g, n, elems[i].value) {}
      var s := EnoughItems(g, r, top, n, k, elems, visited);
      stack := s + 1;
    case PlainNode(_, fields) =>
      if n in visited {
        stack := 1;
      } else {
        assert IsNode(g, n);
        SubsetCard(Nodes(g) - (visited + {n}), Nodes(g) - visited);
        ReachedAreShallow(g, r, top, n, fields);
        var s := EnoughFields(g, r, top, n, top, fields, visited + {n});
        stack := s + 1;
      }
    case ValueNode(_, fields) =>
      ValueIsShallow(g, n, k, fields);
      var s := EnoughFields(g, r, top, n, k - 1, fields, visited);
      stack := s + 1;
  }

  /** Whatever the fields refer to is shallow. */
  predicate AllShallowIn(g: Graph, fs: seq<Field>, k: nat) {
    forall i :: 0 <= i < |fs| && fs[i].target.Some? ==> Shallow(g, fs[i].target.value, k)
  }

  lemma ReachedAreShallow(g: Graph, r: nat, top: nat, n: nat, fields: seq<Field>)
    requires Closed(g) && r < |g| && AllShallow(g, r, top) && n < |g| && Reaches(g, r, n) && g[n].PlainNode? && g[n].fields == fields
    ensures AllShallowIn(g, fields, top)
  {
    forall i | 0 <= i < |fields| && fields[i].target.Some? ensures Shallow(g, fields[i].target.value, top) {
      assert Edge(g, n, fields[i].target.value);
      ReachesOn(g, r, n, fields[i].target.value);
    }
  }

  lemma ValueIsShallow(g: Graph, n: nat, k: nat, fields: seq<Field>)
    requires Closed(g) && n < |g| && g[n].ValueNode? && g[n].fields == fields && Shallow(g, n, k)
    ensures k > 0 && AllShallowIn(g, fields, k - 1)
  {
    assert Unremembered(g, n);
    forall i | 0 <= i < |fields| && fields[i].target.Some? ensures Shallow(g, fields[i].target.value, k - 1) {
      assert Edge(g, n, fields[i].target.value);
    }
  }

  lemma {:induction false} EnoughItems(g: Graph, r: nat, top: nat, n: nat, k: nat, rs: seq<Option<nat>>, visited: set<nat>)
    returns (stack: nat)
    requires Closed(g) && r < |g| && AllShallow(g, r, top) && Unremembered(g, n) && Reaches(g, r, n) && Shallow(g, n, k)
    requires AllPoint(g, rs) && forall i :: 0 <= i < |rs| && rs[i].Some? ==> Edge(g, n, rs[i].value)
    ensures SerializeItems(g, rs, visited, stack).Some?
    decreases Left(g, visited), Rank(g, n, k) - 1, 1 + |rs|
  {
    if rs == [] {
      stack := 0;
    } else {
      var init, last := rs[..|rs| - 1], rs[|rs| - 1];
      var a := EnoughItems(g, r, top, n, k, init, visited);
      stack := a;
      if last.Some? {
        ReachesOn(g, r, n, last.value);
        var b := Enough(g, r, top, last.value, k - 1, visited);
        stack := if a < b then b else a;
        MoreStack(g, last.value, visited, b, stack);
      }
      MoreStackItems(g, init, visited, a, stack);
    }
  }

  lemma {:induction false} EnoughFields(g: Graph, r: nat, top: nat, n: nat, k: nat, fs: seq<Field>, visited: set<nat>)
    returns (stack: nat)
    requires Closed(g) && r < |g| && AllShallow(g, r, top) && n < |g| && Reaches(g, r, n) && AllShallowIn(g, fs, k)
    requires FieldsPoint(g, fs) && forall i :: 0 <= i < |fs| && fs[i].target.Some? ==> Edge(g, n, fs[i].target.value)
    ensures SerializeFields(g, fs, visited, stack).Some?
    decreases Left(g, visited), k, 1 + |fs|
  {
    if fs == [] {
      stack := 0;
    } else {
      var init, last := fs[..|fs| - 1], fs[|fs| - 1];
      var a := EnoughFields(g, r, top, n, k, init, visited);
      stack := a;
      if last.target.Some? {
        ReachesOn(g, r, n, last.target.value);
        var b := Enough(g, r, top, last.target.value, k, visited);
        stack := if a < b then b else a;
        MoreStack(g, last.target.value, visited, b, stack);
      }
      MoreStackFields(g, init, visited, a, stack);
    }
  }

  /** Serialisation ends if and only if every cycle in reach meets a plain object of a reference type. */
  lemma EndsExactlyWithoutBareCycles(g: Graph, r: nat)
    requires Closed(g) && r < |g|
    ensures Ends(g, r) <==> NoBareCycleFrom(g, r)
  {
    if NoBareCycleFrom(g, r) {
      var k := Bounded(g, r);
      assert Walk(g, [r]) && From([r], r, r);
      var stack := Enough(g, r, k, r, k, {});
    } else {
      var n: nat :| n < |g| && Reaches(g, r, n) && OnBareCycle(g, n);
      var w :| Walk(g, w) && From(w, r, n);
      var v := Straighten(g, w);
      forall stack: nat ensures Serialize(g, r, {}, stack).None? {
        WayOverflows(g, v, {}, stack);
      }
    }
  }

  /** An array of a value type, one of whose values refers back to the array, never ends: the smallest such graph. */
  lemma ArrayOfValuesDoesNotEnd(g: Graph, a: nat, v: nat, i: nat, k: nat)
    requires Closed(g) && a < |g| && v < |g| && g[a].ArrayNode? && g[v].ValueNode?
    requires i < |g[a].elems| && g[a].elems[i] == Some(v) && k < |g[v].fields| && g[v].fields[k].target == Some(a)
    ensures !Ends(g, a)
  {
    assert Edge(g, a, v) && Edge(g, v, a);
    assert Walk(g, [a]) && From([a], a, a);
    assert BareCycle(g, [a, v, a]) && [a, v, a][0] == a;
    assert OnBareCycle(g, a) && Reaches(g, a, a);
    assert !NoBareCycleFrom(g, a);
    EndsExactlyWithoutBareCycles(g, a);
  }

  // ---- Graphs without cycles ----

  /** `t` is what one sees walking the graph from `r`, with nothing cut. */
  predicate WholeUnfolding(g: Graph, r: Option<nat>, t: Tree)
    requires Closed(g) && Points(g, r)
    decreases t
  {
    if r.None? then t == TNull else
    match g[r.value]
    case SimpleNode(_, v) => t == TSimple(v)
    case ArrayNode(name, elems) =>
      t.TArray? && t.name == name && |t.items| == |elems| &&
      forall i :: 0 <= i < |elems| ==> WholeUnfolding(g, elems[i], t.items[i])
    case ListNode(name, elems) =>
      t.TList? && t.name == name && |t.items| == |elems| &&
      forall i :: 0 <= i < |elems| ==> WholeUnfolding(g, elems[i], t.items[i])
    case PlainNode(name, fields) =>
      t.TPlain? && t.name == name && |t.fields| == |fields| &&
      forall i :: 0 <= i < |fields| ==>
        t.fields[i].name == fields[i].name && WholeUnfolding(g, fields[i].target, t.fields[i].value)
    case ValueNode(name, fields) =>
      t.TPlain? && t.name == name && |t.fields| == |fields| &&
      forall i :: 0 <= i < |fields| ==>
        t.fields[i].name == fields[i].name && WholeUnfolding(g, fields[i].target, t.fields[i].value)
  }

  ghost predicate Acyclic(g: Graph) {
    forall w: seq<nat> :: !Cycle(g, w)
  }

  /** Every object being serialised leads to the current one. */
  ghost predicate Above(g: Graph, path: set<nat>, n: nat) {
    forall x: nat :: x in path ==> exists w: seq<nat> :: Walk(g, w) && |w| >= 2 && From(w, x, n)
  }

  lemma NotBelowItself(g: Graph, path: set<nat>, n: nat)
    requires Acyclic(g) && Above(g, path, n)
    ensures n !in path
  {
    forall w: seq<nat> ensures !(Walk(g, w) && |w| >= 2 && From(w, n, n)) { assert !Cycle(g, w); }
  }

  lemma AboveChild(g: Graph, path: set<nat>, m: nat, n: nat)
    requires Above(g, path, m) && Edge(g, m, n)
    ensures Above(g, path, n) && Above(g, path + {m}, n)
  {
    assert Walk(g, [m, n]);
    forall x: nat | x in path + {m} ensures exists w: seq<nat> :: Walk(g, w) && |w| >= 2 && From(w, x, n) {
      if x == m {
        assert From([m, n], x, n);
      } else {
        var a :| Walk(g, a) && |a| >= 2 && From(a, x, m);
        Join(g, a, [m, n]);
      }
    }
    assert path <= path + {m};
  }

  lemma {:induction false} NothingCut(g: Graph, r: Option<nat>, path: set<nat>, t: Tree)
    requires Closed(g) && Points(g, r) && Acyclic(g) && Unfolds(g, r, path, t)
    requires r.Some? ==> Above(g, path, r.value)
    ensures WholeUnfolding(g, r, t)
    decreases t
  {
    if r.Some? {
      var n := r.value;
      match g[n]
      case SimpleNode(_, v) =>
      case ArrayNode(name, elems) =>
        forall i | 0 <= i < |elems| ensures WholeUnfolding(g, elems[i], t.items[i]) {
          if elems[i].Some? { AboveChild(g, path, n, elems[i].value); }
          NothingCut(g, elems[i], path, t.items[i]);
        }
      case ListNode(name, elems) =>
        forall i | 0 <= i < |elems| ensures WholeUnfolding(g, elems[i], t.items[i]) {
          if elems[i].Some? { AboveChild(g, path, n, elems[i].value); }
          NothingCut(g, elems[i], path, t.items[i]);
        }
      case PlainNode(name, fields) =>
        NotBelowItself(g, path, n);
        if n !in path {
          forall i | 0 <= i < |fields| ensures
            t.fields[i].name == fields[i].name && WholeUnfolding(g, fields[i].target, t.fields[i].value)
          {
            if fields[i].target.Some? { AboveChild(g, path, n, fields[i].target.value); }
            NothingCut(g, fields[i].target, path + {n}, t.fields[i].value);
          }
        }
      case ValueNode(name, fields) =>
        forall i | 0 <= i < |fields| ensures
          t.fields[i].name == fields[i].name && WholeUnfolding(g, fields[i].target, t.fields[i].value)
        {
          if fields[i].target.Some? { AboveChild(g, path, n, fields[i].target.value); }
          NothingCut(g, fields[i].target, path, t.fields[i].value);
        }
    }
  }

  /** A graph without cycles, shared objects included, comes back whole. */
  lemma AcyclicComesBackWhole(g: Graph, r: nat)
    requires Closed(g) && r < |g| && Acyclic(g)
    ensures exists stack: nat :: Serialize(g, r, {}, stack).Some?
    ensures forall stack: nat :: Serialize(g, r, {}, stack).Some? ==>
      WholeUnfolding(g, Some(r), Deserialize(Serialize(g, r, {}, stack).value))
  {
    forall n: nat ensures !OnBareCycle(g, n) {
      forall w: seq<nat> ensures !BareCycle(g, w) { assert !Cycle(g, w); }
    }
    EndsExactlyWithoutBareCycles(g, r);
    forall stack: nat | Serialize(g, r, {}, stack).Some?
      ensures WholeUnfolding(g, Some(r), Deserialize(Serialize(g, r, {}, stack).value))
    {
      RoundTrip(g, r, {}, stack);
      NothingCut(g, Some(r), {}, Deserialize(Serialize(g, r, {}, stack).value));
    }
  }
}
