/** Ranges over a scored set: the order by score and key, pages of it, and the search for the lowest score.

    A set is stored as a dictionary; it is given here as its entries in some order of enumeration. */
module SortedSets {
  import opened Cache

  type Score = real

  datatype Item = Item(key: string, score: Score)

  // ---- The order ----

  /** The ordinal comparison of strings. */
  predicate Before(a: string, b: string) {
    if b == [] then false
    else if a == [] then true
    else a[0] < b[0] || (a[0] == b[0] && Before(a[1..], b[1..]))
  }

  lemma {:induction false} BeforeIsTotal(a: string, b: string)
    ensures a == b || Before(a, b) || Before(b, a)
    ensures !(Before(a, b) && Before(b, a)) && !Before(a, a)
  {
    if a != [] && b != [] {
      BeforeIsTotal(a[1..], b[1..]);
      assert a == [a[0]] + a[1..] && b == [b[0]] + b[1..];
    }
    if a != [] {
      BeforeIsTotal(a[1..], a[1..]);
    }
  }

  lemma {:induction false} BeforeIsTransitive(a: string, b: string, c: string)
    requires Before(a, b) && Before(b, c)
    ensures Before(a, c)
  {
    if a != [] && a[0] == b[0] == c[0] {
      BeforeIsTransitive(a[1..], b[1..], c[1..]);
    }
  }

  /** By score, then by key. */
  predicate Precedes(x: Item, y: Item) {
    x.score < y.score || (x.score == y.score && Before(x.key, y.key))
  }

  lemma PrecedesIsTotal(x: Item, y: Item)
    ensures x == y || Precedes(x, y) || Precedes(y, x)
    ensures !(Precedes(x, y) && Precedes(y, x)) && !Precedes(x, x)
  {
    BeforeIsTotal(x.key, y.key);
  }

  lemma PrecedesIsTransitive(x: Item, y: Item, z: Item)
    requires Precedes(x, y) && Precedes(y, z)
    ensures Precedes(x, z)
  {
    if x.score == y.score == z.score {
      BeforeIsTransitive(x.key, y.key, z.key);
    }
  }

  predicate Ascending(items: seq<Item>) {
    forall i, k :: 0 <= i < k < |items| ==> Precedes(items[i], items[k])
  }

  /** Each key once, as a dictionary lists its entries. */
  predicate Entries(items: seq<Item>) {
    forall i, k :: 0 <= i < k < |items| ==> items[i].key != items[k].key
  }

  function Insert(x: Item, items: seq<Item>): seq<Item> {
    if items == [] then [x]
    else if Precedes(x, items[0]) then [x] + items
    else [items[0]] + Insert(x, items[1..])
  }

  function Ordered(items: seq<Item>): seq<Item> {
    if items == [] then [] else Insert(items[0], Ordered(items[1..]))
  }

  lemma {:induction false} InsertAdds(x: Item, items: seq<Item>)
    ensures multiset(Insert(x, items)) == multiset(items) + multiset{x}
  {
    if items != [] && !Precedes(x, items[0]) {
      InsertAdds(x, items[1..]);
      assert items == [items[0]] + items[1..];
    }
  }

  lemma {:induction false} InsertKeepsOrder(x: Item, items: seq<Item>)
    requires Ascending(items) && x !in items
    ensures Ascending(Insert(x, items))
  {
    if items == [] {
    } else if Precedes(x, items[0]) {
      forall k | 0 < k < |items| ensures Precedes(x, items[k]) {
        PrecedesIsTransitive(x, items[0], items[k]);
      }
    } else {
      var rest := Insert(x, items[1..]);
      InsertKeepsOrder(x, items[1..]);
      InsertAdds(x, items[1..]);
      PrecedesIsTotal(x, items[0]);
      forall k | 0 <= k < |rest| ensures Precedes(items[0], rest[k]) {
        assert rest[k] in multiset(rest);
        if rest[k] != x {
          assert rest[k] in items[1..];
        }
      }
    }
  }

  lemma {:induction false} OrderedIsOrdered(items: seq<Item>)
    requires Entries(items)
    ensures Ascending(Ordered(items)) && multiset(Ordered(items)) == multiset(items)
  {
    if items != [] {
      var rest := Ordered(items[1..]);
      OrderedIsOrdered(items[1..]);
      assert items == [items[0]] + items[1..];
      assert items[0] !in items[1..];
      assert items[0] !in multiset(rest);
      InsertAdds(items[0], rest);
      InsertKeepsOrder(items[0], rest);
    }
  }

  /** There is only one ascending order. */
  lemma {:induction false} AscendingIsUnique(a: seq<Item>, b: seq<Item>)
    requires Ascending(a) && Ascending(b) && multiset(a) == multiset(b)
    ensures a == b
  {
    if a == [] {
      assert |multiset(a)| == |b|;
    } else {
      SameElements(a, b);
      SameFirst(a, b);
      assert Ascending(a[1..]) && Ascending(b[1..]);
      hide Ascending, Precedes;
      RestsAgree(a, b);
      AscendingIsUnique(a[1..], b[1..]);
      assert a == [a[0]] + a[1..] && b == [b[0]] + b[1..];
    }
  }

  lemma SameElements(a: seq<Item>, b: seq<Item>)
    requires multiset(a) == multiset(b) && a != []
    ensures b != [] && a[0] in b && b[0] in a
  {
    assert |multiset(a)| == |b|;
    assert a[0] in multiset(b) && b[0] in multiset(a);
  }

  lemma RestsAgree(a: seq<Item>, b: seq<Item>)
    requires multiset(a) == multiset(b) && a != [] && b != [] && a[0] == b[0]
    ensures multiset(a[1..]) == multiset(b[1..])
  {
    assert a == [a[0]] + a[1..] && b == [b[0]] + b[1..];
    assert multiset(a[1..]) == multiset(a) - multiset{a[0]};
    assert multiset(b[1..]) == multiset(b) - multiset{b[0]};
  }

  lemma SameFirst(a: seq<Item>, b: seq<Item>)
    requires Ascending(a) && Ascending(b) && a != [] && b != [] && a[0] in b && b[0] in a
    ensures a[0] == b[0]
  {
    var i :| 0 <= i < |b| && b[i] == a[0];
    var k :| 0 <= k < |a| && a[k] == b[0];
    PrecedesIsTotal(a[0], b[0]);
  }

  /** The order depends on what the set holds, not on how it is enumerated. */
  lemma EnumerationMakesNoDifference(a: seq<Item>, b: seq<Item>)
    requires Entries(a) && Entries(b) && multiset(a) == multiset(b)
    ensures Ordered(a) == Ordered(b)
  {
    OrderedIsOrdered(a);
    OrderedIsOrdered(b);
    AscendingIsUnique(Ordered(a), Ordered(b));
  }

  // ---- Pages ----

  /** `Skip` and `Take`: a negative number counts as none, and neither goes beyond the end. */
  function Skip<T>(items: seq<T>, n: int): seq<T> {
    if n <= 0 then items else if n >= |items| then [] else items[n..]
  }

  function Take<T>(items: seq<T>, n: int): seq<T> {
    if n <= 0 then [] else if n >= |items| then items else items[..n]
  }

  function Keys(items: seq<Item>): (keys: seq<string>)
    ensures |keys| == |items| && forall i :: 0 <= i < |items| ==> keys[i] == items[i].key
  {
    seq(|items|, i requires 0 <= i < |items| => items[i].key)
  }

  function Range<T>(items: seq<T>, from: int, to: int): seq<T> {
    var count := to - from + 1;
    Take(Skip(items, from), if count > 0 then count else 0)
  }

  /** The element at place `i` of a range is the one at `from + i` of the whole; the range stops at `to`
      or where the whole does. */
  lemma RangeIs<T>(items: seq<T>, from: int, to: int)
    requires 0 <= from
    ensures var r := Range(items, from, to);
      && (forall i :: 0 <= i < |r| ==> from + i < |items| && r[i] == items[from + i])
      && |r| == (var end := if to < |items| then to + 1 else |items|; if end > from then end - from else 0)
  {
  }

  lemma PagesMeet<T>(items: seq<T>, from: int, mid: int, to: int)
    requires 0 <= from <= mid + 1 <= to + 1
    ensures Range(items, from, mid) + Range(items, mid + 1, to) == Range(items, from, to)
  {
    RangeIs(items, from, mid);
    RangeIs(items, mid + 1, to);
    RangeIs(items, from, to);
    var a, b, c := Range(items, from, mid), Range(items, mid + 1, to), Range(items, from, to);
    assert |a| + |b| == |c|;
  }

  /** The first `n` pages of `size` elements each. */
  function Pages<T>(items: seq<T>, size: nat, n: nat): seq<T> {
    if n == 0 then [] else Pages(items, size, n - 1) + Range(items, (n - 1) * size, n * size - 1)
  }

  lemma {:induction false} PagesAreTheWhole<T>(items: seq<T>, size: nat, n: nat)
    requires n * size >= |items|
    ensures Pages(items, size, n) == items
  {
    PagesAreAPrefix(items, size, n);
    assert Range(items, 0, n * size - 1) == items;
  }

  lemma {:induction false} PagesAreAPrefix<T>(items: seq<T>, size: nat, n: nat)
    ensures Pages(items, size, n) == Range(items, 0, n * size - 1)
  {
    if n > 0 {
      PagesAreAPrefix(items, size, n - 1);
      assert (n - 1) * size >= 0 && n * size == (n - 1) * size + size;
      PagesMeet(items, 0, (n - 1) * size - 1, n * size - 1);
    }
  }

  method GetRangeFromSet(set_: Option<seq<Item>>, from: int, to: int) returns (keys: seq<string>)
    requires set_.Some? ==> Entries(set_.value)
    ensures set_.None? ==> keys == []
    ensures set_.Some? ==> forall other :: Entries(other) && multiset(other) == multiset(set_.value) ==>
      keys == Range(Keys(Ordered(other)), from, to)
  {
    if set_.None? || set_.value == [] {
      keys := [];
    } else {
      keys := Range(Keys(Ordered(set_.value)), from, to);
    }
    if set_.Some? {
      forall other | Entries(other) && multiset(other) == multiset(set_.value)
        ensures keys == Range(Keys(Ordered(other)), from, to)
      {
        EnumerationMakesNoDifference(other, set_.value);
      }
    }
  }

  // ---- The lowest score in a range ----

  predicate InRange(x: Item, from: Score, to: Score) {
    from <= x.score <= to
  }

  datatype Found = Found(key: Option<string>) | BadRange

  /** The first in-range element of the order. */
  function First(items: seq<Item>, from: Score, to: Score): Option<Item> {
    if items == [] then None
    else if InRange(items[0], from, to) then Some(items[0])
    else First(items[1..], from, to)
  }

  lemma {:induction false} FirstIsLowest(items: seq<Item>, from: Score, to: Score)
    requires Ascending(items)
    ensures First(items, from, to).None? <==> forall i :: 0 <= i < |items| ==> !InRange(items[i], from, to)
    ensures First(items, from, to).Some? ==> First(items, from, to).value in items && InRange(First(items, from, to).value, from, to)
    ensures First(items, from, to).Some? ==> forall i :: 0 <= i < |items| && InRange(items[i], from, to) ==>
      First(items, from, to).value.score <= items[i].score
  {
    if items != [] {
      FirstIsLowest(items[1..], from, to);
      assert items == [items[0]] + items[1..];
    }
  }

  /** The running minimum starts at `max`, the largest score there is. */
  method LowestOf(items: seq<Item>, from: Score, to: Score, max: Score) returns (result: Option<string>, lowest: Score)
    ensures result.None? ==> forall i :: 0 <= i < |items| && InRange(items[i], from, to) ==> items[i].score >= max
    ensures result.Some? ==> Item(result.value, lowest) in items && from <= lowest <= to && lowest < max
    ensures result.Some? ==> forall i :: 0 <= i < |items| && InRange(items[i], from, to) ==> lowest <= items[i].score
  {
    result, lowest := None, max;
    for n := 0 to |items|
      invariant result.None? ==> lowest == max
      invariant result.Some? ==> Item(result.value, lowest) in items && from <= lowest <= to && lowest < max
      invariant forall i :: 0 <= i < n && InRange(items[i], from, to) ==> lowest <= items[i].score
    {
      if items[n].score >= from && items[n].score <= to && items[n].score < lowest {
        lowest, result := items[n].score, Some(items[n].key);
      }
    }
  }

  /** A key with the score of the first in-range element of the order; none exactly when no element in
      range has a score below `max`. */
  method GetFirstByLowestScoreFromSet(set_: Option<seq<Item>>, from: Score, to: Score, max: Score) returns (r: Found)
    requires set_.Some? ==> Entries(set_.value)
    ensures r.BadRange? <==> to < from
    ensures r.Found? && set_.None? ==> r.key.None?
    ensures r.Found? && set_.Some? && r.key.Some? ==>
      var first := First(Ordered(set_.value), from, to);
      first.Some? && Item(r.key.value, first.value.score) in set_.value
    ensures r.Found? && set_.Some? ==>
      (r.key.None? <==> forall i :: 0 <= i < |set_.value| && InRange(set_.value[i], from, to) ==> set_.value[i].score >= max)
  {
    if to < from { return BadRange; }
    if set_.None? || set_.value == [] { return Found(None); }
    var result, lowest := LowestOf(set_.value, from, to, max);
    if result.Some? {
      ScoresAgree(set_.value, from, to, Item(result.value, lowest));
    }
    r := Found(result);
  }

  lemma ScoresAgree(items: seq<Item>, from: Score, to: Score, x: Item)
    requires Entries(items) && x in items && InRange(x, from, to)
    requires forall i :: 0 <= i < |items| && InRange(items[i], from, to) ==> x.score <= items[i].score
    ensures First(Ordered(items), from, to).Some? && First(Ordered(items), from, to).value.score == x.score
  {
    OrderedIsOrdered(items);
    var sorted := Ordered(items);
    FirstIsLowest(sorted, from, to);
    assert x in multiset(sorted);
    var first := First(sorted, from, to);
    assert first.value in multiset(sorted);
    assert first.value in multiset(items);
  }
}
