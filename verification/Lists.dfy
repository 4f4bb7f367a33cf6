/** Removing every occurrence of an element, as `RemoveAll` does. */
module Lists {

  function Without<T(==)>(list: seq<T>, x: T): seq<T> {
    if list == [] then [] else (if list[0] == x then [] else [list[0]]) + Without(list[1..], x)
  }

  lemma {:induction false} WithoutIn<T>(list: seq<T>, x: T, y: T)
    ensures y in Without(list, x) <==> y in list && y != x
  {
    if list != [] {
      WithoutIn(list[1..], x, y);
      assert list == [list[0]] + list[1..];
    }
  }

  lemma {:induction false} WithoutConcat<T>(a: seq<T>, b: seq<T>, x: T)
    ensures Without(a + b, x) == Without(a, x) + Without(b, x)
  {
    if a == [] {
      assert a + b == b;
    } else {
      assert (a + b)[1..] == a[1..] + b;
      WithoutConcat(a[1..], b, x);
    }
  }

  lemma {:induction false} WithoutAbsent<T>(list: seq<T>, x: T)
    requires x !in list
    ensures Without(list, x) == list
  {
    if list != [] {
      assert list == [list[0]] + list[1..];
      WithoutAbsent(list[1..], x);
    }
  }
}
