/** `NCacheReadersPrimitive`: the list of readers, changed in place. A reader is known by its identity. */
module ReaderListCode {
  import opened Lists
  import opened ReaderWriter

  /** A reader that was added and removed leaves the list as it was, if its identity is its own. */
  lemma RemoveUndoesAdd(list: seq<Id>, r: Id)
    requires r !in list
    ensures Without(list + [r], r) == list
  {
    WithoutConcat(list, [r], r);
    WithoutAbsent(list, r);
    assert Without([r], r) == [];
  }

  class NCacheReadersPrimitive {
    var readers: seq<Id>

    constructor ()
      ensures readers == []
    {
      readers := [];
    }

    method AddReader(r: Id)
      modifies this
      ensures readers == old(readers) + [r]
    {
      readers := readers + [r];
    }

    method RemoveReader(r: Id) returns (removed: bool)
      modifies this
      ensures readers == Without(old(readers), r) && (removed <==> r in old(readers))
    {
      var kept, list := [], readers;
      removed := false;
      for i := 0 to |list|
        invariant kept == Without(list[..i], r) && readers == old(readers) == list
        invariant removed <==> r in list[..i]
      {
        assert list[..i + 1] == list[..i] + [list[i]];
        WithoutConcat(list[..i], [list[i]], r);
        assert Without([list[i]], r) == if list[i] == r then [] else [list[i]];
        if list[i] == r {
          removed := true;
        } else {
          kept := kept + [list[i]];
        }
      }
      assert list[..|list|] == list;
      readers := kept;
    }
  }
}
