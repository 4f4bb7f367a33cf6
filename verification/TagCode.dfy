/** `TaggingExtensionOSS` as code: the loops around the tag's lock, and the edits made under it. */
module TagCode {
  import opened Cache

  class TaggedCache {
    var tags: map<nat, seq<nat>>        // the key lists, by tag
    var items: set<nat>                 // the other keys in the cache

    /** `answers`: what `LockKey` says, turn by turn; the adder goes round until it has the lock. */
    method AddUsingTag(key: nat, tag: nat, answers: seq<bool>) returns (added: bool)
      modifies this
      ensures added <==> true in answers
      ensures added ==> tags == old(tags)[tag := (if tag in old(tags) then old(tags)[tag] else []) + [key]]
      ensures items == if added then old(items) + {key} else old(items)
      ensures !added ==> tags == if tag in old(tags) then old(tags) else old(tags)[tag := []]
    {
      if tag !in tags {
        tags := tags[tag := []];
      }
      ghost var listed := tags;
      for i := 0 to |answers|
        invariant true !in answers[..i] && tags == listed && items == old(items)
      {
        if answers[i] {
          var keys := tags[tag];
          keys := keys + [key];
          items := items + {key};
          tags := tags[tag := keys];
          return true;
        }
      }
      assert answers[..|answers|] == answers;
      added := false;
    }

    /** The listed keys go, all of them, and the tag after them. */
    method RemoveUsingTag(tag: nat, answers: seq<bool>) returns (removed: bool)
      modifies this
      ensures removed <==> tag in old(tags) && true in answers
      ensures removed ==> tags == old(tags) - {tag} && items == old(items) - (set k | k in old(tags)[tag])
      ensures !removed ==> tags == old(tags) && items == old(items)
    {
      removed := false;
      for i := 0 to |answers|
        invariant true !in answers[..i] && tags == old(tags) && items == old(items)
      {
        if tag !in tags { return; }
        if answers[i] {
          var keys := tags[tag];
          if |keys| > 0 {
            items := items - (set k | k in keys);
          }
          tags := tags - {tag};
          return true;
        }
      }
      assert answers[..|answers|] == answers;
    }

    /** What is found under the tag: the listed keys that are still in the cache. */
    method GetUsingTag(tag: nat) returns (found: set<nat>)
      ensures forall k :: k in found <==> tag in tags && k in tags[tag] && k in items
    {
      if tag !in tags || tags[tag] == [] { return {}; }
      var keys := tags[tag];
      found := set k | k in keys && k in items;
    }
  }
}
