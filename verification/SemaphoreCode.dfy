/** `NCacheSemaphorePrimitive` and what `AcquireStrategy` and `Dispose` do with it under the key lock. */
module SemaphoreCode {
  import opened Cache
  import opened Semaphore

  /** The holders that look dead: past their own date, with no record left. */
  function Dead(list: seq<Holder>, records: map<Id, nat>, now: nat): set<Id> {
    set i | 0 <= i < |list| && now > list[i].expiry && list[i].id !in records :: list[i].id
  }

  function Firsts(ids: seq<Id>, n: nat): set<Id>
    requires n <= |ids|
  {
    set k | 0 <= k < n :: ids[k]
  }

  lemma {:induction false} WithoutSnoc(list: seq<Holder>, h: Holder, ids: set<Id>)
    ensures Without(list + [h], ids) == Without(list, ids) + if h.id in ids then [] else [h]
  {
    if list == [] {
      assert list + [h] == [h];
    } else {
      assert (list + [h])[1..] == list[1..] + [h];
      WithoutSnoc(list[1..], h, ids);
    }
  }

  /** Dropping two sets of holders one after the other drops their union. */
  lemma {:induction false} WithoutTwice(list: seq<Holder>, a: set<Id>, b: set<Id>)
    ensures Without(Without(list, a), b) == Without(list, a + b)
  {
    if list != [] {
      WithoutTwice(list[1..], a, b);
      var rest := Without(list[1..], a);
      if list[0].id !in a {
        assert ([list[0]] + rest)[1..] == rest;
      } else {
        assert [] + rest == rest;
      }
    }
  }

  class NCacheSemaphorePrimitive {
    const capacity: nat
    var acquisitions: seq<Holder>

    constructor (capacity: nat)
      ensures this.capacity == capacity && acquisitions == []
    {
      this.capacity, acquisitions := capacity, [];
    }

    method TryAcquire(h: Holder) returns (acquired: bool)
      modifies this
      ensures acquired <==> |old(acquisitions)| < capacity
      ensures acquisitions == if acquired then old(acquisitions) + [h] else old(acquisitions)
    {
      if |acquisitions| < capacity {
        acquisitions := acquisitions + [h];
        return true;
      }
      acquired := false;
    }

    /** `RemoveAll` of one identity. */
    method Release(id: Id) returns (released: bool)
      modifies this
      ensures acquisitions == Without(old(acquisitions), {id})
      ensures released <==> id in Ids(old(acquisitions))
    {
      var kept := [];
      var list := acquisitions;
      for i := 0 to |list|
        invariant kept == Without(list[..i], {id})
        invariant |kept| < i <==> id in Ids(list[..i])
        invariant |kept| <= i && acquisitions == old(acquisitions)
      {
        assert list[..i + 1] == list[..i] + [list[i]];
        WithoutSnoc(list[..i], list[i], {id});
        IdsSnoc(list[..i], list[i]);
        if list[i].id != id {
          kept := kept + [list[i]];
        }
      }
      assert list[..|list|] == list;
      released := |kept| < |list|;
      acquisitions := kept;
    }

    /** `AcquireStrategy` between its `Get` and its `Insert` of the list: a slot if there is room; else the
        dead holders go and it tries once more. `ids` are the identities it draws. */
    method AcquireSlot(records: map<Id, nat>, now: nat, expiry: nat, ids: (Id, Id)) returns (mine: Option<Holder>)
      modifies this
      ensures var was, dead := old(acquisitions), Dead(old(acquisitions), records, now);
        && (|was| < capacity ==> mine == Some(Holder(ids.0, expiry)) && acquisitions == was + [mine.value])
        && (|was| == capacity > 0 ==> (mine.Some? <==> dead != {}))
        && (|was| >= capacity && mine.Some? ==>
              mine == Some(Holder(ids.1, expiry)) && acquisitions == Without(was, dead) + [mine.value])
        && (mine.Some? ==> |acquisitions| <= capacity)
        && (|was| >= capacity && dead == {} ==> acquisitions == was)
    {
      var acquired := TryAcquire(Holder(ids.0, expiry));
      if acquired { return Some(Holder(ids.0, expiry)); }
      var list, toBeRemoved := acquisitions, [];
      for i := 0 to |list|
        invariant acquisitions == list == old(acquisitions)
        invariant (set id | id in toBeRemoved) == Dead(list[..i], records, now)
      {
        DeadSnoc(list, i, records, now);
        if now > list[i].expiry {
          if list[i].id !in records {
            toBeRemoved := toBeRemoved + [list[i].id];
          }
        }
      }
      assert list[..|list|] == list;
      ghost var dead := Dead(list, records, now);
      assert toBeRemoved == [] <==> dead == {} by {
        if toBeRemoved != [] { assert toBeRemoved[0] in dead; }
      }
      if |toBeRemoved| > 0 {
        WithoutNone(list);
        assert Firsts(toBeRemoved, 0) == {};
        for i := 0 to |toBeRemoved|
          invariant acquisitions == Without(list, Firsts(toBeRemoved, i))
        {
          ghost var before := Firsts(toBeRemoved, i);
          WithoutTwice(list, before, {toBeRemoved[i]});
          assert Firsts(toBeRemoved, i + 1) == before + {toBeRemoved[i]};
          var released := Release(toBeRemoved[i]);
        }
        assert Firsts(toBeRemoved, |toBeRemoved|) == dead;
        assert toBeRemoved[0] in dead && toBeRemoved[0] in Ids(list) * dead;
        WithoutIds(list, dead);
        acquired := TryAcquire(Holder(ids.1, expiry));
        if acquired { return Some(Holder(ids.1, expiry)); }
      }
      mine := None;
    }
  }

  lemma DeadSnoc(list: seq<Holder>, i: nat, records: map<Id, nat>, now: nat)
    requires i < |list|
    ensures Dead(list[..i + 1], records, now) == Dead(list[..i], records, now) +
      if now > list[i].expiry && list[i].id !in records then {list[i].id} else {}
  {
    var a, b := list[..i], list[..i + 1];
    forall id | id in Dead(b, records, now) && !(now > list[i].expiry && list[i].id !in records && id == list[i].id)
      ensures id in Dead(a, records, now)
    {
      var k :| 0 <= k < |b| && now > b[k].expiry && b[k].id !in records && b[k].id == id;
      assert a[k] == b[k];
    }
    forall id | id in Dead(a, records, now) ensures id in Dead(b, records, now) {
      var k :| 0 <= k < |a| && now > a[k].expiry && a[k].id !in records && a[k].id == id;
      assert b[k] == a[k];
    }
    assert b[i] == list[i];
  }

  /** A holder with a record, or one that is not yet past its date, stays on the list through a reclaim. */
  lemma ReclaimKeepsTheLiving(list: seq<Holder>, records: map<Id, nat>, now: nat, i: nat)
    requires i < |list| && (list[i].id in records || forall k :: 0 <= k < |list| && list[k].id == list[i].id ==> now <= list[k].expiry)
    ensures list[i].id in Ids(Without(list, Dead(list, records, now)))
  {
    WithoutIds(list, Dead(list, records, now));
    assert list[i].id in Ids(list);
  }

  /** The rest of a scan, with nobody in between, adds exactly the dead of the rest of the list. */
  lemma {:induction false} ScanFindsTheDead(s: Sem, p: nat)
    requires Enabled(s, p) && s.points[p].Scan? && s.points[p].i <= |s.points[p].list|
    ensures var pt := s.points[p];
      var found := pt.dead + Dead(pt.list[pt.i..], s.records, s.lock.now);
      Exec(s, Steps(p, |pt.list| - pt.i)) == At(s, p, Scan(pt.list, |pt.list|, found))
    decreases |s.points[p].list| - s.points[p].i
  {
    var pt := s.points[p];
    if pt.i < |pt.list| {
      var s1 := Next(s, Step(p));
      assert Steps(p, |pt.list| - pt.i)[1..] == Steps(p, |pt.list| - pt.i - 1);
      DeadHead(pt.list[pt.i..], s.records, s.lock.now);
      assert pt.list[pt.i..][1..] == pt.list[pt.i + 1..];
      ScanFindsTheDead(s1, p);
      assert s1.points[p].dead + Dead(pt.list[pt.i + 1..], s.records, s.lock.now) ==
             pt.dead + Dead(pt.list[pt.i..], s.records, s.lock.now);
    } else {
      assert Dead(pt.list[pt.i..], s.records, s.lock.now) == {};
      assert pt.dead + {} == pt.dead;
      assert s.points[p := pt] == s.points;
    }
  }

  function Steps(p: nat, k: nat): (es: seq<Event>)
    ensures |es| == k
  {
    seq(k, _ => Step(p))
  }

  lemma DeadHead(list: seq<Holder>, records: map<Id, nat>, now: nat)
    requires list != []
    ensures Dead(list, records, now) ==
      (if now > list[0].expiry && list[0].id !in records then {list[0].id} else {}) + Dead(list[1..], records, now)
  {
    forall id | id in Dead(list[1..], records, now) ensures id in Dead(list, records, now) {
      var k :| 0 <= k < |list[1..]| && now > list[1..][k].expiry && list[1..][k].id !in records && list[1..][k].id == id;
      assert list[k + 1] == list[1..][k];
    }
    forall id | id in Dead(list, records, now) && !(id == list[0].id && now > list[0].expiry)
      ensures id in Dead(list[1..], records, now)
    {
      var k :| 0 <= k < |list| && now > list[k].expiry && list[k].id !in records && list[k].id == id;
      assert k > 0 && list[1..][k - 1] == list[k];
    }
  }
}
