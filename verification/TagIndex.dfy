/** The tag index of data protection: a list of keys kept under the tag's key lock.

    Any number of clients add keys and remove the whole tag, one cache call a step. Adders lock without a
    lease, removers with one. */
module TagIndex {
  import opened Cache
  import opened KeyLock

  const TAG: Key := Key.Tag(0)

  datatype Point =
    | Out
    | Look(key: nat)                               // AddUsingTag: Get(tag)
    | AddTag(key: nat)                             // Add(tag, empty list)
    | LockAdd(key: nat)                            // LockKey, or Get(tag) once it holds
    | WriteItem(key: nat, tags: seq<nat>)          // Insert(key, item)
    | WriteList(key: nat, tags: seq<nat>)          // Insert(tag, tags and key)
    | UnlockAdd(key: nat)
    | Added(key: nat)
    | RemLook                                      // RemoveUsingTag: Contains(tag)
    | LockRem                                      // LockKey, or Get(tag) once it holds
    | RemBulk(keys: seq<nat>)                      // RemoveBulk(keys)
    | RemTag                                       // Remove(tag)
    | UnlockRem
    | Removed

  /** `list`: the value of the tag; `items`: the keys in the cache. `since` keeps the adds that wrote the list
      since the tag was last removed, in order; `swept` the keys a remover took out since then. */
  datatype Index = Index(lock: KeyLock.State, list: Option<seq<nat>>, items: set<nat>, points: seq<Point>,
                         since: seq<nat>, swept: set<nat>, written: set<nat>)

  datatype Event =
    | SubmitAdd(p: nat, key: nat)
    | SubmitRemove(p: nat)
    | Step(p: nat)
    | Retry(p: nat)                  // the loop around LockKey goes round
    | Die(p: nat)
    | Wait(d: nat)

  function Init(n: nat): Index {
    Index(KeyLock.Init(n), None, {}, seq(n, _ => Out), [], {}, {})
  }

  /** The lease of a remover's lock, in seconds. */
  const LEASE: Duration := 10

  function At(s: Index, p: nat, pt: Point): Index
    requires p < |s.points|
  {
    s.(points := s.points[p := pt])
  }

  predicate Alive(s: Index, p: nat) {
    p < |s.points| && p < |s.lock.procs| && !s.lock.procs[p].Crashed?
  }

  predicate Ready(s: Index, p: nat) {
    Alive(s, p) && (s.points[p].Out? || s.points[p].Added? || s.points[p].Removed?)
  }

  predicate Outside(ph: Phase) {
    ph.Idle? || ph.Refused?
  }

  predicate Locking(pt: Point) {
    pt.LockAdd? || pt.LockRem?
  }

  predicate Unlocking(pt: Point) {
    pt.UnlockAdd? || pt.UnlockRem?
  }

  predicate Inside(pt: Point) {
    pt.WriteItem? || pt.WriteList? || pt.RemBulk? || pt.RemTag?
  }

  predicate Waiting(s: Index, p: nat) {
    Alive(s, p) && Locking(s.points[p]) && Outside(s.lock.procs[p])
  }

  function Listed(s: Index): seq<nat> {
    if s.list.Some? then s.list.value else []
  }

  function Elements(keys: seq<nat>): set<nat> {
    set k | k in keys
  }

  /** A step of a client that holds the tag's lock. */
  function InsideStep(s: Index, p: nat): Index
    requires p < |s.points|
  {
    match s.points[p]
    case LockAdd(k) => At(s, p, WriteItem(k, Listed(s)))
    case WriteItem(k, tags) => At(s, p, WriteList(k, tags)).(items := s.items + {k}, written := s.written + {k})
    case WriteList(k, tags) =>
      At(s, p, UnlockAdd(k)).(list := Some(tags + [k]), since := s.since + [k],
        lock := KeyLock.Next(s.lock, BeginUnlock(p)))
    case LockRem => At(s, p, if Listed(s) == [] then RemTag else RemBulk(Listed(s)))
    case RemBulk(keys) =>
      At(s, p, RemTag).(items := s.items - Elements(keys), swept := s.swept + Elements(keys))
    case RemTag =>
      At(s, p, UnlockRem).(list := None, since := [], swept := {}, lock := KeyLock.Next(s.lock, BeginUnlock(p)))
    case _ => s
  }

  /** The remover's loop: Contains(tag), and into `LockKey` if it is there. */
  function RemCheck(s: Index, p: nat): Index
    requires p < |s.points|
  {
    if s.list.None? then At(s, p, Removed)
    else At(s, p, LockRem).(lock := KeyLock.Next(s.lock, Begin(p, TAG, Some(LEASE), false)))
  }

  function StepOf(s: Index, p: nat): Index
    requires Alive(s, p)
  {
    var pt := s.points[p];
    if Inside(pt) then (if Holds(s.lock, p, TAG) then InsideStep(s, p) else s)
    else if Locking(pt) then
      if Holds(s.lock, p, TAG) then InsideStep(s, p)
      else s.(lock := KeyLock.Next(s.lock, Call(p, s.list.Some?)))
    else if Unlocking(pt) then
      if s.lock.procs[p].Idle? then At(s, p, if pt.UnlockAdd? then Added(pt.key) else Removed)
      else s.(lock := KeyLock.Next(s.lock, Call(p, true)))
    else if pt.Look? then At(s, p, if s.list.None? then AddTag(pt.key) else LockAdd(pt.key))
    else if pt.AddTag? then At(s, p, LockAdd(pt.key)).(list := if s.list.None? then Some([]) else s.list)
    else if pt.RemLook? then RemCheck(s, p)
    else s
  }

  function RetryOf(s: Index, p: nat): Index
    requires Waiting(s, p)
  {
    if s.points[p].LockRem? then RemCheck(s, p)
    else s.(lock := KeyLock.Next(s.lock, Begin(p, TAG, None, false)))
  }

  function Next(s: Index, e: Event): Index {
    match e
    case SubmitAdd(p, k) => if Ready(s, p) then At(s, p, Look(k)) else s
    case SubmitRemove(p) => if Ready(s, p) then At(s, p, RemLook) else s
    case Step(p) => if Alive(s, p) then StepOf(s, p) else s
    case Retry(p) => if Waiting(s, p) then RetryOf(s, p) else s
    case Die(p) => s.(lock := KeyLock.Next(s.lock, Crash(p)))
    case Wait(d) => s.(lock := KeyLock.Next(s.lock, Tick(d)))
  }

  function Exec(s: Index, es: seq<Event>): Index
    decreases |es|
  {
    if es == [] then s else Exec(Next(s, es[0]), es[1..])
  }

  // ---- Invariant ----

  /** What client `p` knows of the list while it holds the lock. */
  predicate Knows(s: Index, p: nat)
    requires p < |s.points|
  {
    var pt := s.points[p];
    && s.list.Some?
    && (pt.WriteItem? || pt.WriteList? ==> pt.tags == s.list.value)
    && (pt.WriteList? ==> pt.key in s.items)
    && (pt.RemBulk? ==> pt.keys == s.list.value)
  }

  predicate PointOk(s: Index, p: nat)
    requires p < |s.points| && p < |s.lock.procs|
  {
    var pt, ph := s.points[p], Core(s.lock.procs[p]);
    && (Inside(pt) ==> ph.Held? && ph.key == TAG)
    && (Locking(pt) ==> Outside(ph) || (!ph.Crashed? && ph.key == TAG && !ph.CheckToken? && !ph.RemoveLock?))
    && (Unlocking(pt) ==> ph.Idle? || ph.CheckToken? || ph.RemoveLock?)
    && (!Inside(pt) && !Locking(pt) && !Unlocking(pt) ==> Outside(ph))
    && (s.lock.procs[p].Held? ==> Knows(s, p))
  }

  ghost predicate ListOk(s: Index) {
    && Listed(s) == s.since
    && (forall k :: k in s.since ==> k in s.items || k in s.swept)
    && s.items <= s.written && s.swept <= s.written
    && (s.swept != {} ==> exists p :: 0 <= p < |s.points| && s.points[p].RemTag?)
  }

  ghost predicate Inv(s: Index) {
    && KeyLock.Inv(s.lock)
    && |s.points| == |s.lock.procs|
    && (forall p :: 0 <= p < |s.points| ==> PointOk(s, p))
    && ListOk(s)
  }

  lemma InitInv(n: nat)
    ensures Inv(Init(n))
  {
    KeyLock.InitInv(n);
  }

  /** A step of the lock protocol while the data stays. */
  lemma LockStepInv(s: Index, e: KeyLock.Event)
    requires Inv(s) && !e.ForceUnlock? && !e.Overrun? && !e.BeginUnlock?
    requires e.Begin? ==> e.p < |s.points| && Locking(s.points[e.p]) && e.key == TAG
    requires e.Call? && e.p < |s.points| ==> Unlocking(s.points[e.p]) || (Locking(s.points[e.p]) && e.present == s.list.Some?)
    ensures Inv(s.(lock := KeyLock.Next(s.lock, e)))
  {
    var s' := s.(lock := KeyLock.Next(s.lock, e));
    KeyLock.NextInv(s.lock, e);
    assert ListOk(s') by {
      if s.swept != {} {
        var p :| 0 <= p < |s.points| && s.points[p].RemTag?;
        assert s'.points[p].RemTag?;
      }
    }
    forall p | 0 <= p < |s'.points| ensures PointOk(s', p) {
      assert PointOk(s, p);
      Frame(s.lock, e, p);
      if By(e, p) { LockPhase(s, e, p); }
    }
  }

  lemma LockPhase(s: Index, e: KeyLock.Event, p: nat)
    requires p < |s.points| == |s.lock.procs| && PointOk(s, p)
    requires By(e, p) && !e.BeginUnlock?
    requires e.Begin? ==> Locking(s.points[p]) && e.key == TAG
    requires e.Call? ==> Unlocking(s.points[p]) || (Locking(s.points[p]) && e.present == s.list.Some?)
    ensures PointOk(s.(lock := KeyLock.Next(s.lock, e)), p)
  {
  }

  /** A move of client `p` that leaves the list and the lock alone. */
  lemma MoveInv(s: Index, p: nat, pt: Point)
    requires Inv(s) && p < |s.points| && !s.points[p].RemTag?
    requires PointOk(At(s, p, pt), p)
    ensures Inv(At(s, p, pt))
  {
    var s' := At(s, p, pt);
    forall q | 0 <= q < |s'.points| ensures PointOk(s', q) {
      assert PointOk(s, q);
    }
    if s.swept != {} {
      var q :| 0 <= q < |s.points| && s.points[q].RemTag?;
      assert s'.points[q].RemTag?;
    }
  }

  /** A change made by the lock's holder `p`: nobody else holds what it knows. */
  lemma HolderInv(s: Index, p: nat, s': Index)
    requires Inv(s) && p < |s.points| && Holds(s.lock, p, TAG)
    requires |s'.points| == |s.points| && s'.points == s.points[p := s'.points[p]]
    requires s'.lock == s.lock || s'.lock == KeyLock.Next(s.lock, BeginUnlock(p))
    requires p < |s'.lock.procs| && PointOk(s', p) && ListOk(s')
    ensures Inv(s')
  {
    KeyLock.NextInv(s.lock, BeginUnlock(p));
    forall q | 0 <= q < |s'.points| ensures PointOk(s', q) {
      assert PointOk(s, q) && KeyLock.ClientOk(s.lock, q);
      Frame(s.lock, BeginUnlock(p), q);
      if q != p {
        OnlyHolder(s, p, q);
      }
    }
  }

  lemma OnlyHolder(s: Index, p: nat, q: nat)
    requires Inv(s) && p < |s.points| && q < |s.points| && q != p && Holds(s.lock, p, TAG)
    ensures !s.lock.procs[q].Held?
  {
    assert PointOk(s, q);
    if s.lock.procs[q].Held? {
      OneOwner(s.lock, p, q, TAG);
    }
  }

  lemma AdderStep(s: Index, p: nat)
    requires Inv(s) && p < |s.points| && Holds(s.lock, p, TAG)
    requires s.points[p].LockAdd? || s.points[p].WriteItem? || s.points[p].WriteList?
    ensures Inv(InsideStep(s, p))
  {
    var s' := InsideStep(s, p);
    assert PointOk(s, p);
    assert s.swept != {} ==> exists q :: 0 <= q < |s'.points| && s'.points[q].RemTag? by {
      if s.swept != {} {
        var q :| 0 <= q < |s.points| && s.points[q].RemTag?;
        assert s'.points[q].RemTag?;
      }
    }
    HolderInv(s, p, s');
  }

  lemma RemoverStep(s: Index, p: nat)
    requires Inv(s) && p < |s.points| && Holds(s.lock, p, TAG)
    requires s.points[p].LockRem? || s.points[p].RemBulk? || s.points[p].RemTag?
    ensures Inv(InsideStep(s, p))
  {
    var s' := InsideStep(s, p);
    assert PointOk(s, p);
    if s.points[p].LockRem? || s.points[p].RemBulk? {
      assert s'.swept != {} ==> exists q :: 0 <= q < |s'.points| && s'.points[q].RemTag? by {
        if s.swept != {} {
          var q :| 0 <= q < |s.points| && s.points[q].RemTag?;
          assert s'.points[q].RemTag?;
        } else if s'.swept != {} {
          assert s'.points[p].RemTag?;
        }
      }
      assert forall k :: k in s.since && s.points[p].RemBulk? ==> k in s'.swept;
      assert Elements(Listed(s)) <= s.written;
    }
    HolderInv(s, p, s');
  }

  lemma AddTagInv(s: Index, p: nat)
    requires Inv(s) && Alive(s, p) && s.points[p].AddTag?
    ensures Inv(StepOf(s, p))
  {
    var s', pt := StepOf(s, p), LockAdd(s.points[p].key);
    assert PointOk(s, p);
    MoveInv(s, p, pt);
    forall q | 0 <= q < |s'.points| ensures PointOk(s', q) {
      assert PointOk(At(s, p, pt), q);
    }
    assert ListOk(At(s, p, pt));
    assert ListOk(s');
  }

  lemma RemCheckInv(s: Index, p: nat)
    requires Inv(s) && Alive(s, p) && (s.points[p].RemLook? || Waiting(s, p))
    ensures Inv(RemCheck(s, p))
  {
    assert PointOk(s, p);
    if s.list.None? {
      MoveInv(s, p, Removed);
    } else {
      MoveInv(s, p, LockRem);
      LockStepInv(At(s, p, LockRem), Begin(p, TAG, Some(LEASE), false));
    }
  }

  lemma StepInv(s: Index, p: nat)
    requires Inv(s) && Alive(s, p)
    ensures Inv(StepOf(s, p))
  {
    var pt := s.points[p];
    assert PointOk(s, p);
    if Inside(pt) || (Locking(pt) && Holds(s.lock, p, TAG)) {
      if Holds(s.lock, p, TAG) {
        if pt.LockAdd? || pt.WriteItem? || pt.WriteList? {
          AdderStep(s, p);
        } else {
          RemoverStep(s, p);
        }
      }
    } else if Locking(pt) {
      LockStepInv(s, Call(p, s.list.Some?));
    } else if Unlocking(pt) {
      if s.lock.procs[p].Idle? {
        MoveInv(s, p, StepOf(s, p).points[p]);
      } else {
        LockStepInv(s, Call(p, true));
      }
    } else if pt.AddTag? {
      AddTagInv(s, p);
    } else if pt.RemLook? {
      RemCheckInv(s, p);
    } else if pt.Look? {
      MoveInv(s, p, StepOf(s, p).points[p]);
    }
  }

  lemma NextInv(s: Index, e: Event)
    requires Inv(s)
    ensures Inv(Next(s, e))
  {
    if e.SubmitAdd? || e.SubmitRemove? {
      if Ready(s, e.p) {
        assert PointOk(s, e.p);
        MoveInv(s, e.p, Next(s, e).points[e.p]);
      }
    } else if e.Step? {
      if Alive(s, e.p) { StepInv(s, e.p); }
    } else if e.Retry? {
      if Waiting(s, e.p) {
        if s.points[e.p].LockRem? {
          RemCheckInv(s, e.p);
        } else {
          LockStepInv(s, Begin(e.p, TAG, None, false));
        }
      }
    } else if e.Die? {
      LockStepInv(s, Crash(e.p));
    } else {
      LockStepInv(s, Tick(e.d));
    }
  }

  lemma {:induction false} ExecInv(s: Index, es: seq<Event>)
    requires Inv(s)
    ensures Inv(Exec(s, es))
    decreases |es|
  {
    if es != [] {
      NextInv(s, es[0]);
      hide Next, Inv;
      ExecInv(Next(s, es[0]), es[1..]);
    }
  }

  // ---- Main results ----

  /** The list is exactly the keys whose adds wrote it since the last removal, in lock order, and each of
      them is in the cache unless a remover that has not yet removed the tag took it out. */
  lemma {:induction false} NoAddIsLost(n: nat, es: seq<Event>, k: nat)
    ensures var s := Exec(Init(n), es);
      && Listed(s) == s.since
      && (k in Listed(s) ==> k in s.written && (k in s.items || k in s.swept))
      && ((forall p :: 0 <= p < |s.points| ==> !s.points[p].RemTag?) && k in Listed(s) ==> k in s.items)
  {
    InitInv(n);
    ExecInv(Init(n), es);
  }

  /** An add appends its own key, a removal empties the list; no other step changes what was added. */
  lemma OnlyHoldersChangeTheList(s: Index, e: Event)
    requires Inv(s)
    ensures var s' := Next(s, e);
      if e.Step? && Alive(s, e.p) && Holds(s.lock, e.p, TAG) && s.points[e.p].WriteList? then
        Listed(s') == Listed(s) + [s.points[e.p].key] && s.points[e.p].key in s'.items
      else if e.Step? && Alive(s, e.p) && Holds(s.lock, e.p, TAG) && s.points[e.p].RemTag? then s'.list.None?
      else Listed(s') == Listed(s)
  {
    if e.Step? && Alive(s, e.p) { assert PointOk(s, e.p); }
  }

  // ---- An add that never ends ----

  /** A live client that has yet to make its own `Add` of the tag. */
  predicate WillAddTag(s: Index, p: nat) {
    Alive(s, p) && (s.points[p].Look? || s.points[p].AddTag?)
  }

  /** The tag is gone, nobody holds its lock, and no live client is before its own `Add` of the tag. */
  predicate TagGone(s: Index) {
    && s.list.None?
    && (forall p :: 0 <= p < |s.lock.procs| ==> !s.lock.procs[p].Held?)
    && (forall p :: 0 <= p < |s.points| ==> !WillAddTag(s, p))
  }

  predicate NoNewAdd(es: seq<Event>) {
    forall i :: 0 <= i < |es| ==> !es[i].SubmitAdd?
  }

  lemma NobodyGetsIn(s: Index, e: Event, p: nat)
    requires Inv(s) && TagGone(s) && p < |s.lock.procs|
    ensures p < |Next(s, e).lock.procs| && !Next(s, e).lock.procs[p].Held?
  {
    assert PointOk(s, p);
    if e.Step? && Alive(s, e.p) {
      assert PointOk(s, e.p) && !Holds(s.lock, e.p, TAG);
    }
  }

  lemma NoTagAdded(s: Index, e: Event)
    requires TagGone(s) && !e.SubmitAdd?
    ensures Next(s, e).list.None? && |Next(s, e).points| == |s.points| && |Next(s, e).lock.procs| == |s.lock.procs|
    ensures forall p :: 0 <= p < |s.points| && s.points[p].LockAdd? ==> Next(s, e).points[p] == s.points[p]
  {
    if e.Step? && Alive(s, e.p) { assert !WillAddTag(s, e.p); }
  }

  lemma NobodyWillAdd(s: Index, e: Event, p: nat)
    requires TagGone(s) && !e.SubmitAdd?
    ensures !WillAddTag(Next(s, e), p)
  {
    if p < |s.points| { assert !WillAddTag(s, p); }
    if e.Step? && Alive(s, e.p) { assert !WillAddTag(s, e.p); }
    if e.Die? {
      KeyLock.Frame(s.lock, Crash(e.p), p);
      KeyLock.StaysCrashed(s.lock, Crash(e.p), p);
    } else if e.Wait? {
      KeyLock.Frame(s.lock, Tick(e.d), p);
    }
  }

  lemma TagGoneStays(s: Index, e: Event)
    requires Inv(s) && TagGone(s) && !e.SubmitAdd?
    ensures TagGone(Next(s, e))
  {
    NoTagAdded(s, e);
    forall p | 0 <= p < |Next(s, e).points| ensures !WillAddTag(Next(s, e), p) {
      NobodyWillAdd(s, e, p);
    }
    forall p | 0 <= p < |Next(s, e).lock.procs| ensures !Next(s, e).lock.procs[p].Held? {
      NobodyGetsIn(s, e, p);
    }
  }

  /** An `AddUsingTag` that made its own `Add` of the tag before a removal took it out again goes round its
      loop until some other add brings the tag back: `LockKey` refuses a key that is not there. */
  lemma {:induction false} AddWaitsForAnotherAdd(s: Index, es: seq<Event>, p: nat)
    requires Inv(s) && TagGone(s) && NoNewAdd(es) && p < |s.points| && s.points[p].LockAdd?
    ensures var s' := Exec(s, es); p < |s'.points| && s'.points[p] == s.points[p] && TagGone(s')
    decreases |es|
  {
    if es != [] {
      NextInv(s, es[0]);
      NoTagAdded(s, es[0]);
      TagGoneStays(s, es[0]);
      hide Next, TagGone, Inv;
      AddWaitsForAnotherAdd(Next(s, es[0]), es[1..], p);
    }
  }

  /** A removal leaves such a state behind whenever the other clients are past their own `Add` of the tag. */
  lemma RemovalStrandsAdders(s: Index, q: nat)
    requires Inv(s) && Alive(s, q) && s.points[q].RemTag? && Holds(s.lock, q, TAG)
    requires forall p :: 0 <= p < |s.points| ==> !WillAddTag(s, p)
    ensures TagGone(Next(s, Step(q)))
  {
    var s' := Next(s, Step(q));
    forall p | 0 <= p < |s'.points| ensures !WillAddTag(s', p) {
      assert !WillAddTag(s, p);
      Frame(s.lock, BeginUnlock(q), p);
    }
    forall p | 0 <= p < |s'.lock.procs| ensures !s'.lock.procs[p].Held? {
      Frame(s.lock, BeginUnlock(q), p);
      if p != q {
        OnlyHolder(s, q, p);
      }
    }
  }

  // ---- Exactly when an add can get the lock ----

  lemma First(s: Index, e: Event, es: seq<Event>)
    ensures Exec(s, [e] + es) == Exec(Next(s, e), es)
  {
    assert ([e] + es)[1..] == es;
  }

  /** `k` steps of client `p`. */
  function Steps(p: nat, k: nat): (es: seq<Event>)
    ensures NoNewAdd(es)
  {
    if k == 0 then [] else [Step(p)] + Steps(p, k - 1)
  }

  /** One turn of the adder's loop, undisturbed. */
  function Attempt(p: nat): (es: seq<Event>)
    ensures NoNewAdd(es)
  {
    [Retry(p)] + Steps(p, 4)
  }

  lemma OneStep(s: Index, p: nat, k: nat)
    requires k > 0
    ensures Exec(s, Steps(p, k)) == Exec(Next(s, Step(p)), Steps(p, k - 1))
  {
    First(s, Step(p), Steps(p, k - 1));
    hide Next;
  }

  lemma NoSteps(s: Index, p: nat)
    ensures Exec(s, Steps(p, 0)) == s
  {
  }

  /** A step of a client on its way through `LockKey`. */
  lemma LockCall(s: Index, lock: KeyLock.State, p: nat)
    requires p < |s.points| && Locking(s.points[p]) && s.list.Some?
    requires p < |lock.procs| && !lock.procs[p].Crashed? && !Holds(lock, p, TAG)
    ensures Next(s.(lock := lock), Step(p)) == s.(lock := KeyLock.CallOf(lock, p, true))
  {
  }

  /** Wherever it is in `LockKey`, with the tag there and unlocked, its steps lock it. */
  lemma {:induction false} GoesOn(s: Index, lock: KeyLock.State, p: nat, k: nat)
    requires p < |s.points| && Locking(s.points[p]) && s.list.Some?
    requires KeyLock.Approaching(lock, p) && lock.procs[p].key == TAG
    ensures Exec(s.(lock := lock), Steps(p, k + KeyLock.CallsLeft(lock.procs[p]))) ==
            Exec(s.(lock := KeyLock.Reached(lock, p)), Steps(p, k))
    decreases KeyLock.CallsLeft(lock.procs[p])
  {
    if !lock.procs[p].Held? {
      KeyLock.Nearer(lock, p);
      LockCall(s, lock, p);
      OneStep(s.(lock := lock), p, k + KeyLock.CallsLeft(lock.procs[p]));
      hide Next, Exec, Steps, KeyLock.CallOf, KeyLock.Reached;
      GoesOn(s, KeyLock.CallOf(lock, p, true), p, k);
    }
  }

  lemma AttemptLocks(s: Index, p: nat)
    requires Waiting(s, p) && s.points[p].LockAdd? && s.list.Some? && TAG !in s.lock.locks
    ensures Exec(s, Attempt(p)) == s.(lock := KeyLock.Locked(s.lock, p, TAG, None))
  {
    var ph := CheckKey(TAG, None);
    First(s, Retry(p), Steps(p, 4));
    assert Next(s, Retry(p)) == s.(lock := KeyLock.At(s.lock, p, ph));
    KeyLock.LockedFrom(s.lock, p, ph, TAG, None);
    GoesOn(s, KeyLock.At(s.lock, p, ph), p, 0);
    NoSteps(s.(lock := KeyLock.Locked(s.lock, p, TAG, None)), p);
    hide Next, Exec, Steps;
  }

  lemma ExecNone(s: Index)
    ensures Exec(s, []) == s
  {
  }

  /** The client that has yet to make its `Add` of the tag makes it, and leaves the lock alone. */
  lemma TagComesBack(s: Index, p: nat, q: nat) returns (es: seq<Event>)
    requires Waiting(s, p) && s.points[p].LockAdd? && TAG !in s.lock.locks && WillAddTag(s, q) && s.list.None?
    ensures var s' := Exec(s, es);
      NoNewAdd(es) && s'.list.Some? && s'.lock == s.lock && Waiting(s', p) && s'.points[p] == s.points[p]
  {
    var s1 := Next(s, Step(q));
    if s.points[q].AddTag? {
      es := [Step(q)] + [];
      First(s, Step(q), []);
    } else {
      assert s1 == At(s, q, AddTag(s.points[q].key));
      es := [Step(q)] + ([Step(q)] + []);
      First(s, Step(q), [Step(q)] + []);
      First(s1, Step(q), []);
    }
  }

  lemma {:induction false} ExecConcat(s: Index, a: seq<Event>, b: seq<Event>)
    ensures Exec(s, a + b) == Exec(Exec(s, a), b)
    decreases |a|
  {
    if a == [] {
      assert a + b == b;
    } else {
      assert (a + b)[1..] == a[1..] + b;
      hide Next;
      ExecConcat(Next(s, a[0]), a[1..], b);
    }
  }

  /** Some run without new adds gives the waiting adder `p` the tag's lock. */
  ghost predicate CanLock(s: Index, p: nat) {
    exists es: seq<Event> :: NoNewAdd(es) && Holds(Exec(s, es).lock, p, TAG)
  }

  lemma TagThereCanLock(s: Index, p: nat)
    requires Waiting(s, p) && s.points[p].LockAdd? && s.list.Some? && TAG !in s.lock.locks
    ensures NoNewAdd(Attempt(p)) && Holds(Exec(s, Attempt(p)).lock, p, TAG)
  {
    AttemptLocks(s, p);
  }

  lemma NobodyHolds(s: Index)
    requires Inv(s) && s.list.None?
    requires TAG !in s.lock.locks && forall q :: 0 <= q < |s.points| ==> !WillAddTag(s, q)
    ensures TagGone(s)
  {
    forall q | 0 <= q < |s.lock.procs| ensures !s.lock.procs[q].Held? {
      assert PointOk(s, q) && KeyLock.ClientOk(s.lock, q);
    }
  }

  /** A live adder that waits at its loop, with the tag's lock free, can get the lock without a further add if
      and only if the tag is there or some live client has yet to make its own `Add` of it. */
  lemma {:induction false} AddGetsTheLockExactlyWhen(s: Index, p: nat)
    requires Inv(s) && Waiting(s, p) && s.points[p].LockAdd? && TAG !in s.lock.locks
    ensures CanLock(s, p) <==> s.list.Some? || exists q: nat :: WillAddTag(s, q)
  {
    if s.list.Some? {
      TagThereCanLock(s, p);
    } else if exists q: nat :: WillAddTag(s, q) {
      var q: nat :| WillAddTag(s, q);
      var es := TagComesBack(s, p, q);
      TagThereCanLock(Exec(s, es), p);
      ExecConcat(s, es, Attempt(p));
      assert NoNewAdd(es + Attempt(p));
    } else {
      NobodyHolds(s);
      forall es: seq<Event> | NoNewAdd(es) ensures !Holds(Exec(s, es).lock, p, TAG) {
        AddWaitsForAnotherAdd(s, es, p);
      }
    }
  }
}
