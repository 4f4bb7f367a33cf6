/** `NCacheLockGuard`: read-modify-write of a cached value under its key lock.

    Any number of clients make sure a key exists, lock it by `LockKey`, read the
    value, write what their action makes of it, and unlock. Every cache call is a
    step of its own. The actions take effect one by one, in lock order. */
module LockGuard {
  import opened Cache
  import opened KeyLock

  /** What an action does with the value it read. */
  datatype Change<V> = Put(value: V) | Leave | Drop

  type Action<!V> = V -> Change<V>

  datatype Point<!V> =
    | Out
    | EnsureCheck(key: Key, act: Action<V>)                  // Contains(key)
    | EnsureAdd(key: Key, act: Action<V>)                    // Add(key, factory())
    | Locking(key: Key, act: Action<V>)                      // in the guard's Acquire, or about to Get(key)
    | Writing(key: Key, act: Action<V>, read: V)             // Insert or Remove
    | Leaving(key: Key, act: Action<V>, at: nat)             // in UnlockKey; its entry is log[at]
    | Done(key: Key, act: Action<V>, at: nat)                // Execute returned
    | TimedOut                                               // Acquire threw

  /** Client `client` applied `act` to `key` while holding the lock under `token`. */
  datatype Entry<!V> = Entry(client: nat, key: Key, token: Token, act: Action<V>)

  datatype Guard<!V> = Guard(
    lock: KeyLock.State, empty: Key -> V, data: map<Key, V>, points: seq<Point<V>>, log: seq<Entry<V>>)

  datatype Event<!V> =
    | Submit(p: nat, key: Key, act: Action<V>, lease: Duration, ensure: bool)
    | Step(p: nat)                            // the client's next cache call
    | Retry(p: nat, lease: Duration)          // Acquire goes round its loop
    | GiveUp(p: nat)                          // Acquire has waited long enough
    | Die(p: nat)
    | Wait(d: nat)

  ghost function Init<V>(n: nat, empty: Key -> V): Guard<V> {
    Guard(KeyLock.Init(n), empty, map[], seq(n, _ => Out), [])
  }

  /** The value of a key; an absent one reads as its empty value. */
  ghost function Current<V>(s: Guard<V>, k: Key): V {
    if k in s.data then s.data[k] else s.empty(k)
  }

  ghost function Effect<V>(empty: V, act: Action<V>, v: V): V {
    match act(v)
    case Put(w) => w
    case Leave => v
    case Drop => empty
  }

  ghost function Changed<V>(s: Guard<V>, k: Key, act: Action<V>, v: V): map<Key, V> {
    match act(v)
    case Put(w) => s.data[k := w]
    case Leave => s.data
    case Drop => s.data - {k}
  }

  ghost function At<V>(s: Guard<V>, p: nat, pt: Point<V>): Guard<V>
    requires p < |s.points|
  {
    s.(points := s.points[p := pt])
  }

  predicate Alive<V>(s: Guard<V>, p: nat) {
    p < |s.points| && p < |s.lock.procs| && !s.lock.procs[p].Crashed?
  }

  ghost function StepOf<V>(s: Guard<V>, p: nat): Guard<V>
    requires Alive(s, p)
  {
    match s.points[p]
    case EnsureCheck(k, act) =>
      At(s, p, if k in s.data then Locking(k, act) else EnsureAdd(k, act))
    case EnsureAdd(k, act) =>
      At(s, p, Locking(k, act)).(data := if k in s.data then s.data else s.data[k := s.empty(k)])
    case Locking(k, act) =>
      if Holds(s.lock, p, k) then At(s, p, Writing(k, act, Current(s, k)))
      else s.(lock := KeyLock.Next(s.lock, Call(p, k in s.data)))
    case Writing(k, act, v) =>
      if !Holds(s.lock, p, k) then s else
      At(s, p, Leaving(k, act, |s.log|)).(
        lock := KeyLock.Next(s.lock, BeginUnlock(p)),
        data := Changed(s, k, act, v),
        log := s.log + [Entry(p, k, s.lock.procs[p].token, act)])
    case Leaving(k, act, at) =>
      if s.lock.procs[p].Idle? then At(s, p, Done(k, act, at))
      else s.(lock := KeyLock.Next(s.lock, Call(p, true)))
    case _ => s
  }

  ghost predicate Ready<V>(s: Guard<V>, p: nat) {
    Alive(s, p) && (s.points[p].Out? || s.points[p].Done? || s.points[p].TimedOut?)
  }

  ghost predicate Waiting<V>(s: Guard<V>, p: nat) {
    Alive(s, p) && s.points[p].Locking? && (s.lock.procs[p].Idle? || s.lock.procs[p].Refused?)
  }

  ghost function Next<V>(s: Guard<V>, e: Event<V>): Guard<V> {
    match e
    case Submit(p, k, act, lease, ensure) =>
      if Ready(s, p) then At(s, p, if ensure then EnsureCheck(k, act) else Locking(k, act)) else s
    case Step(p) => if Alive(s, p) then StepOf(s, p) else s
    case Retry(p, lease) =>
      if Waiting(s, p) then s.(lock := KeyLock.Next(s.lock, Begin(p, s.points[p].key, Some(lease), true))) else s
    case GiveUp(p) => if Waiting(s, p) then At(s, p, TimedOut) else s
    case Die(p) => s.(lock := KeyLock.Next(s.lock, Crash(p)))
    case Wait(d) => s.(lock := KeyLock.Next(s.lock, Tick(d)))
  }

  ghost function Exec<V>(s: Guard<V>, es: seq<Event<V>>): Guard<V>
    decreases |es|
  {
    if es == [] then s else Exec(Next(s, es[0]), es[1..])
  }

  /** The actions logged for `k`, applied one after another to its empty value. */
  ghost function Replay<V>(empty: V, log: seq<Entry<V>>, k: Key): V
    decreases |log|
  {
    if log == [] then empty else
      var last := log[|log| - 1];
      var v := Replay(empty, log[..|log| - 1], k);
      if last.key == k then Effect(empty, last.act, v) else v
  }

  // ---- Invariant ----

  predicate Outside(ph: Phase) {
    ph.Idle? || ph.Refused?
  }

  ghost predicate Logged<V>(s: Guard<V>, p: nat, k: Key, act: Action<V>, at: nat) {
    at < |s.log| && s.log[at].client == p && s.log[at].key == k && s.log[at].act == act
  }

  ghost predicate PointOk<V>(s: Guard<V>, p: nat)
    requires p < |s.points| && p < |s.lock.procs|
  {
    var ph := Core(s.lock.procs[p]);
    match s.points[p]
    case Locking(k, act) =>
      Outside(ph) || (!ph.Crashed? && ph.key == k && !ph.CheckToken? && !ph.RemoveLock?
                      && (Owning(s.lock.procs[p]) ==> Fresh(s, k, ph.token))
                      && (s.lock.procs[p].Held? ==> k in s.data))
    case Writing(k, act, v) =>
      ph.Held? && ph.key == k && (s.lock.procs[p].Held? ==> Fresh(s, k, ph.token) && k in s.data && v == s.data[k])
    case Leaving(k, act, at) => Logged(s, p, k, act, at) && (ph.CheckToken? || ph.RemoveLock? || ph.Idle?)
    case Done(k, act, at) => Logged(s, p, k, act, at) && Outside(ph)
    case _ => Outside(ph)
  }

  /** No entry of `k` was made under `t` or a later token. */
  ghost predicate Fresh<V>(s: Guard<V>, k: Key, t: Token) {
    forall i :: 0 <= i < |s.log| && s.log[i].key == k ==> s.log[i].token < t
  }

  ghost predicate LogOk<V>(s: Guard<V>) {
    && (forall i :: 0 <= i < |s.log| ==> s.log[i].token < |s.lock.issuers|)
    && (forall i, j :: 0 <= i < j < |s.log| && s.log[i].key == s.log[j].key ==> s.log[i].token < s.log[j].token)
  }

  ghost predicate Inv<V>(s: Guard<V>) {
    && KeyLock.Inv(s.lock)
    && |s.points| == |s.lock.procs|
    && (forall p :: 0 <= p < |s.points| ==> PointOk(s, p))
    && LogOk(s)
    && (forall k :: Current(s, k) == Replay(s.empty(k), s.log, k))
  }

  lemma InitInv<V>(n: nat, empty: Key -> V)
    ensures Inv(Init(n, empty))
  {
    KeyLock.InitInv(n);
  }

  lemma LockPhase<V>(s: Guard<V>, e: KeyLock.Event, p: nat)
    requires Inv(s) && p < |s.points| && By(e, p) && !e.BeginUnlock?
    requires e.Begin? ==> Waiting(s, p) && e.key == s.points[p].key
    requires e.Call? ==> s.points[p].Leaving? || (s.points[p].Locking? && e.present == (s.points[p].key in s.data))
    ensures PointOk(s.(lock := KeyLock.Next(s.lock, e)), p)
  {
    assert PointOk(s, p);
  }

  /** A step of the lock protocol while the data stays. */
  lemma LockStepInv<V>(s: Guard<V>, e: KeyLock.Event)
    requires Inv(s) && !e.ForceUnlock? && !e.Overrun?
    requires e.Begin? ==> Waiting(s, e.p) && e.key == s.points[e.p].key
    requires e.Call? && e.p < |s.points| ==>
      s.points[e.p].Leaving? || (s.points[e.p].Locking? && e.present == (s.points[e.p].key in s.data))
    requires !e.BeginUnlock?
    ensures Inv(s.(lock := KeyLock.Next(s.lock, e)))
  {
    var s' := s.(lock := KeyLock.Next(s.lock, e));
    KeyLock.NextInv(s.lock, e);
    forall p | 0 <= p < |s'.points| ensures PointOk(s', p) {
      assert PointOk(s, p);
      Frame(s.lock, e, p);
      if By(e, p) { LockPhase(s, e, p); }
    }
    forall k ensures Current(s', k) == Replay(s'.empty(k), s'.log, k) {
      assert Current(s, k) == Replay(s.empty(k), s.log, k);
    }
  }

  /** A move of client `p` that neither locks nor changes a current value. */
  lemma MoveInv<V>(s: Guard<V>, p: nat, pt: Point<V>, data: map<Key, V>)
    requires Inv(s) && p < |s.points|
    requires var s' := At(s, p, pt).(data := data);
      PointOk(s', p) && s.data.Keys <= data.Keys && forall k :: Current(s', k) == Current(s, k)
    ensures Inv(At(s, p, pt).(data := data))
  {
    var s' := At(s, p, pt).(data := data);
    forall q | 0 <= q < |s'.points| ensures PointOk(s', q) {
      assert PointOk(s, q) && (s.points[q].Writing? ==> Current(s', s.points[q].key) == Current(s, s.points[q].key));
    }
  }

  /** The client holding the lock applies its action to the very value it read. */
  lemma CommitInv<V>(s: Guard<V>, p: nat)
    requires Inv(s) && Alive(s, p) && s.points[p].Writing? && s.lock.procs[p].Held?
    ensures Inv(StepOf(s, p))
  {
    var s' := StepOf(s, p);
    assert PointOk(s, p) && KeyLock.ClientOk(s.lock, p);
    KeyLock.NextInv(s.lock, BeginUnlock(p));
    var k, act := s.points[p].key, s.points[p].act;
    forall j ensures Current(s', j) == Replay(s'.empty(j), s'.log, j) {
      assert s'.log[..|s.log|] == s.log;
      assert Current(s, j) == Replay(s.empty(j), s.log, j);
    }
    forall q | 0 <= q < |s'.points| ensures PointOk(s', q) {
      assert PointOk(s, q) && KeyLock.ClientOk(s.lock, q);
      if q != p && Owns(s.lock, q, k) {
        OneOwner(s.lock, p, q, k);
      }
    }
  }

  lemma StepInv<V>(s: Guard<V>, p: nat)
    requires Inv(s) && Alive(s, p)
    ensures Inv(StepOf(s, p))
  {
    var s' := StepOf(s, p);
    var pt := s.points[p];
    assert PointOk(s, p);
    if pt.Writing? {
      CommitInv(s, p);
    } else if pt.EnsureCheck? || pt.EnsureAdd? || (pt.Locking? && Holds(s.lock, p, pt.key))
              || (pt.Leaving? && s.lock.procs[p].Idle?) {
      assert s' == At(s, p, s'.points[p]).(data := s'.data);
      MoveInv(s, p, s'.points[p], s'.data);
    } else if pt.Locking? {
      LockStepInv(s, Call(p, pt.key in s.data));
    } else if pt.Leaving? {
      LockStepInv(s, Call(p, true));
    }
  }

  lemma NextInv<V>(s: Guard<V>, e: Event<V>)
    requires Inv(s)
    ensures Inv(Next(s, e))
  {
    match e
    case Submit(p, k, act, lease, ensure) =>
      if Ready(s, p) {
        assert PointOk(s, p);
        var s' := Next(s, e);
        assert s' == At(s, p, s'.points[p]).(data := s.data);
        MoveInv(s, p, s'.points[p], s.data);
      }
    case Step(p) => if Alive(s, p) { StepInv(s, p); }
    case Retry(p, lease) =>
      if Waiting(s, p) { LockStepInv(s, Begin(p, s.points[p].key, Some(lease), true)); }
    case GiveUp(p) =>
      if Waiting(s, p) {
        assert PointOk(s, p);
        var s' := Next(s, e);
        assert s' == At(s, p, TimedOut).(data := s.data);
        MoveInv(s, p, TimedOut, s.data);
      }
    case Die(p) => LockStepInv(s, Crash(p));
    case Wait(d) => LockStepInv(s, Tick(d));
  }

  lemma {:induction false} ExecInv<V>(s: Guard<V>, es: seq<Event<V>>)
    requires Inv(s)
    ensures Inv(Exec(s, es))
    decreases |es|
  {
    if es != [] {
      NextInv(s, es[0]);
      ExecInv(Next(s, es[0]), es[1..]);
    }
  }

  // ---- Main results ----

  /** Serialisability. After any interleaving, each key's value is that of the logged actions
      applied one by one, and the log of a key is in the order in which its lock was taken. */
  lemma Serialisable<V>(n: nat, empty: Key -> V, es: seq<Event<V>>, k: Key)
    ensures var s := Exec(Init(n, empty), es);
      && Current(s, k) == Replay(s.empty(k), s.log, k)
      && forall i, j :: 0 <= i < j < |s.log| && s.log[i].key == k && s.log[j].key == k ==>
           s.log[i].token < s.log[j].token
  {
    InitInv(n, empty);
    ExecInv(Init(n, empty), es);
  }

  /** An `Execute` that returned has its own action in the log; and while a client
      holds the lock with its work still to do, the guarded key is in the cache. */
  lemma ReturnedMeansApplied<V>(n: nat, empty: Key -> V, es: seq<Event<V>>, p: nat)
    ensures var s := Exec(Init(n, empty), es);
      p < |s.points| ==>
        var pt := s.points[p];
        && (pt.Done? ==> Logged(s, p, pt.key, pt.act, pt.at))
        && ((pt.Locking? || pt.Writing?) && Holds(s.lock, p, pt.key) ==> pt.key in s.data)
  {
    InitInv(n, empty);
    var s := Exec(Init(n, empty), es);
    ExecInv(Init(n, empty), es);
    if p < |s.points| { assert PointOk(s, p); }
  }

  /** A value changes and the log grows only when a lock holder writes, by one entry, its own;
      so a client whose `Acquire` timed out has changed nothing, and none is applied twice. */
  lemma OnlyHoldersCommit<V>(s: Guard<V>, e: Event<V>, k: Key)
    requires Inv(s)
    ensures var s' := Next(s, e);
      if e.Step? && Alive(s, e.p) && s.points[e.p].Writing? then
        var pt := s.points[e.p];
        && Holds(s.lock, e.p, pt.key)
        && s'.log == s.log + [Entry(e.p, pt.key, s.lock.procs[e.p].token, pt.act)]
        && s'.points[e.p] == Leaving(pt.key, pt.act, |s.log|)
        && Current(s', pt.key) == Effect(s.empty(pt.key), pt.act, Current(s, pt.key))
        && (k != pt.key ==> Current(s', k) == Current(s, k))
      else s'.log == s.log && Current(s', k) == Current(s, k)
  {
    if e.Step? && Alive(s, e.p) { assert PointOk(s, e.p); }
  }

  // ---- No update is lost ----

  /** Whatever the value, the action sets this part of it to `f`; or leaves the part alone. */
  ghost predicate Sets<V(!new), F>(empty: V, act: Action<V>, part: V -> F, f: F) {
    forall v: V :: part(Effect(empty, act, v)) == f
  }

  ghost predicate Spares<V(!new), F>(empty: V, act: Action<V>, part: V -> F) {
    forall v: V :: part(Effect(empty, act, v)) == part(v)
  }

  lemma {:induction false} LastWriteStands<V(!new), F>(empty: V, log: seq<Entry<V>>, k: Key, i: nat, part: V -> F, f: F)
    requires i < |log| && log[i].key == k && Sets(empty, log[i].act, part, f)
    requires forall j :: i < j < |log| && log[j].key == k ==> Spares(empty, log[j].act, part)
    ensures part(Replay(empty, log, k)) == f
    decreases |log|
  {
    if i < |log| - 1 {
      LastWriteStands(empty, log[..|log| - 1], k, i, part, f);
    }
  }

  /** What an `Execute` wrote is still there, as long as no action that was logged after it wrote the same
      part of the value; concurrent actions on other parts do not undo it. */
  lemma {:induction false} NoUpdateIsLost<V(!new), F>(n: nat, empty: Key -> V, es: seq<Event<V>>, k: Key, i: nat, part: V -> F, f: F)
    ensures var s := Exec(Init(n, empty), es);
      Wrote(s, k, i, part, f) ==> part(Current(s, k)) == f
  {
    var s := Exec(Init(n, empty), es);
    InitInv(n, empty);
    ExecInv(Init(n, empty), es);
    if Wrote(s, k, i, part, f) {
      LastWriteStands(s.empty(k), s.log, k, i, part, f);
    }
  }

  /** Entry `i` of the log set this part of the key's value to `f`, and no later one wrote it. */
  ghost predicate Wrote<V(!new), F>(s: Guard<V>, k: Key, i: nat, part: V -> F, f: F) {
    && i < |s.log| && s.log[i].key == k && Sets(s.empty(k), s.log[i].act, part, f)
    && forall j :: i < j < |s.log| && s.log[j].key == k ==> Spares(s.empty(k), s.log[j].act, part)
  }

  // ---- The scored sets of the transaction ----

  /** `AddToSet` and `RemoveFromSet` as actions on the dictionary of a set. */
  function AddToSet(value: nat, score: real): Action<map<nat, real>> {
    (scores: map<nat, real>) => Put(scores[value := score])
  }

  function RemoveFromSet(value: nat): Action<map<nat, real>> {
    (scores: map<nat, real>) => Put(scores - {value})
  }

  function ScoreOf(value: nat): map<nat, real> -> Option<real> {
    (scores: map<nat, real>) => if value in scores then Some(scores[value]) else None
  }

  /** An add sets the score of its own value and a removal clears it; both spare every other value. */
  lemma SetActions(value: nat, score: real, other: nat)
    ensures Sets(map[], AddToSet(value, score), ScoreOf(value), Some(score))
    ensures Sets(map[], RemoveFromSet(value), ScoreOf(value), None)
    ensures other != value ==> Spares(map[], AddToSet(value, score), ScoreOf(other)) && Spares(map[], RemoveFromSet(value), ScoreOf(other))
  {
    var part := ScoreOf(value);
    forall v: map<nat, real> ensures part(Effect(map[], AddToSet(value, score), v)) == Some(score) {
    }
  }
}
