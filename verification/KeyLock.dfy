/** `LockKey` and `UnlockKey` as interleaved steps, one cache call a step.

    A lock on a key is a record stored under the lock key, holding the token of
    the client that added it. Any number of clients run the two operations; the
    clock moves on its own, and a record vanishes when its lease ends. */
module KeyLock {
  import opened Cache

  type Token = nat

  datatype LockRecord = LockRecord(token: Token, ends: Option<nat>)

  /** Where a client stands; each case but `Idle`, `Held`, `Refused` and `Crashed`
      names the cache call the client makes next. */
  datatype Phase =
    | Idle
    | Peek(key: Key, lease: Option<Duration>)                        // Contains(lockKey), the guard's cheap check
    | CheckKey(key: Key, lease: Option<Duration>)                    // Contains(key)
    | CheckLock(key: Key, lease: Option<Duration>)                   // Contains(lockKey)
    | AddLock(key: Key, lease: Option<Duration>)                     // Add(lockKey, token)
    | ReadHolder(key: Key)                                      // Get(lockKey) after a failed Add
    | ReadBack(key: Key, token: Token, ends: Option<nat>)       // GetBulk(key, lockKey)
    | Undo(key: Key, token: Token, ends: Option<nat>)           // Remove(lockKey): the key is gone
    | Held(key: Key, token: Token, ends: Option<nat>)           // LockKey returned true
    | Refused(key: Key, seen: Option<Token>)                    // LockKey returned false
    | CheckToken(key: Key, token: Token, ends: Option<nat>)     // UnlockKey: Get(lockKey)
    | RemoveLock(key: Key, token: Token, ends: Option<nat>)     // UnlockKey: Remove(lockKey)
    | Crashed(last: Phase)

  /** `issuers[t]` is the client that drew token `t`; tokens are fresh, as Guids are. */
  datatype State = State(now: nat, issuers: seq<nat>, locks: map<Key, LockRecord>, procs: seq<Phase>)

  datatype Event =
    | Begin(p: nat, key: Key, lease: Option<Duration>, peek: bool)   // enter LockKey, with the guard's check or without
    | Call(p: nat, present: bool)                               // make the next call; `present`: the key is in the cache
    | BeginUnlock(p: nat)                                       // enter UnlockKey with the own token
    | ForceUnlock(key: Key)                                     // UnlockKey with a null handle
    | Crash(p: nat)
    | Tick(d: nat)                                              // time passes, no live client overruns its lease
    | Overrun(d: nat)                                           // time passes, whatever the clients do

  function Init(n: nat): State {
    State(0, [], map[], seq(n, _ => Idle))
  }

  /** The phases between a successful `Add` of the lock record and its `Remove`. */
  predicate Owning(ph: Phase) {
    ph.ReadBack? || ph.Undo? || ph.Held? || ph.CheckToken? || ph.RemoveLock?
  }

  /** The phase a client is in, or was in when it crashed. */
  function Core(ph: Phase): Phase {
    if ph.Crashed? then ph.last else ph
  }

  predicate Owns(s: State, p: nat, key: Key) {
    p < |s.procs| && Owning(s.procs[p]) && s.procs[p].key == key
  }

  predicate Holds(s: State, p: nat, key: Key) {
    p < |s.procs| && s.procs[p].Held? && s.procs[p].key == key
  }

  /** Every record whose lease has ended by `now` is gone. */
  function Purge(locks: map<Key, LockRecord>, now: nat): map<Key, LockRecord> {
    map k | k in locks && Running(locks[k].ends, now) :: locks[k]
  }

  predicate LeasesKept(s: State, now: nat) {
    forall p :: 0 <= p < |s.procs| && Owning(s.procs[p]) ==> Running(s.procs[p].ends, now)
  }

  function At(s: State, p: nat, ph: Phase): State
    requires p < |s.procs|
  {
    s.(procs := s.procs[p := ph])
  }

  /** The one cache call client `p` makes in its current phase. */
  function CallOf(s: State, p: nat, present: bool): State
    requires p < |s.procs|
  {
    match s.procs[p]
    case Peek(k, lease) =>
      At(s, p, if k in s.locks then Refused(k, None) else CheckKey(k, lease))
    case CheckKey(k, lease) =>
      At(s, p, if present then CheckLock(k, lease) else Refused(k, None))
    case CheckLock(k, lease) =>
      At(s, p, if k in s.locks then Refused(k, None) else AddLock(k, lease))
    case AddLock(k, lease) =>
      if k in s.locks then At(s, p, ReadHolder(k))
      else
        var ends := EndOf(lease, s.now);
        var token := |s.issuers|;
        At(s, p, ReadBack(k, token, ends)).(
          issuers := s.issuers + [p],
          locks := s.locks[k := LockRecord(token, ends)])
    case ReadHolder(k) =>
      At(s, p, Refused(k, if k in s.locks then Some(s.locks[k].token) else None))
    case ReadBack(k, t, ends) =>
      if k !in s.locks || s.locks[k].token != t then At(s, p, Refused(k, None))
      else if !present then At(s, p, Undo(k, t, ends))
      else At(s, p, Held(k, t, ends))
    case Undo(k, t, ends) =>
      At(s, p, Refused(k, None)).(locks := s.locks - {k})
    case CheckToken(k, t, ends) =>
      At(s, p, if k in s.locks && s.locks[k].token == t then RemoveLock(k, t, ends) else Idle)
    case RemoveLock(k, t, ends) =>
      At(s, p, Idle).(locks := s.locks - {k})
    case _ => s
  }

  function Advance(s: State, now: nat): State {
    s.(now := now, locks := Purge(s.locks, now))
  }

  /** An event that is not enabled leaves the state as it is. */
  function Next(s: State, e: Event): State {
    match e
    case Begin(p, k, lease, peek) =>
      if p < |s.procs| && (s.procs[p].Idle? || s.procs[p].Refused?)
      then At(s, p, if peek then Peek(k, lease) else CheckKey(k, lease)) else s
    case Call(p, present) =>
      if p < |s.procs| then CallOf(s, p, present) else s
    case BeginUnlock(p) =>
      if p < |s.procs| && s.procs[p].Held?
      then At(s, p, CheckToken(s.procs[p].key, s.procs[p].token, s.procs[p].ends)) else s
    case ForceUnlock(k) => s.(locks := s.locks - {k})
    case Crash(p) =>
      if p < |s.procs| && !s.procs[p].Crashed? then At(s, p, Crashed(s.procs[p])) else s
    case Tick(d) =>
      if LeasesKept(s, s.now + d) then Advance(s, s.now + d) else s
    case Overrun(d) => Advance(s, s.now + d)
  }

  function Exec(s: State, es: seq<Event>): State
    decreases |es|
  {
    if es == [] then s else Exec(Next(s, es[0]), es[1..])
  }

  /** Runs in which clients unlock with their own token and finish inside their lease. */
  predicate Orderly(es: seq<Event>) {
    forall i :: 0 <= i < |es| ==> !es[i].ForceUnlock? && !es[i].Overrun?
  }

  // ---- Invariant ----

  /** Client `p` stored the record of `k`, and owns it or owned it when it crashed. */
  ghost predicate OwnerAt(s: State, k: Key, p: nat) {
    && p < |s.procs|
    && Owning(Core(s.procs[p]))
    && Core(s.procs[p]).key == k
    && k in s.locks
    && s.locks[k] == LockRecord(Core(s.procs[p]).token, Core(s.procs[p]).ends)
  }

  ghost predicate ClientOk(s: State, p: nat)
    requires p < |s.procs|
  {
    var ph := Core(s.procs[p]);
    && !ph.Crashed?
    && (Owning(ph) ==> ph.token < |s.issuers| && s.issuers[ph.token] == p)
    && (Owning(s.procs[p]) ==> OwnerAt(s, ph.key, p) && Running(ph.ends, s.now))
  }

  /** A stored record runs, and the client that drew its token still answers for it. */
  ghost predicate RecordOk(s: State, k: Key)
    requires k in s.locks
  {
    var rec := s.locks[k];
    Running(rec.ends, s.now) && rec.token < |s.issuers| && OwnerAt(s, k, s.issuers[rec.token])
  }

  ghost predicate Inv(s: State) {
    && (forall p :: 0 <= p < |s.procs| ==> ClientOk(s, p))
    && (forall k :: k in s.locks ==> RecordOk(s, k))
  }

  lemma InitInv(n: nat)
    ensures Inv(Init(n))
  {
  }

  lemma OneOwner(s: State, p: nat, q: nat, k: Key)
    requires Inv(s) && Owns(s, p, k) && Owns(s, q, k)
    ensures p == q
  {
    assert ClientOk(s, p) && ClientOk(s, q);
  }

  /** A client that changes phase and keeps what it owns, or still owns nothing. */
  ghost predicate SameOwnership(a: Phase, b: Phase) {
    && !Core(a).Crashed? && !Core(b).Crashed?
    && (Owning(b) ==> Owning(a))
    && Owning(Core(a)) == Owning(Core(b))
    && (Owning(Core(a)) ==>
          Core(a).key == Core(b).key && Core(a).token == Core(b).token && Core(a).ends == Core(b).ends)
  }

  lemma PhaseInv(s: State, p: nat, ph: Phase)
    requires Inv(s) && p < |s.procs| && SameOwnership(s.procs[p], ph)
    ensures Inv(At(s, p, ph))
  {
    var s' := At(s, p, ph);
    assert ClientOk(s, p);
    forall q | 0 <= q < |s'.procs| ensures ClientOk(s', q) {
      assert ClientOk(s, q);
    }
    forall k | k in s'.locks ensures RecordOk(s', k) {
      assert RecordOk(s, k);
    }
  }

  lemma AddInv(s: State, p: nat, present: bool)
    requires Inv(s) && p < |s.procs| && s.procs[p].AddLock? && s.procs[p].key !in s.locks
    ensures Inv(CallOf(s, p, present))
  {
    var s' := CallOf(s, p, present);
    forall q | 0 <= q < |s'.procs| ensures ClientOk(s', q) {
      assert ClientOk(s, q);
    }
    forall k | k in s'.locks ensures RecordOk(s', k) {
      if k in s.locks { assert RecordOk(s, k); }
    }
  }

  lemma RemoveInv(s: State, p: nat, present: bool)
    requires Inv(s) && p < |s.procs| && (s.procs[p].Undo? || s.procs[p].RemoveLock?)
    ensures Inv(CallOf(s, p, present))
  {
    var s' := CallOf(s, p, present);
    assert ClientOk(s, p);
    forall q | 0 <= q < |s'.procs| ensures ClientOk(s', q) {
      assert ClientOk(s, q);
    }
    forall k | k in s'.locks ensures RecordOk(s', k) {
      assert RecordOk(s, k);
    }
  }

  lemma CallInv(s: State, p: nat, present: bool)
    requires Inv(s) && p < |s.procs|
    ensures Inv(CallOf(s, p, present))
  {
    var ph := s.procs[p];
    assert ClientOk(s, p);
    if ph.Undo? || ph.RemoveLock? {
      RemoveInv(s, p, present);
    } else if ph.AddLock? && ph.key !in s.locks {
      AddInv(s, p, present);
    } else {
      var ph' := CallOf(s, p, present).procs[p];
      PhaseInv(s, p, ph');
    }
  }

  lemma AdvanceInv(s: State, now: nat)
    requires Inv(s) && now >= s.now && LeasesKept(s, now)
    ensures Inv(Advance(s, now))
  {
    var s' := Advance(s, now);
    forall q | 0 <= q < |s'.procs| ensures ClientOk(s', q) {
      assert ClientOk(s, q);
    }
    forall k | k in s'.locks ensures RecordOk(s', k) {
      assert RecordOk(s, k);
    }
  }

  lemma NextInv(s: State, e: Event)
    requires Inv(s) && !e.ForceUnlock? && !e.Overrun?
    ensures Inv(Next(s, e))
  {
    if e.Call? {
      if e.p < |s.procs| { CallInv(s, e.p, e.present); }
    } else if e.Tick? {
      if LeasesKept(s, s.now + e.d) { AdvanceInv(s, s.now + e.d); }
    } else if e.p < |s.procs| {
      assert ClientOk(s, e.p);
      PhaseInv(s, e.p, Next(s, e).procs[e.p]);
      assert Next(s, e) == At(s, e.p, Next(s, e).procs[e.p]);
    }
  }

  lemma {:induction false} ExecInv(s: State, es: seq<Event>)
    requires Inv(s) && Orderly(es)
    ensures Inv(Exec(s, es))
    decreases |es|
  {
    if es != [] {
      NextInv(s, es[0]);
      ExecInv(Next(s, es[0]), es[1..]);
    }
  }

  predicate By(e: Event, p: nat) {
    (e.Begin? || e.Call? || e.BeginUnlock? || e.Crash?) && e.p == p
  }

  /** A client moves by its own events only; the clock and the issued tokens only grow. */
  lemma Frame(s: State, e: Event, q: nat)
    ensures var s' := Next(s, e);
      |s'.procs| == |s.procs| && s.issuers <= s'.issuers && s.now <= s'.now
      && (q < |s.procs| && !By(e, q) ==> s'.procs[q] == s.procs[q])
  {
  }

  lemma StaysCrashed(s: State, e: Event, p: nat)
    ensures p < |s.procs| && s.procs[p].Crashed? ==> Next(s, e).procs[p] == s.procs[p]
  {
  }

  // ---- What callers rely on ----

  /** At most one client is between a successful `Add` of a key's lock record and
      its `Remove`; while it is, the record in the cache carries its token. */
  lemma MutualExclusion(n: nat, es: seq<Event>, k: Key, p: nat, q: nat)
    requires Orderly(es)
    ensures var s := Exec(Init(n), es);
      && (Owns(s, p, k) && Owns(s, q, k) ==> p == q)
      && (Owns(s, p, k) ==> k in s.locks && s.locks[k].token == s.procs[p].token)
  {
    InitInv(n);
    ExecInv(Init(n), es);
    var s := Exec(Init(n), es);
    if Owns(s, p, k) {
      assert ClientOk(s, p);
      if Owns(s, q, k) { OneOwner(s, p, q, k); }
    }
  }

  /** A client whose `LockKey` returned false, or that has unlocked, owns no stored record:
      each record in the cache was added by some other client. */
  lemma NothingLeftBehind(n: nat, es: seq<Event>, p: nat)
    requires Orderly(es) && p < n
    ensures var s := Exec(Init(n), es);
      |s.procs| == n && (s.procs[p].Refused? || s.procs[p].Idle? ==>
        forall k :: k in s.locks ==> exists q :: q != p && OwnerAt(s, k, q))
  {
    InitInv(n);
    ExecInv(Init(n), es);
    ExecSize(Init(n), es);
    var s := Exec(Init(n), es);
    if s.procs[p].Refused? || s.procs[p].Idle? {
      forall k | k in s.locks ensures exists q :: q != p && OwnerAt(s, k, q) {
        assert RecordOk(s, k);
        assert OwnerAt(s, k, s.issuers[s.locks[k].token]);
      }
    }
  }

  lemma {:induction false} ExecSize(s: State, es: seq<Event>)
    ensures |Exec(s, es).procs| == |s.procs|
    decreases |es|
  {
    if es != [] { ExecSize(Next(s, es[0]), es[1..]); }
  }

  // ---- Hand-over, crashes, and what the two assumptions are for ----

  lemma {:induction false} ExecConcat(s: State, a: seq<Event>, b: seq<Event>)
    ensures Exec(s, a + b) == Exec(Exec(s, a), b)
    decreases |a|
  {
    if a == [] {
      assert a + b == b;
    } else {
      assert (a + b)[1..] == a[1..] + b;
      ExecConcat(Next(s, a[0]), a[1..], b);
    }
  }

  lemma ExecFirst(s: State, e: Event, es: seq<Event>)
    ensures Exec(s, [e] + es) == Exec(Next(s, e), es)
  {
    assert ([e] + es)[1..] == es;
  }

  lemma ExecOne(s: State, e: Event)
    ensures Exec(s, [e]) == Next(s, e)
  {
  }

  /** `k` calls of client `p`; the guarded key is in the cache throughout. */
  function Calls(p: nat, k: nat): (es: seq<Event>)
    ensures forall i :: 0 <= i < |es| ==> es[i].Call?
  {
    if k == 0 then [] else [Call(p, true)] + Calls(p, k - 1)
  }

  lemma ExecCalls(s: State, p: nat, k: nat)
    requires p < |s.procs| && k > 0
    ensures Exec(s, Calls(p, k)) == Exec(CallOf(s, p, true), Calls(p, k - 1))
  {
    ExecFirst(s, Call(p, true), Calls(p, k - 1));
  }

  /** One uninterrupted `LockKey` on a key that is in the cache. */
  function LockRun(p: nat, k: Key, lease: Option<Duration>): (es: seq<Event>)
    ensures forall i :: 0 <= i < |es| ==> es[i].Begin? || es[i].Call?
  {
    [Begin(p, k, lease, false)] + Calls(p, 4)
  }

  /** The state in which `p` has just locked `k`. */
  function Locked(s: State, p: nat, k: Key, lease: Option<Duration>): State
    requires p < |s.procs|
  {
    var ends := EndOf(lease, s.now);
    At(s, p, Held(k, |s.issuers|, ends)).(
      issuers := s.issuers + [p], locks := s.locks[k := LockRecord(|s.issuers|, ends)])
  }

  /** The client is in `LockKey`, and nothing it has seen or will see stands in its way. */
  predicate Approaching(s: State, p: nat) {
    && p < |s.procs|
    && (match s.procs[p]
        case Peek(k, _) => k !in s.locks
        case CheckKey(k, _) => k !in s.locks
        case CheckLock(k, _) => k !in s.locks
        case AddLock(k, _) => k !in s.locks
        case ReadBack(k, t, ends) => k in s.locks && s.locks[k].token == t
        case Held(_, _, _) => true
        case _ => false)
  }

  /** The calls that remain. */
  function CallsLeft(ph: Phase): nat {
    match ph
    case Peek(_, _) => 5
    case CheckKey(_, _) => 4
    case CheckLock(_, _) => 3
    case AddLock(_, _) => 2
    case ReadBack(_, _, _) => 1
    case _ => 0
  }

  /** Where they lead. */
  function Reached(s: State, p: nat): State
    requires Approaching(s, p)
  {
    match s.procs[p]
    case Peek(k, lease) => Locked(s, p, k, lease)
    case CheckKey(k, lease) => Locked(s, p, k, lease)
    case CheckLock(k, lease) => Locked(s, p, k, lease)
    case AddLock(k, lease) => Locked(s, p, k, lease)
    case ReadBack(k, t, ends) => At(s, p, Held(k, t, ends))
    case _ => s
  }

  /** Each call of a present key brings the client one call nearer. */
  lemma Nearer(s: State, p: nat)
    requires Approaching(s, p) && !s.procs[p].Held?
    ensures var s' := CallOf(s, p, true);
      && Approaching(s', p) && CallsLeft(s'.procs[p]) == CallsLeft(s.procs[p]) - 1 && Reached(s', p) == Reached(s, p)
      && s'.procs[p].key == s.procs[p].key
  {
    var s' := CallOf(s, p, true);
    if !s.procs[p].ReadBack? {
      assert s'.procs[p := Held(s.procs[p].key, |s.issuers|, EndOf(s.procs[p].lease, s.now))] == Reached(s, p).procs;
    }
  }

  lemma Arrived(s: State, p: nat)
    requires Approaching(s, p) && s.procs[p].Held?
    ensures Reached(s, p) == s
  {
  }

  /** A client that has just entered `LockKey` for a free key comes to lock it. */
  lemma Enters(s: State, p: nat, k: Key, lease: Option<Duration>, peek: bool)
    requires p < |s.procs| && k !in s.locks
    ensures var ph := if peek then Peek(k, lease) else CheckKey(k, lease);
      var s' := At(s, p, ph);
      && |s'.procs| == |s.procs| && s'.procs[p] == ph && CallsLeft(ph) == (if peek then 5 else 4)
      && Approaching(s', p) && Reached(s', p) == Locked(s, p, k, lease)
  {
    LockedFrom(s, p, if peek then Peek(k, lease) else CheckKey(k, lease), k, lease);
  }

  lemma {:induction false} Arrives(s: State, p: nat)
    requires Approaching(s, p)
    ensures Exec(s, Calls(p, CallsLeft(s.procs[p]))) == Reached(s, p)
    decreases CallsLeft(s.procs[p])
  {
    if s.procs[p].Held? {
      ExecNone(s, p);
    } else {
      Nearer(s, p);
      ExecCalls(s, p, CallsLeft(s.procs[p]));
      hide Exec, Calls, CallOf, Reached, Approaching;
      Arrives(CallOf(s, p, true), p);
    }
  }

  /** Where the client stood before does not show. */
  lemma LockedFrom(s: State, p: nat, ph: Phase, k: Key, lease: Option<Duration>)
    requires p < |s.procs|
    ensures Locked(At(s, p, ph), p, k, lease) == Locked(s, p, k, lease)
  {
    assert s.procs[p := ph][p := Held(k, |s.issuers|, EndOf(lease, s.now))] == Locked(s, p, k, lease).procs;
  }

  /** On a free key an uninterrupted `LockKey` returns true. */
  lemma FreeKeyIsLocked(s: State, p: nat, k: Key, lease: Option<Duration>)
    requires p < |s.procs| && (s.procs[p].Idle? || s.procs[p].Refused?) && k !in s.locks
    ensures Exec(s, LockRun(p, k, lease)) == Locked(s, p, k, lease)
  {
    ExecFirst(s, Begin(p, k, lease, false), Calls(p, 4));
    Arrives(At(s, p, CheckKey(k, lease)), p);
    LockedFrom(s, p, CheckKey(k, lease), k, lease);
    hide Exec, Calls;
  }

  /** And so it does after the guard's cheap check. */
  lemma PeekFindsItFree(s: State, p: nat, k: Key, lease: Option<Duration>)
    requires p < |s.procs| && (s.procs[p].Idle? || s.procs[p].Refused?) && k !in s.locks
    ensures Exec(s, [Begin(p, k, lease, true)] + Calls(p, 5)) == Locked(s, p, k, lease)
  {
    ExecFirst(s, Begin(p, k, lease, true), Calls(p, 5));
    Arrives(At(s, p, Peek(k, lease)), p);
    LockedFrom(s, p, Peek(k, lease), k, lease);
    hide Exec, Calls;
  }

  /** A key that is locked or absent is refused, with the cheap check or without, and nothing else changes. */
  lemma LockedKeyIsRefused(s: State, p: nat, k: Key, lease: Option<Duration>, peek: bool, present: bool)
    requires p < |s.procs| && (s.procs[p].Idle? || s.procs[p].Refused?) && (k in s.locks || !present)
    ensures Exec(s, [Begin(p, k, lease, peek), Call(p, present), Call(p, present), Call(p, present)]) == At(s, p, Refused(k, None))
  {
    var first := At(s, p, if peek then Peek(k, lease) else CheckKey(k, lease));
    var c := Call(p, present);
    assert [Begin(p, k, lease, peek), c, c, c] == [Begin(p, k, lease, peek)] + ([c] + ([c] + ([c] + [])));
    var s2 := CallOf(first, p, present);
    var s3 := CallOf(s2, p, present);
    assert CallOf(s3, p, present) == At(s, p, Refused(k, None));
    assert Next(s, Begin(p, k, lease, peek)) == first;
    assert Next(first, c) == s2 && Next(s2, c) == s3 && Next(s3, c) == CallOf(s3, p, present);
    hide Exec, CallOf, Next;
    ExecFirst(s, Begin(p, k, lease, peek), [c] + ([c] + ([c] + [])));
    ExecFirst(first, c, [c] + ([c] + []));
    ExecFirst(s2, c, [c] + []);
    ExecFirst(s3, c, []);
    ExecEmpty(At(s, p, Refused(k, None)));
  }

  lemma ExecEmpty(s: State)
    ensures Exec(s, []) == s
  {
  }

  /** A client whose `Add` fails is told the token of the holder, if the record still stands at its next call: a token
      that a client drew which owns the key, or did when it crashed. */
  lemma FailedAddNamesTheHolder(s: State, p: nat, present: bool)
    requires Inv(s) && p < |s.procs| && s.procs[p].AddLock? && s.procs[p].key in s.locks
    ensures var k, s' := s.procs[p].key, CallOf(CallOf(s, p, present), p, present);
      s'.locks == s.locks && s'.procs[p].Refused? && s'.procs[p].seen.Some? &&
      exists q: nat :: q < |s.procs| && OwnerAt(s, k, q) && Core(s.procs[q]).token == s'.procs[p].seen.value
  {
    var k := s.procs[p].key;
    assert RecordOk(s, k);
    assert OwnerAt(s, k, s.issuers[s.locks[k].token]);
  }

  /** A `LockKey` whose key goes away after its `Add` takes its record back and returns false. */
  lemma VanishedKeyIsUndone(s: State, p: nat)
    requires p < |s.procs| && s.procs[p].ReadBack? && s.procs[p].key in s.locks && s.locks[s.procs[p].key].token == s.procs[p].token
    ensures Exec(s, [Call(p, false), Call(p, true)]) == At(s, p, Refused(s.procs[p].key, None)).(locks := s.locks - {s.procs[p].key})
  {
    var ph := s.procs[p];
    var s1 := At(s, p, Undo(ph.key, ph.token, ph.ends));
    assert [Call(p, false), Call(p, true)] == [Call(p, false)] + ([Call(p, true)] + []);
    assert Next(s, Call(p, false)) == s1;
    assert Next(s1, Call(p, true)).procs == At(s, p, Refused(ph.key, None)).procs;
    ExecFirst(s, Call(p, false), [Call(p, true)] + []);
    ExecFirst(s1, Call(p, true), []);
    hide Next, Exec;
    ExecEmpty(Next(s1, Call(p, true)));
  }

  /** A `LockKey` that does not find its own record when it reads back returns false, in whatever state, and leaves the
      record of another alone. */
  lemma LostRecordIsNoticed(s: State, p: nat, present: bool)
    requires p < |s.procs| && s.procs[p].ReadBack?
    requires s.procs[p].key !in s.locks || s.locks[s.procs[p].key].token != s.procs[p].token
    ensures Exec(s, [Call(p, present)]) == At(s, p, Refused(s.procs[p].key, None))
  {
    ExecOne(s, Call(p, present));
  }

  /** A crashed client takes no further step. */
  lemma {:induction false} CrashedForGood(s: State, p: nat, es: seq<Event>)
    requires p < |s.procs|
    ensures var s' := Exec(s, [Crash(p)] + es); p < |s'.procs| && s'.procs[p].Crashed?
  {
    ExecFirst(s, Crash(p), es);
    ExecCrashed(Next(s, Crash(p)), p, es);
  }

  lemma {:induction false} ExecCrashed(s: State, p: nat, es: seq<Event>)
    requires p < |s.procs| && s.procs[p].Crashed?
    ensures p < |Exec(s, es).procs| && Exec(s, es).procs[p] == s.procs[p]
    decreases |es|
  {
    if es != [] {
      StaysCrashed(s, es[0], p);
      Frame(s, es[0], p);
      hide Next;
      ExecCrashed(Next(s, es[0]), p, es[1..]);
    }
  }

  lemma ExecNone(s: State, p: nat)
    ensures Exec(s, Calls(p, 0)) == s
  {
  }

  function UnlockRun(p: nat): seq<Event> {
    [BeginUnlock(p)] + Calls(p, 2)
  }

  /** The client is in `UnlockKey`, and the record is its own. */
  predicate Withdrawing(s: State, p: nat) {
    p < |s.procs| && (s.procs[p].CheckToken? || s.procs[p].RemoveLock?) &&
      s.procs[p].key in s.locks && s.locks[s.procs[p].key].token == s.procs[p].token
  }

  /** Its calls take the record away, and nothing else. */
  lemma Withdraws(s: State, p: nat)
    requires Withdrawing(s, p)
    ensures var s', ph := CallOf(s, p, true), s.procs[p];
      if ph.CheckToken? then s' == At(s, p, RemoveLock(ph.key, ph.token, ph.ends)) && Withdrawing(s', p)
      else s' == At(s, p, Idle).(locks := s.locks - {ph.key})
  {
  }

  /** A holder's uninterrupted `UnlockKey` removes its own record and nothing else. */
  lemma UnlockFrees(s: State, p: nat)
    requires Inv(s) && p < |s.procs| && s.procs[p].Held?
    ensures Exec(s, UnlockRun(p)) == At(s, p, Idle).(locks := s.locks - {s.procs[p].key})
  {
    assert ClientOk(s, p);
    ExecFirst(s, BeginUnlock(p), Calls(p, 2));
    var ph := s.procs[p];
    var s1, s2 := At(s, p, CheckToken(ph.key, ph.token, ph.ends)), At(s, p, RemoveLock(ph.key, ph.token, ph.ends));
    assert Next(s, BeginUnlock(p)) == s1 && Withdrawing(s1, p) && At(s1, p, s2.procs[p]) == s2;
    Withdraws(s1, p);
    Withdraws(s2, p);
    assert At(s2, p, Idle) == At(s, p, Idle);
    hide Exec, Calls, CallOf, Next, Inv;
    ExecCalls(s1, p, 2);
    ExecCalls(s2, p, 1);
    ExecNone(CallOf(s2, p, true), p);
  }

  /** After a turn of `p`, from `LockKey` to `UnlockKey`: a token more has been drawn, and the record is gone again. */
  function Freed(s: State, p: nat): State
    requires p < |s.procs|
  {
    s.(issuers := s.issuers + [p], procs := s.procs[p := Idle])
  }

  lemma TurnEnds(s: State, p: nat, k: Key, lease: Option<Duration>)
    requires p < |s.procs| && k !in s.locks
    ensures var s0 := Next(Locked(s, p, k, lease), BeginUnlock(p));
      var s1 := CallOf(s0, p, true);
      && |s0.procs| == |s.procs| && s0.procs[p].CheckToken? && |s1.procs| == |s.procs| && s1.procs[p].RemoveLock?
      && CallOf(s1, p, true) == Freed(s, p)
  {
    var s0 := Next(Locked(s, p, k, lease), BeginUnlock(p));
    var s2 := CallOf(CallOf(s0, p, true), p, true);
    assert s2.locks == s.locks && s2.procs == s.procs[p := Idle];
  }

  /** `UnlockKey` spares a record under any other token, in whatever state: its calls change nothing, and it is over. */
  lemma {:induction false} UnlockSparesOthers(s: State, p: nat, n: nat)
    requires p < |s.procs| && s.procs[p].CheckToken? && n > 0
    requires s.procs[p].key !in s.locks || s.locks[s.procs[p].key].token != s.procs[p].token
    ensures Exec(s, Calls(p, n)) == At(s, p, Idle)
  {
    ExecCalls(s, p, n);
    IdleStays(At(s, p, Idle), p, n - 1);
  }

  lemma {:induction false} IdleStays(s: State, p: nat, n: nat)
    requires p < |s.procs| && s.procs[p].Idle?
    ensures Exec(s, Calls(p, n)) == s
  {
    if n > 0 {
      ExecCalls(s, p, n);
      IdleStays(s, p, n - 1);
    }
  }

  /** Once the lease of a crashed client's record has ended, the next `LockKey` succeeds. No live
      client's lease ends by then, so the owner of the record is indeed a crashed one. */
  lemma CrashedLockLapses(s: State, k: Key, end: nat, q: nat, lease: Option<Duration>)
    requires Inv(s) && k in s.locks && s.locks[k].ends == Some(end)
    requires q < |s.procs| && s.procs[q].Idle? && LeasesKept(s, end)
    ensures s.procs[s.issuers[s.locks[k].token]].Crashed? && end > s.now
    ensures Exec(s, [Tick(end - s.now)] + LockRun(q, k, lease)) == Locked(Advance(s, end), q, k, lease)
  {
    assert RecordOk(s, k);
    LapsedIsPurged(s, k, end);
    ExecFirst(s, Tick(end - s.now), LockRun(q, k, lease));
    assert Next(s, Tick(end - s.now)) == Advance(s, end);
    hide Exec, LockRun, Locked, Next, LeasesKept, Inv;
    FreeKeyIsLocked(Advance(s, end), q, k, lease);
  }

  lemma LapsedIsPurged(s: State, k: Key, end: nat)
    requires k in s.locks && s.locks[k].ends == Some(end)
    ensures k !in Advance(s, end).locks
  {
  }

  /** Without an expiration time the record of a crashed client stays for good. */
  lemma {:induction false} NoLeaseNeverLapses(s: State, es: seq<Event>, p: nat, k: Key)
    requires Inv(s) && Orderly(es)
    requires OwnerAt(s, k, p) && s.procs[p].Crashed? && s.locks[k].ends.None?
    ensures OwnerAt(Exec(s, es), k, p)
    decreases |es|
  {
    if es != [] {
      var s' := Next(s, es[0]);
      NextInv(s, es[0]);
      CrashedRecordStays(s, es[0], p, k);
      NoLeaseNeverLapses(s', es[1..], p, k);
    }
  }

  lemma CrashedRecordStays(s: State, e: Event, p: nat, k: Key)
    requires Inv(s) && !e.ForceUnlock? && !e.Overrun?
    requires OwnerAt(s, k, p) && s.procs[p].Crashed? && s.locks[k].ends.None?
    ensures var s' := Next(s, e); OwnerAt(s', k, p) && s'.procs[p].Crashed? && s'.locks[k] == s.locks[k]
  {
    assert ClientOk(s, p);
    if e.Call? && e.p < |s.procs| {
      assert ClientOk(s, e.p);
    }
  }

  // ---- Exactly when exclusion breaks ----

  /** The record of a live owner goes without that owner's doing: by a null handle, or as its lease ends. */
  ghost predicate TakesAway(s: State, e: Event, p: nat, k: Key) {
    && Owns(s, p, k)
    && ((e.ForceUnlock? && e.key == k) || (e.Overrun? && !Running(s.procs[p].ends, s.now + e.d)))
  }

  lemma OverrunInTime(s: State, d: nat)
    requires Inv(s) && LeasesKept(s, s.now + d)
    ensures Inv(Next(s, Overrun(d)))
  {
    AdvanceInv(s, s.now + d);
  }

  lemma ForceUnownedInv(s: State, k: Key)
    requires Inv(s) && forall p: nat :: !Owns(s, p, k)
    ensures Inv(Next(s, ForceUnlock(k)))
  {
    var s' := Next(s, ForceUnlock(k));
    forall p | 0 <= p < |s'.procs| ensures ClientOk(s', p) {
      assert ClientOk(s, p) && !Owns(s, p, k);
    }
    forall j | j in s'.locks ensures RecordOk(s', j) {
      assert RecordOk(s, j);
    }
  }

  /** The owner is left without its record, and the key is free. */
  lemma TakenAway(s: State, e: Event, p: nat, k: Key)
    requires Inv(s) && TakesAway(s, e, p, k)
    ensures k !in Next(s, e).locks && Next(s, e).procs == s.procs && !Inv(Next(s, e))
  {
    var s' := Next(s, e);
    assert ClientOk(s, p);
    assert k !in s'.locks;
    assert !ClientOk(s', p);
  }

  /** A step breaks the invariant behind mutual exclusion exactly when it takes a live owner's record away:
      an `UnlockKey` with a null handle for a key that a live client owns, or time that passes over the end of
      a live owner's lease. */
  lemma BrokenExactlyByTakingAway(s: State, e: Event)
    requires Inv(s)
    ensures !Inv(Next(s, e)) <==> exists p: nat, k: Key :: TakesAway(s, e, p, k)
    ensures !Inv(Next(s, e)) <==>
      (e.ForceUnlock? && exists p: nat :: Owns(s, p, e.key)) || (e.Overrun? && !LeasesKept(s, s.now + e.d))
  {
    if e.ForceUnlock? {
      if exists p: nat :: Owns(s, p, e.key) {
        var p: nat :| Owns(s, p, e.key);
        assert TakesAway(s, e, p, e.key);
        TakenAway(s, e, p, e.key);
      } else {
        ForceUnownedInv(s, e.key);
      }
    } else if e.Overrun? {
      if LeasesKept(s, s.now + e.d) {
        OverrunInTime(s, e.d);
      } else {
        var p :| 0 <= p < |s.procs| && Owning(s.procs[p]) && !Running(s.procs[p].ends, s.now + e.d);
        assert TakesAway(s, e, p, s.procs[p].key);
        TakenAway(s, e, p, s.procs[p].key);
      }
    } else {
      NextInv(s, e);
    }
  }

  /** After any such step the next `LockKey` succeeds, and two clients own the key; two hold it, if the first held it. */
  lemma ThenTwoGetIn(s: State, e: Event, p: nat, k: Key, q: nat, lease: Option<Duration>)
    requires Inv(s) && TakesAway(s, e, p, k)
    requires q < |s.procs| && (s.procs[q].Idle? || s.procs[q].Refused?)
    ensures var s' := Exec(s, [e] + LockRun(q, k, lease));
      p != q && Owns(s', p, k) && Holds(s', q, k) && s'.procs[p] == s.procs[p]
  {
    TakenAway(s, e, p, k);
    ExecFirst(s, e, LockRun(q, k, lease));
    FreeKeyIsLocked(Next(s, e), q, k, lease);
  }

  /** Leases that are overrun do break the lock: a client stalled between the `Get` and the
      `Remove` of `UnlockKey` removes the record of the next holder, and a third one gets in. */
  lemma OverrunBreaksExclusion(n: nat, k: Key, p: nat, q: nat, r: nat)
    requires p < n && q < n && r < n && p != q && q != r && p != r
    ensures exists es: seq<Event> ::
      Holds(Exec(Init(n), es), q, k) && Holds(Exec(Init(n), es), r, k) && NoneForced(es)
  {
    var s0 := Init(n);
    var a, b, c := LockRun(p, k, Some(1)), StallRun(p, q, k), LockRun(r, k, Some(100));
    FreeKeyIsLocked(s0, p, k, Some(1));
    var s1 := Exec(s0, a);
    StalledUnlock(s1, p, q, k);
    var s2 := Exec(s1, b);
    FreeKeyIsLocked(s2, r, k, Some(100));
    ExecThree(s0, a, b, c);
    var es := a + b + c;
    assert NoneForced(es);
  }

  ghost predicate NoneForced(es: seq<Event>) {
    forall i :: 0 <= i < |es| ==> !es[i].ForceUnlock?
  }

  lemma ExecThree(s: State, a: seq<Event>, b: seq<Event>, c: seq<Event>)
    ensures Exec(s, a + b + c) == Exec(Exec(Exec(s, a), b), c)
  {
    ExecConcat(s, a, b);
    ExecConcat(s, a + b, c);
  }

  /** `p` reads its token back, stalls past its lease of one tick, `q` locks the key,
      and `p` makes its `Remove`. */
  function StallRun(p: nat, q: nat, k: Key): (es: seq<Event>)
    ensures NoneForced(es)
  {
    [BeginUnlock(p)] + ([Call(p, true)] + ([Overrun(1)] + (LockRun(q, k, Some(100)) + [Call(p, true)])))
  }

  /** The state after a stall: `q` holds the key, its record is gone. */
  function Stalled(s: State, p: nat, q: nat, k: Key): State
    requires p < |s.procs| && q < |s.procs|
  {
    var s1 := Locked(Advance(s, s.now + 1), q, k, Some(100));
    At(s1, p, Idle).(locks := s1.locks - {k})
  }

  /** The first two steps of the stall. */
  lemma StalledStart(s: State, p: nat, k: Key)
    requires p < |s.procs| && s.procs[p] == Held(k, 0, Some(s.now + 1)) && k in s.locks && s.locks[k].token == 0
    ensures Next(s, BeginUnlock(p)) == At(s, p, CheckToken(k, 0, Some(s.now + 1)))
    ensures Next(At(s, p, CheckToken(k, 0, Some(s.now + 1))), Call(p, true)) == At(s, p, RemoveLock(k, 0, Some(s.now + 1)))
  {
  }

  lemma SameStall(s: State, s': State, p: nat, q: nat, k: Key)
    requires p < |s.procs| == |s'.procs| && q < |s.procs| && p != q && s' == At(s, p, s'.procs[p])
    ensures Stalled(s', p, q, k) == Stalled(s, p, q, k)
  {
  }

  lemma StalledUnlock(s: State, p: nat, q: nat, k: Key)
    requires p < |s.procs| && q < |s.procs| && p != q && s.procs[q].Idle?
    requires s.procs[p] == Held(k, 0, Some(s.now + 1)) && k in s.locks && s.locks[k] == LockRecord(0, Some(s.now + 1))
    ensures Exec(s, StallRun(p, q, k)) == Stalled(s, p, q, k)
  {
    var lock, last := LockRun(q, k, Some(100)), Call(p, true);
    var s1 := At(s, p, CheckToken(k, 0, Some(s.now + 1)));
    var s2 := At(s, p, RemoveLock(k, 0, Some(s.now + 1)));
    hide Exec, LockRun, Next, Stalled;
    StalledStart(s, p, k);
    SameStall(s, s2, p, q, k);
    ExecFirst(s, BeginUnlock(p), [last] + ([Overrun(1)] + (lock + [last])));
    ExecFirst(s1, last, [Overrun(1)] + (lock + [last]));
    StalledTail(s2, p, q, k);
  }

  lemma StalledRemove(s: State, p: nat, q: nat, k: Key)
    requires p < |s.procs| && q < |s.procs| && p != q && s.procs[p] == RemoveLock(k, 0, Some(s.now + 1))
    ensures Next(Locked(Advance(s, s.now + 1), q, k, Some(100)), Call(p, true)) == Stalled(s, p, q, k)
  {
  }

  lemma StalledTail(s: State, p: nat, q: nat, k: Key)
    requires p < |s.procs| && q < |s.procs| && p != q && s.procs[q].Idle?
    requires s.procs[p] == RemoveLock(k, 0, Some(s.now + 1)) && k in s.locks && s.locks[k] == LockRecord(0, Some(s.now + 1))
    ensures Exec(s, [Overrun(1)] + (LockRun(q, k, Some(100)) + [Call(p, true)])) == Stalled(s, p, q, k)
  {
    var lock, last := LockRun(q, k, Some(100)), Call(p, true);
    var s1 := Advance(s, s.now + 1);
    LapsedIsPurged(s, k, s.now + 1);
    assert Next(s, Overrun(1)) == s1 && |s1.procs| == |s.procs| && s1.procs[q].Idle?;
    StalledRemove(s, p, q, k);
    hide Exec, LockRun, Locked, Next, Stalled, Advance;
    ExecFirst(s, Overrun(1), lock + [last]);
    FreeKeyIsLocked(s1, q, k, Some(100));
    ExecConcat(s1, lock, [last]);
    ExecOne(Locked(s1, q, k, Some(100)), last);
  }

  /** `UnlockKey` with a null handle removes the record of whoever holds the key. */
  lemma NullHandleBreaksExclusion(n: nat, k: Key, p: nat, q: nat)
    requires p < n && q < n && p != q
    ensures exists es: seq<Event> ::
      Holds(Exec(Init(n), es), p, k) && Holds(Exec(Init(n), es), q, k) && NoneOverrun(es)
  {
    var s0 := Init(n);
    var a, b, c := LockRun(p, k, Some(100)), [ForceUnlock(k)], LockRun(q, k, Some(100));
    FreeKeyIsLocked(s0, p, k, Some(100));
    var s1 := Exec(s0, a);
    var s2 := Exec(s1, b);
    ExecOne(s1, b[0]);
    FreeKeyIsLocked(s2, q, k, Some(100));
    ExecThree(s0, a, b, c);
    var es := a + b + c;
    assert NoneOverrun(es);
  }

  ghost predicate NoneOverrun(es: seq<Event>) {
    forall i :: 0 <= i < |es| ==> !es[i].Overrun?
  }
}
