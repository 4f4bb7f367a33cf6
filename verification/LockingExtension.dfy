/** The lock operations as written, with other clients' cache calls between any two
    of their own. The code is proved to take exactly the steps of `KeyLock`. */
module LockingExtension {
  import opened Cache
  import opened KeyLock

  /** What the rest of the world does: a step of another client or of the clock, or the
      guarded key itself coming and going. */
  datatype Outside = Step(e: Event) | Put(key: Key) | Drop(key: Key)

  predicate NotBy(p: nat, o: Outside) {
    o.Step? ==>
      match o.e
      case Begin(q, _, _, _) => q != p
      case Call(q, _) => q != p
      case BeginUnlock(q) => q != p
      case Crash(q) => q != p
      case _ => true
  }

  predicate NoneBy(p: nat, os: seq<Outside>) {
    forall i :: 0 <= i < |os| ==> NotBy(p, os[i])
  }

  function Events(os: seq<Outside>): seq<Event> {
    if os == [] then [] else (if os[0].Step? then [os[0].e] else []) + Events(os[1..])
  }

  predicate Quiet(os: seq<Outside>) {
    forall i :: 0 <= i < |os| && os[i].Step? ==> !os[i].e.ForceUnlock? && !os[i].e.Overrun?
  }

  lemma {:induction false} EventsSnoc(os: seq<Outside>, i: nat)
    requires i < |os|
    ensures Events(os[..i + 1]) == Events(os[..i]) + Events([os[i]])
    decreases i
  {
    if i == 0 {
      assert os[..1] == [os[0]];
    } else {
      assert os[..i + 1][1..] == os[1..][..i] && os[..i][1..] == os[1..][..i - 1];
      EventsSnoc(os[1..], i - 1);
    }
  }

  lemma {:induction false} QuietIsOrderly(os: seq<Outside>)
    ensures Quiet(os) ==> Orderly(Events(os))
  {
    if os != [] && Quiet(os) {
      assert Quiet(os[1..]);
      QuietIsOrderly(os[1..]);
    }
  }

  /** The keys in the cache after the others' steps. */
  function KeysAfter(keys: set<Key>, os: seq<Outside>): set<Key>
    decreases |os|
  {
    if os == [] then keys
    else
      var before, last := KeysAfter(keys, os[..|os| - 1]), os[|os| - 1];
      if last.Put? then before + {last.key} else if last.Drop? then before - {last.key} else before
  }

  lemma {:induction false} KeysThen(keys: set<Key>, a: seq<Outside>, b: seq<Outside>)
    ensures KeysAfter(keys, a + b) == KeysAfter(KeysAfter(keys, a), b)
    decreases |b|
  {
    if b == [] {
      assert a + b == a;
    } else {
      assert (a + b)[..|a + b| - 1] == a + b[..|b| - 1];
      KeysThen(keys, a, b[..|b| - 1]);
    }
  }

  /** The others' events, and after each part of them one call of client `p`, with what it learns of the key. */
  function Woven(p: nat, env: seq<seq<Outside>>, presents: seq<bool>): seq<Event>
    requires |presents| <= |env|
    decreases |presents|
  {
    if presents == [] then []
    else
      var n := |presents| - 1;
      Woven(p, env, presents[..n]) + Events(env[n]) + [Call(p, presents[n])]
  }

  ghost predicate Follows(os: seq<Outside>, before: seq<Event>, trace: seq<Event>) {
    before <= trace && (Orderly(before) && Quiet(os) ==> Orderly(trace))
  }

  lemma Extend(s0: KeyLock.State, os: seq<Outside>, before: seq<Event>, trace: seq<Event>, e: Event)
    requires trace == before + Events(os) && e.Call?
    ensures Exec(s0, trace + [e]) == Next(Exec(s0, trace), e)
    ensures Follows(os, before, trace + [e])
  {
    QuietIsOrderly(os);
    ExecConcat(s0, trace, [e]);
    ExecOne(Exec(s0, trace), e);
  }

  /** The run of a `LockKey`. */
  function LockTrace(p: nat, key: Key, lease: Option<Duration>, env: seq<seq<Outside>>, presents: seq<bool>): seq<Event>
    requires |presents| <= |env|
  {
    [Begin(p, key, lease, false)] + Woven(p, env, presents)
  }

  /** One more call. */
  ghost function Learn(p: nat, key: Key, lease: Option<Duration>, env: seq<seq<Outside>>, presents: seq<bool>, present: bool)
    : (more: seq<bool>)
    requires |presents| < |env|
    ensures more == presents + [present]
    ensures LockTrace(p, key, lease, env, more) == LockTrace(p, key, lease, env, presents) + Events(env[|presents|]) + [Call(p, present)]
  {
    var more := presents + [present];
    assert more[..|presents|] == presents;
    more
  }

  /** A shared cache and the clients working on it. */
  class SharedCache {
    var now: nat
    var issuers: seq<nat>
    var locks: map<Key, LockRecord>
    var procs: seq<Phase>
    var keys: set<Key>

    function State(): KeyLock.State
      reads this
    {
      KeyLock.State(now, issuers, locks, procs)
    }

    method Apply(o: Outside, p: nat)
      requires p < |procs| && NotBy(p, o)
      modifies this
      ensures State() == Exec(old(State()), Events([o])) && keys == KeysAfter(old(keys), [o])
      ensures |procs| == old(|procs|) && procs[p] == old(procs[p])
    {
      match o
      case Put(k) => keys := keys + {k};
      case Drop(k) => keys := keys - {k};
      case Step(e) =>
        var s := Next(State(), e);
        ExecOne(State(), e);
        assert Events([o]) == [e];
        now, issuers, locks, procs := s.now, s.issuers, s.locks, s.procs;
    }

    /** Others run while client `p` is between two calls; `trace` grows by their events. */
    method Interfere(p: nat, os: seq<Outside>, ghost s0: KeyLock.State, ghost before: seq<Event>)
      returns (ghost trace: seq<Event>)
      requires p < |procs| && NoneBy(p, os) && State() == Exec(s0, before)
      modifies this
      ensures State() == Exec(s0, trace) && trace == before + Events(os) && keys == KeysAfter(old(keys), os)
      ensures |procs| == old(|procs|) && procs[p] == old(procs[p])
    {
      trace := before;
      assert before + [] == before;
      for i := 0 to |os|
        invariant trace == before + Events(os[..i]) && State() == Exec(s0, trace) && keys == KeysAfter(old(keys), os[..i])
        invariant |procs| == old(|procs|) && procs[p] == old(procs[p])
      {
        EventsSnoc(os, i);
        assert os[..i + 1][..i] == os[..i] && [os[i]][..0] == [];
        ExecConcat(s0, trace, Events([os[i]]));
        Apply(os[i], p);
        trace := trace + Events([os[i]]);
      }
      assert os[..|os|] == os;
    }

    // ---- One cache call each, with what others do before it ----

    method ContainsKey(p: nat, key: Key, lease: Option<Duration>, os: seq<Outside>,
                       ghost s0: KeyLock.State, ghost before: seq<Event>)
      returns (present: bool, ghost trace: seq<Event>)
      requires p < |procs| && procs[p] == CheckKey(key, lease)
      requires NoneBy(p, os) && State() == Exec(s0, before)
      modifies this
      ensures State() == Exec(s0, trace) && Follows(os, before, trace) && |procs| == old(|procs|)
      ensures keys == KeysAfter(old(keys), os) && trace == before + Events(os) + [Call(p, present)] && (present <==> key in keys)
      ensures procs[p] == if present then CheckLock(key, lease) else Refused(key, None)
    {
      trace := Interfere(p, os, s0, before);
      present := key in keys;
      Extend(s0, os, before, trace, Call(p, present));
      trace := trace + [Call(p, present)];
      procs := procs[p := if present then CheckLock(key, lease) else Refused(key, None)];
    }

    method ContainsLock(p: nat, key: Key, lease: Option<Duration>, os: seq<Outside>,
                        ghost s0: KeyLock.State, ghost before: seq<Event>)
      returns (locked: bool, ghost trace: seq<Event>)
      requires p < |procs| && procs[p] == CheckLock(key, lease)
      requires NoneBy(p, os) && State() == Exec(s0, before)
      modifies this
      ensures State() == Exec(s0, trace) && Follows(os, before, trace) && |procs| == old(|procs|)
      ensures keys == KeysAfter(old(keys), os) && trace == before + Events(os) + [Call(p, true)]
      ensures procs[p] == if locked then Refused(key, None) else AddLock(key, lease)
    {
      trace := Interfere(p, os, s0, before);
      locked := key in locks;
      Extend(s0, os, before, trace, Call(p, true));
      trace := trace + [Call(p, true)];
      procs := procs[p := if locked then Refused(key, None) else AddLock(key, lease)];
    }

    /** `Add` of the lock record, under a fresh token; false when the key already exists. */
    method AddRecord(p: nat, key: Key, lease: Option<Duration>, os: seq<Outside>,
                     ghost s0: KeyLock.State, ghost before: seq<Event>)
      returns (added: bool, token: Token, ghost trace: seq<Event>)
      requires p < |procs| && procs[p] == AddLock(key, lease)
      requires NoneBy(p, os) && State() == Exec(s0, before)
      modifies this
      ensures State() == Exec(s0, trace) && Follows(os, before, trace) && |procs| == old(|procs|)
      ensures keys == KeysAfter(old(keys), os) && trace == before + Events(os) + [Call(p, true)]
      ensures added ==> procs[p].ReadBack? && procs[p].key == key && procs[p].token == token
      ensures !added ==> procs[p] == ReadHolder(key)
    {
      trace := Interfere(p, os, s0, before);
      Extend(s0, os, before, trace, Call(p, true));
      trace := trace + [Call(p, true)];
      added, token := key !in locks, |issuers|;
      if added {
        var ends := EndOf(lease, now);
        locks, issuers := locks[key := LockRecord(token, ends)], issuers + [p];
        procs := procs[p := ReadBack(key, token, ends)];
      } else {
        procs := procs[p := ReadHolder(key)];
      }
    }

    method GetHolder(p: nat, key: Key, os: seq<Outside>, ghost s0: KeyLock.State, ghost before: seq<Event>)
      returns (token: Option<Token>, ghost trace: seq<Event>)
      requires p < |procs| && procs[p] == ReadHolder(key)
      requires NoneBy(p, os) && State() == Exec(s0, before)
      modifies this
      ensures State() == Exec(s0, trace) && Follows(os, before, trace) && |procs| == old(|procs|)
      ensures keys == KeysAfter(old(keys), os) && trace == before + Events(os) + [Call(p, true)]
      ensures procs[p] == Refused(key, token)
    {
      trace := Interfere(p, os, s0, before);
      Extend(s0, os, before, trace, Call(p, true));
      trace := trace + [Call(p, true)];
      token := if key in locks then Some(locks[key].token) else None;
      procs := procs[p := Refused(key, token)];
    }

    /** `GetBulk` of the key and its lock record. */
    method GetBoth(p: nat, key: Key, token: Token, os: seq<Outside>,
                   ghost s0: KeyLock.State, ghost before: seq<Event>)
      returns (stored: bool, present: bool, ghost trace: seq<Event>)
      requires p < |procs| && procs[p].ReadBack? && procs[p].key == key && procs[p].token == token
      requires NoneBy(p, os) && State() == Exec(s0, before)
      modifies this
      ensures State() == Exec(s0, trace) && Follows(os, before, trace) && |procs| == old(|procs|)
      ensures keys == KeysAfter(old(keys), os) && trace == before + Events(os) + [Call(p, present)] && (present <==> key in keys)
      ensures !stored ==> procs[p] == Refused(key, None)
      ensures stored && !present ==> procs[p] == Undo(key, token, old(procs[p].ends))
      ensures stored && present ==> procs[p] == Held(key, token, old(procs[p].ends))
    {
      trace := Interfere(p, os, s0, before);
      var ends := procs[p].ends;
      stored, present := key in locks && locks[key].token == token, key in keys;
      Extend(s0, os, before, trace, Call(p, present));
      trace := trace + [Call(p, present)];
      procs := procs[p := if !stored then Refused(key, None)
                          else if !present then Undo(key, token, ends)
                          else Held(key, token, ends)];
    }

    method GetOwn(p: nat, key: Key, token: Token, os: seq<Outside>,
                  ghost s0: KeyLock.State, ghost before: seq<Event>)
      returns (own: bool, ghost trace: seq<Event>)
      requires p < |procs| && procs[p].CheckToken? && procs[p].key == key && procs[p].token == token
      requires NoneBy(p, os) && State() == Exec(s0, before)
      modifies this
      ensures State() == Exec(s0, trace) && Follows(os, before, trace) && |procs| == old(|procs|)
      ensures keys == KeysAfter(old(keys), os) && trace == before + Events(os) + [Call(p, true)]
      ensures procs[p] == if own then RemoveLock(key, token, old(procs[p].ends)) else Idle
      ensures own <==> key in locks && locks[key].token == token
      ensures locks == Exec(s0, before + Events(os)).locks
    {
      trace := Interfere(p, os, s0, before);
      var ends := procs[p].ends;
      own := key in locks && locks[key].token == token;
      Extend(s0, os, before, trace, Call(p, true));
      trace := trace + [Call(p, true)];
      procs := procs[p := if own then RemoveLock(key, token, ends) else Idle];
    }

    /** `Remove` of the lock record, on the way out of `LockKey` or `UnlockKey`. */
    method RemoveRecord(p: nat, key: Key, os: seq<Outside>, ghost s0: KeyLock.State, ghost before: seq<Event>)
      returns (ghost trace: seq<Event>)
      requires p < |procs| && (procs[p].Undo? || procs[p].RemoveLock?) && procs[p].key == key
      requires NoneBy(p, os) && State() == Exec(s0, before)
      modifies this
      ensures State() == Exec(s0, trace) && Follows(os, before, trace) && |procs| == old(|procs|)
      ensures keys == KeysAfter(old(keys), os) && trace == before + Events(os) + [Call(p, true)]
      ensures procs[p] == if old(procs[p].Undo?) then Refused(key, None) else Idle
      ensures locks == Exec(s0, before + Events(os)).locks - {key}
    {
      trace := Interfere(p, os, s0, before);
      Extend(s0, os, before, trace, Call(p, true));
      trace := trace + [Call(p, true)];
      locks := locks - {key};
      procs := procs[p := if procs[p].Undo? then Refused(key, None) else Idle];
    }

    // ---- The operations ----

    /** `LockKey`. `env[i]` is what others do before its i-th cache call. The new state is that of a run of the protocol
        which consists of the others' events and of the calls of `p`; `presents` says what they learn of the key. */
    method LockKey(p: nat, key: Key, lease: Option<Duration>, env: seq<seq<Outside>>)
      returns (ok: bool, token: Option<Token>, ghost presents: seq<bool>)
      requires p < |procs| && (procs[p].Idle? || procs[p].Refused?)
      requires |env| == 5 && forall i :: 0 <= i < 5 ==> NoneBy(p, env[i])
      modifies this
      ensures 0 < |presents| <= 5 && State() == Exec(old(State()), LockTrace(p, key, lease, env, presents)) && |procs| == old(|procs|)
      ensures (forall i :: 0 <= i < 5 ==> Quiet(env[i])) ==> Orderly(LockTrace(p, key, lease, env, presents))
      ensures presents[0] <==> key in KeysAfter(old(keys), env[0])
      ensures ok ==> |presents| == 4 && key in KeysAfter(old(keys), env[0] + env[1] + env[2] + env[3])
      ensures ok ==> procs[p].Held? && procs[p].key == key && token == Some(procs[p].token)
      ensures !ok ==> procs[p] == Refused(key, token)
    {
      ghost var s0 := State();
      procs := procs[p := CheckKey(key, lease)];
      ghost var trace := [Begin(p, key, lease, false)];
      ExecOne(s0, trace[0]);
      presents := [];
      assert LockTrace(p, key, lease, env, presents) == trace;

      var present, locked, added, mine, stored;
      present, trace := ContainsKey(p, key, lease, env[0], s0, trace);
      presents := Learn(p, key, lease, env, presents, present);
      if !present {
        return false, None, presents;
      }
      locked, trace := ContainsLock(p, key, lease, env[1], s0, trace);
      presents := Learn(p, key, lease, env, presents, true);
      KeysThen(old(keys), env[0], env[1]);
      if locked {
        return false, None, presents;
      }
      added, mine, trace := AddRecord(p, key, lease, env[2], s0, trace);
      presents := Learn(p, key, lease, env, presents, true);
      KeysThen(old(keys), env[0] + env[1], env[2]);
      if !added {
        token, trace := GetHolder(p, key, env[3], s0, trace);
        presents := Learn(p, key, lease, env, presents, true);
        return false, token, presents;
      }
      stored, present, trace := GetBoth(p, key, mine, env[3], s0, trace);
      presents := Learn(p, key, lease, env, presents, present);
      KeysThen(old(keys), env[0] + env[1] + env[2], env[3]);
      if !stored {
        return false, None, presents;
      }
      if !present {
        trace := RemoveRecord(p, key, env[4], s0, trace);
        presents := Learn(p, key, lease, env, presents, true);
        return false, None, presents;
      }
      return true, Some(mine), presents;
    }

    /** `UnlockKey` with the client's own token. A record that is not its own at its `Get` stays: its own calls remove
        the record that it saw there to be its own, or nothing. */
    method UnlockKey(p: nat, token: Token, env: seq<seq<Outside>>)
      requires p < |procs| && procs[p].Held? && procs[p].token == token
      requires |env| == 2 && forall i :: 0 <= i < 2 ==> NoneBy(p, env[i])
      modifies this
      ensures var key, s := old(procs[p].key), Exec(old(State()), [BeginUnlock(p)] + Events(env[0]));
        if key in s.locks && s.locks[key].token == token then
          var s' := Exec(old(State()), [BeginUnlock(p)] + Events(env[0]) + [Call(p, true)] + Events(env[1]));
          && State() == Exec(old(State()), [BeginUnlock(p)] + Events(env[0]) + [Call(p, true)] + Events(env[1]) + [Call(p, true)])
          && locks == s'.locks - {key}
        else
          State() == Exec(old(State()), [BeginUnlock(p)] + Events(env[0]) + [Call(p, true)]) && locks == s.locks
      ensures p < |procs| && procs[p] == Idle
      ensures Quiet(env[0]) && Quiet(env[1]) && Inv(old(State())) ==> Inv(State())
    {
      ghost var s0 := State();
      var key := procs[p].key;
      procs := procs[p := CheckToken(key, token, procs[p].ends)];
      ghost var trace := [BeginUnlock(p)];
      ExecOne(s0, trace[0]);

      var own;
      own, trace := GetOwn(p, key, token, env[0], s0, trace);
      if own {
        trace := RemoveRecord(p, key, env[1], s0, trace);
      }
      if Quiet(env[0]) && Quiet(env[1]) && Inv(s0) {
        ExecInv(s0, trace);
      }
    }

    /** `UnlockKey` with a null handle: the record goes, whoever added it. */
    method UnlockKeyOfAnyone(key: Key)
      modifies this
      ensures State() == Next(old(State()), ForceUnlock(key)) && key !in locks
    {
      locks := locks - {key};
    }

    /** `IsCorrectLockToken`: under the protocol's invariant, true exactly for the owner's token. */
    method IsCorrectLockToken(key: Key, token: Token) returns (correct: bool)
      requires Inv(State())
      ensures correct <==> exists p: nat :: OwnerAt(State(), key, p) && Core(procs[p]).token == token
    {
      correct := key in locks && locks[key].token == token;
      if correct {
        assert RecordOk(State(), key);
        assert OwnerAt(State(), key, issuers[locks[key].token]);
      }
    }
  }
}
