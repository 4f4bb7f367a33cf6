/** The leased lock's operations as written, others' cache calls between their own. */
module LeasedLockCode {
  import opened Cache
  import opened LeasedLock

  /** A step that is not handle `h`'s. */
  predicate Foreign(h: nat, e: Event) {
    e != Add(h) && e != Get(h) && e != Remove(h)
  }

  predicate AllForeign(h: nat, es: seq<Event>) {
    forall i :: 0 <= i < |es| ==> Foreign(h, es[i])
  }

  lemma {:induction false} ExecConcat(s: Lock, a: seq<Event>, b: seq<Event>)
    ensures Exec(s, a + b) == Exec(Exec(s, a), b)
    decreases |a|
  {
    if a == [] {
      assert a + b == b;
    } else {
      assert (a + b)[1..] == a[1..] + b;
      ExecConcat(Next(s, a[0]), a[1..], b);
    }
  }

  class SharedCache {
    const lease: Duration
    var now: nat
    var record: Option<Record>
    var handles: seq<Handle>

    constructor (lease: Duration)
      ensures State() == Init(lease)
    {
      this.lease, now, record, handles := lease, 0, None, [];
    }

    function State(): Lock
      reads this
    {
      Lock(now, lease, record, handles)
    }

    /** The rest of the world takes its steps; handle `h` stays where it is. */
    method Interfere(h: nat, env: seq<Event>)
      requires h < |handles| && AllForeign(h, env)
      modifies this
      ensures State() == Exec(old(State()), env) && h < |handles| && handles[h] == old(handles[h])
    {
      for i := 0 to |env|
        invariant State() == Exec(old(State()), env[..i])
        invariant h < |handles| && handles[h] == old(handles[h])
      {
        assert env[..i + 1] == env[..i] + [env[i]];
        ExecConcat(old(State()), env[..i], [env[i]]);
        assert Exec(State(), [env[i]]) == Next(State(), env[i]);
        assert Foreign(h, env[i]);
        var s := Next(State(), env[i]);
        now, record, handles := s.now, s.record, s.handles;
      }
      assert env[..|env|] == env;
    }

    /** A handle when `Add` goes through, none when a record is there. */
    method AcquireStrategy(env: seq<Event>) returns (handle: Option<nat>)
      requires AllForeign(|handles|, env)
      modifies this
      ensures var h := |old(handles)|; State() == Exec(old(State()), [Make] + env + [Add(h)])
      ensures handle.Some? ==> (handle.value == |old(handles)| && Live(State(), handle.value)
        && handles[handle.value].since == now && record == Some(Record(handle.value, now + lease)))
      ensures handle.Some? <==> Exec(old(State()), [Make] + env).record.None?
    {
      var h := |handles|;
      handles := handles + [Handle(0, Made)];
      assert Exec(old(State()), [Make]) == State();
      Interfere(h, env);
      ExecConcat(old(State()), [Make], env);
      ExecConcat(old(State()), [Make] + env, [Add(h)]);
      assert Exec(State(), [Add(h)]) == Next(State(), Add(h));
      if record.Some? {
        handles := handles[h := handles[h].(phase := Refused)];
        return None;
      }
      record := Some(Record(h, now + lease));
      handles := handles[h := Handle(now, Held)];
      return Some(h);
    }

    /** `Get`, and `Remove` when the record is this handle's; another's record is left alone unless it
        came in between the two. */
    method Dispose(h: nat, env: seq<Event>)
      requires In(State(), h, Held) && AllForeign(h, env)
      modifies this
      ensures var own := old(record.Some? && record.value.owner == h);
        State() == Exec(old(State()), [Get(h)] + if own then env + [Remove(h)] else [])
      ensures In(State(), h, Disposed)
      ensures !old(record.Some? && record.value.owner == h) ==> record == old(record)
    {
      var seen := record;
      if seen.Some? && seen.value.owner == h {
        handles := handles[h := handles[h].(phase := Matched)];
        assert Exec(old(State()), [Get(h)]) == State();
        Interfere(h, env);
        ExecConcat(old(State()), [Get(h)], env);
        ExecConcat(old(State()), [Get(h)] + env, [Remove(h)]);
        assert [Get(h)] + (env + [Remove(h)]) == [Get(h)] + env + [Remove(h)];
        assert Exec(State(), [Remove(h)]) == Next(State(), Remove(h));
        record := None;
      }
      handles := handles[h := handles[h].(phase := Disposed)];
    }

    method IsStillHeld(h: nat) returns (held: bool)
      ensures held <==> record.Some? && record.value.owner == h
    {
      var stored := record;
      held := stored.Some? && stored.value.owner == h;
    }
  }
}
