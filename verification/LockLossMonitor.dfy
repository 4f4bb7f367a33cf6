/** `LockLossMonitor`: timer callbacks that ask whether the lock is still held, and `Dispose`, all at once. */
module LockLossMonitor {

  /** Where one timer callback stands. */
  datatype Check =
    | Reading            // Volatile.Read(_stopped)
    | Asking             // _isStillHeld()
    | Swapping           // MarkLost: Interlocked.Exchange(_stopped, 1)
    | Cancelling         // it won the exchange; the timer is gone, Cancel is next
    | Over

  datatype Disposal = NotYet | Swapped | Complete

  /** Who set `stopped`: a callback, or `Dispose`. */
  datatype Winner = Nobody | Callback(i: nat) | Disposer

  /** `losses`: the callbacks that found the lock gone; `late`: a `Cancel` met a source disposed already. */
  datatype Monitor = Monitor(stopped: bool, timers: int, cancelled: bool, disposal: Disposal, checks: seq<Check>,
                             winner: Winner, losses: set<nat>, late: bool)

  datatype Event =
    | Fire                              // the timer starts a callback
    | Step(i: nat, held: bool)          // callback `i` goes on; `held`: the answer, false for an exception too
    | Swap                              // Dispose: Exchange, and the timer if it won
    | DisposeSource                     // Dispose: _cts.Dispose()

  function Init(): Monitor {
    Monitor(false, 1, false, NotYet, [], Nobody, {}, false)
  }

  function Move(s: Monitor, i: nat, c: Check): Monitor
    requires i < |s.checks|
  {
    s.(checks := s.checks[i := c])
  }

  function Next(s: Monitor, e: Event): Monitor {
    match e
    case Fire => if s.timers > 0 then s.(checks := s.checks + [Reading]) else s
    case Step(i, held) =>
      if i >= |s.checks| then s
      else (
        match s.checks[i]
        case Reading => Move(s, i, if s.stopped then Over else Asking)
        case Asking => if held then Move(s, i, Over) else Move(s, i, Swapping).(losses := s.losses + {i})
        case Swapping =>
          if s.stopped then Move(s, i, Over)
          else Move(s, i, Cancelling).(stopped := true, timers := s.timers - 1, winner := Callback(i))
        case Cancelling => Move(s, i, Over).(cancelled := s.cancelled || !s.disposal.Complete?, late := s.late || s.disposal.Complete?)
        case Over => s)
    case Swap =>
      if !s.disposal.NotYet? then s
      else if s.stopped then s.(disposal := Swapped)
      else s.(disposal := Swapped, stopped := true, timers := s.timers - 1, winner := Disposer)
    case DisposeSource => if s.disposal.Swapped? then s.(disposal := Complete) else s
  }

  function Exec(s: Monitor, es: seq<Event>): Monitor
    decreases |es|
  {
    if es == [] then s else Exec(Next(s, es[0]), es[1..])
  }

  /** The exchange has one winner, who takes the timer down; only a callback that saw the lock gone cancels. */
  predicate Inv(s: Monitor) {
    && (s.stopped <==> !s.winner.Nobody?)
    && s.timers == (if s.stopped then 0 else 1)
    && (s.disposal.NotYet? ==> !s.winner.Disposer?)
    && (s.cancelled ==> s.winner.Callback?)
    && (s.winner.Callback? ==> s.winner.i < |s.checks| && s.winner.i in s.losses)
    && (forall i :: 0 <= i < |s.checks| && s.checks[i].Cancelling? ==> s.winner == Callback(i))
    && (forall i :: 0 <= i < |s.checks| && s.checks[i].Swapping? ==> i in s.losses)
    && (s.winner.Callback? ==> s.cancelled || s.late || s.checks[s.winner.i].Cancelling?)
    && (s.late ==> s.winner.Callback? && s.disposal.Complete? && !s.cancelled && !s.checks[s.winner.i].Cancelling?)
    && (s.cancelled ==> !s.checks[s.winner.i].Cancelling?)
  }

  lemma StepInv(s: Monitor, i: nat, held: bool)
    requires Inv(s) && i < |s.checks|
    ensures Inv(Next(s, Step(i, held)))
  {
    match s.checks[i]
    case Reading => OneCheck(s, i, if s.stopped then Over else Asking);
    case Asking =>
      if held { OneCheck(s, i, Over); }
    case Swapping =>
      if s.stopped { OneCheck(s, i, Over); }
    case Cancelling => assert s.winner == Callback(i);
    case Over =>
  }

  /** A callback that neither finds a loss nor touches the exchange. */
  lemma OneCheck(s: Monitor, i: nat, c: Check)
    requires Inv(s) && i < |s.checks| && !s.checks[i].Cancelling? && (c.Asking? || c.Over?)
    ensures Inv(Move(s, i, c))
  {
  }

  lemma NextInv(s: Monitor, e: Event)
    requires Inv(s)
    ensures Inv(Next(s, e))
  {
    if e.Step? && e.i < |s.checks| {
      StepInv(s, e.i, e.held);
      hide Inv, Next;
    }
  }

  lemma {:induction false} ExecInv(s: Monitor, es: seq<Event>)
    requires Inv(s)
    ensures Inv(Exec(s, es))
    decreases |es|
  {
    if es != [] {
      NextInv(s, es[0]);
      hide Next, Inv;
      ExecInv(Next(s, es[0]), es[1..]);
    }
  }

  lemma WinnerStays(s: Monitor, e: Event)
    requires Inv(s)
    ensures s.stopped ==> Next(s, e).stopped && Next(s, e).winner == s.winner
  {
  }

  /** The token is cancelled only after a callback, whose exchange came before Dispose's, found the lock
      lost; and the timer is disposed exactly once, by whoever comes first. */
  lemma {:induction false} CancelledOnlyWhenLost(es: seq<Event>)
    ensures var s := Exec(Init(), es);
      && (s.cancelled ==> s.winner.Callback? && s.winner.i in s.losses)
      && s.timers == (if s.stopped then 0 else 1)
  {
    ExecInv(Init(), es);
  }

  /** Once Dispose has won the exchange the token stays as it is, whatever callbacks still run. */
  lemma {:induction false} NothingAfterDispose(s: Monitor, es: seq<Event>)
    requires Inv(s) && s.winner.Disposer?
    ensures !Exec(s, es).cancelled
    decreases |es|
  {
    if es != [] {
      NextInv(s, es[0]);
      WinnerStays(s, es[0]);
      hide Next;
      NothingAfterDispose(Next(s, es[0]), es[1..]);
    }
  }

  /** When the callbacks have come to rest, a loss that was found has been reported if and only if a callback won the
      exchange and its `Cancel` came before the source was disposed; so always, if `Dispose` has not begun. */
  lemma {:induction false} LossIsReported(es: seq<Event>)
    ensures var s := Exec(Init(), es);
      s.losses != {} && (forall i :: 0 <= i < |s.checks| ==> s.checks[i].Over?) ==>
        (s.cancelled <==> s.winner.Callback? && !s.late) && (s.disposal.NotYet? ==> s.cancelled)
  {
    ExecInv(Init(), es);
    LossesMoveOn(Init(), es);
  }

  /** Both exceptions occur: `Dispose` wins the exchange after the loss was found, or disposes the source just before the
      winner's `Cancel`. */
  lemma LossGoesUnreported()
    ensures exists es :: var s := Exec(Init(), es); s.losses != {} && s.checks == [Over] && !s.cancelled && s.winner.Disposer?
    ensures exists es :: var s := Exec(Init(), es); s.losses != {} && s.checks == [Over] && !s.cancelled && s.late
  {
    var found := [Fire, Step(0, true), Step(0, false)];
    var s := Monitor(false, 1, false, NotYet, [Swapping], Nobody, {0}, false);
    assert Exec(Init(), found) == s;
    var beaten, late := [Swap, Step(0, true)], [Step(0, true), Swap, DisposeSource, Step(0, true)];
    ExecConcat(Init(), found, beaten);
    ExecConcat(Init(), found, late);
    assert Exec(s, beaten) == Monitor(true, 0, false, Swapped, [Over], Disposer, {0}, false);
    assert Exec(s, late) == Monitor(true, 0, false, Complete, [Over], Callback(0), {0}, true);
  }

  lemma {:induction false} ExecConcat(s: Monitor, a: seq<Event>, b: seq<Event>)
    ensures Exec(s, a + b) == Exec(Exec(s, a), b)
    decreases |a|
  {
    if a == [] {
      assert a + b == b;
    } else {
      assert (a + b)[1..] == a[1..] + b;
      ExecConcat(Next(s, a[0]), a[1..], b);
    }
  }

  /** A callback that saw the lock gone is still to swap, or somebody has. */
  predicate Moving(s: Monitor) {
    forall i :: i in s.losses ==> i < |s.checks| && (s.stopped || s.checks[i].Swapping?)
  }

  lemma {:induction false} LossesMoveOn(s: Monitor, es: seq<Event>)
    requires Inv(s) && Moving(s)
    ensures Moving(Exec(s, es))
    decreases |es|
  {
    if es != [] {
      NextInv(s, es[0]);
      assert Moving(Next(s, es[0]));
      hide Next, Inv;
      LossesMoveOn(Next(s, es[0]), es[1..]);
    }
  }

  /** No callback of the run is told that the lock is gone. */
  predicate AlwaysHeld(s: Monitor, es: seq<Event>)
    decreases |es|
  {
    es == [] || (!Denied(s, es[0]) && AlwaysHeld(Next(s, es[0]), es[1..]))
  }

  predicate Denied(s: Monitor, e: Event) {
    e.Step? && e.i < |s.checks| && s.checks[e.i].Asking? && !e.held
  }

  /** As long as every question is answered with yes the token is never cancelled. */
  lemma {:induction false} NeverCancelledWhileHeld(s: Monitor, es: seq<Event>)
    requires Inv(s) && s.losses == {} && AlwaysHeld(s, es)
    ensures Exec(s, es).losses == {} && !Exec(s, es).cancelled && !Exec(s, es).winner.Callback?
    decreases |es|
  {
    if es != [] {
      NextInv(s, es[0]);
      assert Next(s, es[0]).losses == {};
      hide Next, Inv;
      NeverCancelledWhileHeld(Next(s, es[0]), es[1..]);
    }
  }

  /** Once the monitor has stopped, a callback that has not asked yet never asks. */
  lemma {:induction false} NobodyAsksAfterStop(s: Monitor, es: seq<Event>, i: nat)
    requires Inv(s) && s.stopped && i !in s.losses && (i >= |s.checks| || s.checks[i].Reading? || s.checks[i].Over?)
    ensures var s' := Exec(s, es); i !in s'.losses && (i >= |s'.checks| || s'.checks[i].Reading? || s'.checks[i].Over?)
    decreases |es|
  {
    if es != [] {
      NextInv(s, es[0]);
      WinnerStays(s, es[0]);
      NoQuestion(s, es[0], i);
      hide Next, Inv;
      NobodyAsksAfterStop(Next(s, es[0]), es[1..], i);
    }
  }

  lemma NoQuestion(s: Monitor, e: Event, i: nat)
    requires Inv(s) && s.stopped && i !in s.losses && (i >= |s.checks| || s.checks[i].Reading? || s.checks[i].Over?)
    ensures var s' := Next(s, e); i !in s'.losses && (i >= |s'.checks| || s'.checks[i].Reading? || s'.checks[i].Over?)
  {
  }

  lemma Unroll(s: Monitor, e: Event, es: seq<Event>)
    ensures Exec(s, [e] + es) == Exec(Next(s, e), es)
  {
    assert ([e] + es)[1..] == es;
  }

  /** A callback that runs undisturbed does what `Source.CheckOnce` does: told that the lock is gone it stops the monitor
      and cancels the token; told that it is held it changes nothing. */
  lemma CheckAlone(s: Monitor, held: bool)
    requires !s.stopped && s.timers > 0 && s.disposal.NotYet?
    ensures var i := |s.checks|;
      var step := Step(i, held);
      var s' := Exec(s, [Fire] + ([step] + ([step] + ([step] + ([step] + [])))));
      && s'.checks == s.checks + [Over] && s'.disposal == s.disposal
      && s'.stopped == !held && s'.timers == (if held then s.timers else s.timers - 1) && s'.cancelled == (s.cancelled || !held)
  {
    hide Next, Exec;
    var step := Step(|s.checks|, held);
    var s1 := Next(s, Fire);
    var s2 := Next(s1, step);
    var s3 := Next(s2, step);
    var s4 := Next(s3, step);
    CheckAsks(s, held);
    CheckEnds(s2, |s.checks|, held);
    Unroll(s, Fire, [step] + ([step] + ([step] + ([step] + []))));
    Unroll(s1, step, [step] + ([step] + ([step] + [])));
    Unroll(s2, step, [step] + ([step] + []));
    Unroll(s3, step, [step] + []);
    Unroll(s4, step, []);
    ExecNone(Next(s4, step));
  }

  lemma CheckAsks(s: Monitor, held: bool)
    requires !s.stopped && s.timers > 0
    ensures Next(Next(s, Fire), Step(|s.checks|, held)) == s.(checks := s.checks + [Asking])
  {
  }

  lemma CheckEnds(s: Monitor, i: nat, held: bool)
    requires !s.stopped && s.disposal.NotYet? && i < |s.checks| && s.checks[i].Asking?
    ensures var s' := Next(Next(Next(s, Step(i, held)), Step(i, held)), Step(i, held));
      && s'.checks == s.checks[i := Over] && s'.disposal == s.disposal
      && s'.stopped == !held && s'.timers == (if held then s.timers else s.timers - 1) && s'.cancelled == (s.cancelled || !held)
  {
    var s1 := Next(s, Step(i, held));
    assert s1.checks == s.checks[i := if held then Over else Swapping];
    var s2 := Next(s1, Step(i, held));
    assert s2.checks == s.checks[i := if held then Over else Cancelling];
  }

  lemma ExecNone(s: Monitor)
    ensures Exec(s, []) == s
  {
  }

  // ---- The polling interval ----

  /** In milliseconds; a third of the expiration, no less than 500 and no more than 5000. */
  function Interval(expiration: real): (r: real)
    ensures 500.0 <= r <= 5000.0
  {
    var third := expiration / 3.0;
    var capped := if third < 5000.0 then third else 5000.0;
    if 500.0 > capped then 500.0 else capped
  }

  /** A third of the expiration between a second and a half and fifteen; half a second below that, and five seconds above. */
  lemma IntervalIsAThird(expiration: real)
    ensures 1500.0 <= expiration <= 15000.0 ==> 3.0 * Interval(expiration) == expiration
    ensures expiration <= 1500.0 ==> Interval(expiration) == 500.0
    ensures expiration >= 15000.0 ==> Interval(expiration) == 5000.0
  {
  }

  /** A couple of checks fit before the record expires exactly when the lease is a second or longer. */
  lemma ACoupleOfChecks(expiration: real)
    ensures 2.0 * Interval(expiration) <= expiration <==> expiration >= 1000.0
  {
  }

  // ---- The monitor as written ----

  class Source {
    var stopped: bool
    var timerOn: bool
    var cancelled: bool
    var disposed: bool

    constructor ()
      ensures !stopped && timerOn && !cancelled && !disposed
    {
      stopped, timerOn, cancelled, disposed := false, true, false, false;
    }

    method MarkLost()
      modifies this
      ensures stopped && disposed == old(disposed)
      ensures timerOn == (old(timerOn) && old(stopped))
      ensures cancelled == (old(cancelled) || (!old(stopped) && !old(disposed)))
    {
      var was := stopped;
      stopped := true;
      if !was {
        timerOn := false;
        if !disposed {
          cancelled := true;
        }
      }
    }

    /** `held`: the answer of the ownership check, none when it threw. */
    method CheckOnce(held: seq<bool>)
      requires |held| <= 1
      modifies this
      ensures disposed == old(disposed) && stopped == (old(stopped) || held != [true])
      ensures cancelled == (old(cancelled) || (!old(stopped) && !old(disposed) && held != [true]))
      ensures timerOn == (old(timerOn) && (old(stopped) || held == [true]))
    {
      if stopped {
        return;
      }
      var stillHeld := held != [] && held[0];
      if !stillHeld {
        MarkLost();
      }
    }

    method Dispose()
      modifies this
      ensures stopped && disposed && cancelled == old(cancelled) && timerOn == (old(timerOn) && old(stopped))
    {
      var was := stopped;
      stopped := true;
      if !was {
        timerOn := false;
      }
      disposed := true;
    }
  }
}
