/** How late and how often a heartbeat may fail before a live worker's entry is seen as stale.

    The entry is stamped when the job is marked; the timer is started `startUp` ticks later and then
    fires every third of the time-out. A beat stamps the entry some ticks after it fired, or is missed. */
module Heartbeat {

  datatype Beat = Beat(hit: bool, delay: nat)

  /** The renewal interval, in whole ticks. */
  function Every(timeout: nat): nat {
    timeout / 3
  }

  /** When beat `i` writes, counted from the moment the job was marked. */
  function TimeOf(timeout: nat, startUp: nat, beats: seq<Beat>, i: nat): nat
    requires i < |beats|
  {
    startUp + (i + 1) * Every(timeout) + beats[i].delay
  }

  /** The stamp on the entry after the first `n` beats. */
  function Stamp(timeout: nat, startUp: nat, beats: seq<Beat>, n: nat): nat
    requires n <= |beats|
  {
    if n == 0 then 0
    else if beats[n - 1].hit then TimeOf(timeout, startUp, beats, n - 1)
    else Stamp(timeout, startUp, beats, n - 1)
  }

  /** The watcher's test, strict as it is. */
  predicate Stale(timeout: nat, stamp: nat, now: nat) {
    stamp + timeout < now
  }

  /** Whenever a watcher looks before beat `i` writes, it finds the entry fresh. */
  predicate Fresh(timeout: nat, startUp: nat, beats: seq<Beat>, i: nat)
    requires i < |beats|
  {
    forall now: nat :: now <= TimeOf(timeout, startUp, beats, i) ==> !Stale(timeout, Stamp(timeout, startUp, beats, i), now)
  }

  predicate NeverStale(timeout: nat, startUp: nat, beats: seq<Beat>) {
    forall i: nat :: i < |beats| ==> Fresh(timeout, startUp, beats, i)
  }

  predicate Missed(beats: seq<Beat>, k: int) {
    0 <= k < |beats| && !beats[k].hit
  }

  /** One of the `misses + 1` beats from `i` on hits. */
  predicate HitWithin(beats: seq<Beat>, i: nat, misses: nat) {
    exists k: nat :: i <= k <= i + misses && !Missed(beats, k)
  }

  /** At most `misses` beats in a row are missed; no beat is later than `slack`, start-up included. */
  predicate Regular(beats: seq<Beat>, startUp: nat, misses: nat, slack: nat) {
    && (forall i: nat :: i < |beats| ==> startUp + beats[i].delay <= slack)
    && (forall i: nat :: i + misses < |beats| ==> HitWithin(beats, i, misses))
  }

  /** After beat `k` hit, the stamp is never older than that beat. */
  lemma {:induction false} StampSince(timeout: nat, startUp: nat, beats: seq<Beat>, k: nat, n: nat)
    requires k < n <= |beats| && beats[k].hit
    ensures Stamp(timeout, startUp, beats, n) >= startUp + (k + 1) * Every(timeout)
  {
    if !beats[n - 1].hit {
      StampSince(timeout, startUp, beats, k, n - 1);
    } else {
      Monotone(k + 1, n, Every(timeout));
    }
  }

  lemma Monotone(a: nat, b: nat, c: nat)
    requires a <= b
    ensures a * c <= b * c
  {
    assert b * c == a * c + (b - a) * c;
  }

  lemma Window(i: nat, k: nat, misses: nat, c: nat)
    requires i <= k + 1 + misses
    ensures (i + 1) * c <= (k + 1) * c + (misses + 1) * c
  {
    Monotone(i + 1, k + 1 + (misses + 1), c);
    assert (k + 1 + (misses + 1)) * c == (k + 1) * c + (misses + 1) * c;
  }

  lemma BeatIsFresh(timeout: nat, startUp: nat, beats: seq<Beat>, misses: nat, slack: nat, i: nat)
    requires Regular(beats, startUp, misses, slack) && (misses + 1) * Every(timeout) + slack <= timeout
    requires i < |beats|
    ensures Fresh(timeout, startUp, beats, i)
  {
    var every := Every(timeout);
    if i <= misses {
      Monotone(i + 1, misses + 1, every);
    } else {
      assert HitWithin(beats, i - 1 - misses, misses);
      var k: nat :| i - 1 - misses <= k <= i - 1 && !Missed(beats, k);
      StampSince(timeout, startUp, beats, k, i);
      Window(i, k, misses, every);
    }
  }

  /** `misses` missed beats, then one that is as late as can be. */
  function Worst(misses: nat, slack: nat): seq<Beat> {
    seq(misses, _ => Beat(false, 0)) + [Beat(true, slack)]
  }

  lemma {:induction false} NoStamp(timeout: nat, startUp: nat, beats: seq<Beat>, n: nat)
    requires n <= |beats| && forall i :: 0 <= i < n ==> !beats[i].hit
    ensures Stamp(timeout, startUp, beats, n) == 0
  {
    if n > 0 {
      NoStamp(timeout, startUp, beats, n - 1);
    }
  }

  lemma WorstIsStale(timeout: nat, misses: nat, slack: nat)
    requires (misses + 1) * Every(timeout) + slack > timeout
    ensures Regular(Worst(misses, slack), 0, misses, slack) && !NeverStale(timeout, 0, Worst(misses, slack))
  {
    var beats := Worst(misses, slack);
    assert !Missed(beats, misses);
    assert HitWithin(beats, 0, misses);
    NoStamp(timeout, 0, beats, misses);
    assert Stale(timeout, 0, TimeOf(timeout, 0, beats, misses));
    assert !Fresh(timeout, 0, beats, misses);
  }

  /** A worker that misses at most `misses` beats in a row, and is never later than `slack`, is safe from
      every watcher exactly when that many intervals and the slack fit in the time-out. */
  lemma SafeExactlyWithinTheTimeout(timeout: nat, misses: nat, slack: nat)
    ensures (forall startUp: nat, beats: seq<Beat> :: Regular(beats, startUp, misses, slack) ==> NeverStale(timeout, startUp, beats))
      <==> (misses + 1) * Every(timeout) + slack <= timeout
  {
    if (misses + 1) * Every(timeout) + slack <= timeout {
      forall startUp: nat, beats: seq<Beat> | Regular(beats, startUp, misses, slack) ensures NeverStale(timeout, startUp, beats) {
        forall i: nat | i < |beats| ensures Fresh(timeout, startUp, beats, i) {
          BeatIsFresh(timeout, startUp, beats, misses, slack, i);
        }
      }
    } else {
      WorstIsStale(timeout, misses, slack);
    }
  }

  /** Two missed beats are safe, but only with less than three ticks to spare. */
  lemma TwoMissesLeaveNoSlack(timeout: nat, slack: nat)
    ensures (forall startUp: nat, beats: seq<Beat> :: Regular(beats, startUp, 2, slack) ==> NeverStale(timeout, startUp, beats))
      <==> slack <= timeout % 3
  {
    SafeExactlyWithinTheTimeout(timeout, 2, slack);
  }

  /** One missed beat leaves a third of the time-out. */
  lemma OneMissLeavesAThird(timeout: nat, slack: nat)
    ensures (forall startUp: nat, beats: seq<Beat> :: Regular(beats, startUp, 1, slack) ==> NeverStale(timeout, startUp, beats))
      <==> slack <= timeout - 2 * Every(timeout)
  {
    SafeExactlyWithinTheTimeout(timeout, 1, slack);
  }
}
