/** `NCacheFetchedJob` and `FetchedJobsWatcher` as code over the store they share. */
module FetchedJobs {
  import opened Cache
  import opened JobLifecycle

  function Line(queues: map<nat, seq<Job>>, q: nat): seq<Job> {
    if q in queues then queues[q] else []
  }

  function SetOf(processing: map<nat, map<Job, Entry>>, server: nat): map<Job, Entry> {
    if server in processing then processing[server] else map[]
  }

  /** One `Requeue` as a whole; it changes no other queue. */
  function Put(queues: map<nat, seq<Job>>, q: nat, j: Job, how: How): map<nat, seq<Job>> {
    match how
    case Front => queues[q := [j] + Line(queues, q)]
    case Back => queues[q := Line(queues, q) + [j]]
    case Throws => queues
  }

  /** The stale entries of a set, in the order in which its keys are enumerated. */
  function StaleOf(entries: map<Job, Entry>, keys: seq<Job>, now: nat, timeout: nat): seq<(Job, Entry)>
    requires forall i :: 0 <= i < |keys| ==> keys[i] in entries
  {
    if keys == [] then []
    else
      var last := keys[|keys| - 1];
      StaleOf(entries, keys[..|keys| - 1], now, timeout) +
        if entries[last].fetchedAt + timeout < now then [(last, entries[last])] else []
  }

  /** `jobs` requeued one by one, as `hows` says, up to the first exception. */
  function PutAll(queues: map<nat, seq<Job>>, jobs: seq<(Job, Entry)>, hows: seq<How>): map<nat, seq<Job>>
    requires |jobs| == |hows|
    decreases |jobs|
  {
    if jobs == [] || hows[0].Throws? then queues
    else PutAll(Put(queues, jobs[0].1.queue, jobs[0].0, hows[0]), jobs[1..], hows[1..])
  }

  function Restamped(processing: map<nat, map<Job, Entry>>, server: nat, j: Job, now: nat): map<nat, map<Job, Entry>>
    requires j in SetOf(processing, server)
  {
    var entries := SetOf(processing, server);
    processing[server := entries[j := entries[j].(fetchedAt := now)]]
  }

  class Storage {
    var queues: map<nat, seq<Job>>
    var processing: map<nat, map<Job, Entry>>

    method Requeue(q: nat, j: Job, how: How) returns (thrown: bool)
      modifies this`queues
      ensures queues == Put(old(queues), q, j, how) && thrown == how.Throws?
    {
      thrown := how.Throws?;
      if how.Front? {
        queues := queues[q := [j] + Line(queues, q)];
      } else if how.Back? {
        queues := queues[q := Line(queues, q) + [j]];
      }
    }
  }

  /** The handle of a fetched job. The lock on the processing set may be lost, and `Requeue` end in any way. */
  class FetchedJob {
    const storage: Storage
    const server: nat
    const job: Job
    const queue: nat
    var removedFromQueue: bool
    var requeued: bool
    var heartbeatStopped: bool

    constructor (storage: Storage, server: nat, job: Job, queue: nat)
      ensures this.storage == storage && this.server == server && this.job == job && this.queue == queue
      ensures !removedFromQueue && !requeued && !heartbeatStopped
    {
      this.storage, this.server, this.job, this.queue := storage, server, job, queue;
      removedFromQueue, requeued, heartbeatStopped := false, false, false;
    }

    ghost predicate Valid()
      reads this
    {
      removedFromQueue || requeued ==> heartbeatStopped
    }

    method RemoveFromProcessingSet(granted: bool)
      modifies storage`processing
      ensures storage.processing == if granted
        then old(storage.processing)[server := SetOf(old(storage.processing), server) - {job}] else old(storage.processing)
    {
      if granted {
        storage.processing := storage.processing[server := SetOf(storage.processing, server) - {job}];
      }
    }

    method RemoveFromQueue(granted: bool)
      requires Valid()
      modifies this, storage`processing
      ensures Valid() && removedFromQueue && requeued == old(requeued)
      ensures old(removedFromQueue) || !granted ==> storage.processing == old(storage.processing)
      ensures !old(removedFromQueue) && granted ==>
        storage.processing == old(storage.processing)[server := SetOf(old(storage.processing), server) - {job}]
    {
      if removedFromQueue { return; }
      heartbeatStopped := true;
      RemoveFromProcessingSet(granted);
      removedFromQueue := true;
    }

    /** The queue first, the processing set after it; an exception leaves the handle free to try again. */
    method Requeue(how: How, granted: bool) returns (thrown: bool)
      requires Valid()
      modifies this, storage
      ensures Valid() && removedFromQueue == old(removedFromQueue)
      ensures thrown == (!old(requeued) && how.Throws?) && requeued == !thrown
      ensures old(requeued) ==> storage.queues == old(storage.queues) && storage.processing == old(storage.processing)
      ensures !old(requeued) ==> heartbeatStopped && storage.queues == Put(old(storage.queues), queue, job, how)
      ensures !old(requeued) ==> storage.processing == if granted && !how.Throws?
        then old(storage.processing)[server := SetOf(old(storage.processing), server) - {job}] else old(storage.processing)
    {
      if requeued { return false; }
      heartbeatStopped := true;
      thrown := storage.Requeue(queue, job, how);
      if thrown { return; }
      RemoveFromProcessingSet(granted);
      requeued := true;
    }

    /** A job neither removed nor requeued goes back to its queue; any other stays where it is. */
    method Dispose(how: How, granted: bool) returns (thrown: bool)
      requires Valid()
      modifies this, storage
      ensures Valid() && heartbeatStopped && removedFromQueue == old(removedFromQueue)
      ensures thrown == (!old(removedFromQueue) && !old(requeued) && how.Throws?)
      ensures (old(removedFromQueue) || old(requeued)) ==>
        (requeued == old(requeued) && storage.queues == old(storage.queues) && storage.processing == old(storage.processing))
      ensures (!old(removedFromQueue) && !old(requeued)) ==>
        (requeued == !thrown && storage.queues == Put(old(storage.queues), queue, job, how))
      ensures (!old(removedFromQueue) && !old(requeued)) ==> storage.processing == if granted && !how.Throws?
        then old(storage.processing)[server := SetOf(old(storage.processing), server) - {job}] else old(storage.processing)
    {
      thrown := false;
      heartbeatStopped := true;
      if !removedFromQueue && !requeued {
        thrown := Requeue(how, granted);
      }
    }

    /** Moves the entry's time forward, or stops for good when the entry is gone; it never lists the job.
        `stoppedMeanwhile`: the heartbeat is stopped after the check of the flag, which does not hold it up. */
    method RenewProcessingEntry(now: nat, granted: bool, stoppedMeanwhile: bool)
      requires Valid()
      modifies this`heartbeatStopped, storage`processing
      ensures Valid()
      ensures heartbeatStopped == (old(heartbeatStopped) || stoppedMeanwhile || (granted && job !in SetOf(old(storage.processing), server)))
      ensures storage.processing == if !old(heartbeatStopped) && granted && job in SetOf(old(storage.processing), server)
        then Restamped(old(storage.processing), server, job, now) else old(storage.processing)
    {
      if heartbeatStopped { return; }
      if stoppedMeanwhile { heartbeatStopped := true; }
      if granted {
        var entries := SetOf(storage.processing, server);
        if job !in entries {
          heartbeatStopped := true;
          return;
        }
        storage.processing := storage.processing[server := entries[job := entries[job].(fetchedAt := now)]];
      }
    }
  }

  /** `CompleteAndWrap`: the job is listed with a fresh entry and its handle returned; or, when the set's lock
      is lost, put back, unless that fails too. Only then is the job nowhere. */
  method CompleteAndWrap(storage: Storage, server: nat, q: nat, j: Job, now: nat, mark: nat, granted: bool, how: How)
    returns (handle: Option<FetchedJob>)
    modifies storage
    ensures handle.Some? <==> granted
    ensures granted ==> SetOf(storage.processing, server) == SetOf(old(storage.processing), server)[j := Entry(q, now, mark)]
    ensures granted ==> storage.queues == old(storage.queues)
    ensures !granted ==> storage.processing == old(storage.processing) && storage.queues == Put(old(storage.queues), q, j, how)
    ensures !granted ==> (j in Line(storage.queues, q) <==> !how.Throws? || j in Line(old(storage.queues), q))
    ensures handle.Some? ==> fresh(handle.value) && handle.value.Valid() && handle.value.job == j && handle.value.queue == q
  {
    if granted {
      storage.processing := storage.processing[server := SetOf(storage.processing, server)[j := Entry(q, now, mark)]];
      var fetched := new FetchedJob(storage, server, j, q);
      return Some(fetched);
    }
    var thrown := storage.Requeue(q, j, how);
    assert how.Front? ==> Line(storage.queues, q)[0] == j;
    assert how.Back? ==> Line(storage.queues, q)[|Line(storage.queues, q)| - 1] == j;
    handle := None;
  }

  class FetchedJobsWatcher {
    const storage: Storage
    const timeout: nat

    constructor (storage: Storage, timeout: nat)
      ensures this.storage == storage && this.timeout == timeout
    {
      this.storage, this.timeout := storage, timeout;
    }

    /** Takes the stale entries of one set; `keys` enumerates the set. */
    method TakeStale(server: nat, now: nat, granted: bool, keys: seq<Job>) returns (stale: seq<(Job, Entry)>)
      requires forall j :: j in keys <==> j in SetOf(storage.processing, server)
      modifies storage`processing
      ensures stale == if granted then StaleOf(SetOf(old(storage.processing), server), keys, now, timeout) else []
      ensures SetOf(storage.processing, server) == Remaining(SetOf(old(storage.processing), server), stale)
      ensures forall a :: a != server ==> SetOf(storage.processing, a) == SetOf(old(storage.processing), a)
    {
      stale := [];
      if !granted { return; }
      var entries := SetOf(storage.processing, server);
      if entries == map[] { return; }
      var cutoff := now - timeout;
      for i := 0 to |keys|
        invariant stale == StaleOf(entries, keys[..i], now, timeout)
      {
        assert keys[..i + 1][..i] == keys[..i];
        if entries[keys[i]].fetchedAt < cutoff {
          stale := stale + [(keys[i], entries[keys[i]])];
        }
      }
      assert keys[..|keys|] == keys;
      if stale == [] { return; }
      var left := entries;
      for i := 0 to |stale|
        invariant forall j :: j in left <==> j in entries && forall k :: 0 <= k < i ==> stale[k].0 != j
        invariant forall j :: j in left ==> left[j] == entries[j]
      {
        left := left - {stale[i].0};
      }
      storage.processing := storage.processing[server := left];
    }

    /** One server's part of a pass: takes the stale entries, then requeues them in that order. An
        exception ends the pass; the entries not yet requeued are in no set by then. */
    method RequeueServer(v: Visit) returns (thrown: bool)
      requires Fits(v, storage.processing, timeout)
      modifies storage
      ensures storage.queues == PutAll(old(storage.queues), StaleAt(old(storage.processing), v, timeout), v.hows)
      ensures thrown == Throwing(v)
      ensures forall a :: SetOf(storage.processing, a) == if a == v.server
        then Remaining(SetOf(old(storage.processing), a), StaleAt(old(storage.processing), v, timeout)) else SetOf(old(storage.processing), a)
    {
      var stale := TakeStale(v.server, v.now, v.granted, v.keys);
      thrown := false;
      label Taken:
      ghost var before := storage.queues;
      for i := 0 to |stale|
        invariant forall k :: 0 <= k < i ==> !v.hows[k].Throws?
        invariant PutAll(before, stale, v.hows) == PutAll(storage.queues, stale[i..], v.hows[i..])
        invariant storage.processing == old@Taken(storage.processing)
      {
        thrown := storage.Requeue(stale[i].1.queue, stale[i].0, v.hows[i]);
        if thrown {
          return;
        }
        assert stale[i..][1..] == stale[i + 1..] && v.hows[i..][1..] == v.hows[i + 1..];
      }
    }

    /** A pass over the servers of the registry, each listed once. It ends at the first exception. */
    method RequeueTimedOutJobs(visits: seq<Visit>) returns (thrown: bool, done: nat)
      requires Servers(visits)
      requires forall i :: 0 <= i < |visits| ==> Fits(visits[i], storage.processing, timeout)
      modifies storage
      ensures done <= |visits| && (forall i :: 0 <= i < done - (if thrown then 1 else 0) ==> !Throwing(visits[i]))
      ensures if thrown then done > 0 && Throwing(visits[done - 1]) else done == |visits|
      ensures storage.queues == Pass(old(storage.queues), old(storage.processing), visits[..done], timeout)
      ensures forall a :: SetOf(storage.processing, a) == After(old(storage.processing), visits[..done], timeout, a)
    {
      thrown := false;
      done := 0;
      ghost var queues, processing := storage.queues, storage.processing;
      assert visits[..0] == [];
      while done < |visits|
        invariant done <= |visits| && !thrown && forall i :: 0 <= i < done ==> !Throwing(visits[i])
        invariant UpTo(storage.queues, storage.processing, queues, processing, visits, done, timeout)
      {
        ghost var q, p := storage.queues, storage.processing;
        Meets(q, p, queues, processing, visits, done, timeout);
        thrown := RequeueServer(visits[done]);
        OneMoreVisit(q, p, storage.queues, storage.processing, queues, processing, visits, done, timeout);
        done := done + 1;
        if thrown { return; }
      }
      assert visits[..done] == visits;
    }
  }

  // ---- What a pass does ----

  /** What the watcher meets at a server: the time, whether it gets the lock of the set, how the set enumerates
      its keys, and how each `Requeue` ends. */
  datatype Visit = Visit(server: nat, now: nat, granted: bool, keys: seq<Job>, hows: seq<How>)

  ghost predicate Enumerates(v: Visit, processing: map<nat, map<Job, Entry>>) {
    forall j :: j in v.keys <==> j in SetOf(processing, v.server)
  }

  function StaleAt(processing: map<nat, map<Job, Entry>>, v: Visit, timeout: nat): seq<(Job, Entry)>
    requires Enumerates(v, processing)
  {
    if v.granted then StaleOf(SetOf(processing, v.server), v.keys, v.now, timeout) else []
  }

  ghost predicate Fits(v: Visit, processing: map<nat, map<Job, Entry>>, timeout: nat) {
    Enumerates(v, processing) && |v.hows| == |StaleAt(processing, v, timeout)|
  }

  predicate Throwing(v: Visit) {
    exists i :: 0 <= i < |v.hows| && v.hows[i].Throws?
  }

  predicate Servers(visits: seq<Visit>) {
    forall i, k :: 0 <= i < k < |visits| ==> visits[i].server != visits[k].server
  }

  /** The entries that are not among the stale ones. */
  function Remaining(entries: map<Job, Entry>, stale: seq<(Job, Entry)>): map<Job, Entry> {
    map j | j in entries && (forall i :: 0 <= i < |stale| ==> stale[i].0 != j) :: entries[j]
  }

  /** The queues after the visits; each server's stale entries are those its set held at the start. */
  ghost function Pass(queues: map<nat, seq<Job>>, processing: map<nat, map<Job, Entry>>, visits: seq<Visit>, timeout: nat): map<nat, seq<Job>>
    requires forall i :: 0 <= i < |visits| ==> Fits(visits[i], processing, timeout)
  {
    if visits == [] then queues
    else
      var v := visits[|visits| - 1];
      assert Fits(v, processing, timeout);
      PutAll(Pass(queues, processing, visits[..|visits| - 1], timeout), StaleAt(processing, v, timeout), v.hows)
  }

  /** The set of server `a` after the visits. */
  ghost function After(processing: map<nat, map<Job, Entry>>, visits: seq<Visit>, timeout: nat, a: nat): map<Job, Entry>
    requires forall i :: 0 <= i < |visits| ==> Fits(visits[i], processing, timeout)
  {
    if visits == [] then SetOf(processing, a)
    else
      var v, before := visits[|visits| - 1], After(processing, visits[..|visits| - 1], timeout, a);
      assert Fits(v, processing, timeout);
      if v.server == a then Remaining(before, StaleAt(processing, v, timeout)) else before
  }

  /** The store after the first `n` visits. */
  ghost predicate UpTo(q: map<nat, seq<Job>>, p: map<nat, map<Job, Entry>>, queues: map<nat, seq<Job>>,
                       processing: map<nat, map<Job, Entry>>, visits: seq<Visit>, n: nat, timeout: nat)
    requires n <= |visits| && forall i :: 0 <= i < |visits| ==> Fits(visits[i], processing, timeout)
  {
    q == Pass(queues, processing, visits[..n], timeout) && forall a :: SetOf(p, a) == After(processing, visits[..n], timeout, a)
  }

  /** A visit depends on its own server's set alone, which earlier visits left as it was. */
  lemma Meets(q: map<nat, seq<Job>>, p: map<nat, map<Job, Entry>>, queues: map<nat, seq<Job>>,
              processing: map<nat, map<Job, Entry>>, visits: seq<Visit>, n: nat, timeout: nat)
    requires n < |visits| && Servers(visits) && forall i :: 0 <= i < |visits| ==> Fits(visits[i], processing, timeout)
    requires UpTo(q, p, queues, processing, visits, n, timeout)
    ensures Fits(visits[n], p, timeout) && StaleAt(p, visits[n], timeout) == StaleAt(processing, visits[n], timeout)
  {
    NotYetVisited(processing, visits, n, timeout);
    assert SetOf(p, visits[n].server) == SetOf(processing, visits[n].server);
    assert Fits(visits[n], processing, timeout);
  }

  lemma OneMoreVisit(q: map<nat, seq<Job>>, p: map<nat, map<Job, Entry>>, q': map<nat, seq<Job>>, p': map<nat, map<Job, Entry>>,
                     queues: map<nat, seq<Job>>, processing: map<nat, map<Job, Entry>>, visits: seq<Visit>, n: nat, timeout: nat)
    requires n < |visits| && forall i :: 0 <= i < |visits| ==> Fits(visits[i], processing, timeout)
    requires UpTo(q, p, queues, processing, visits, n, timeout)
    requires Fits(visits[n], p, timeout) && StaleAt(p, visits[n], timeout) == StaleAt(processing, visits[n], timeout)
    requires q' == PutAll(q, StaleAt(p, visits[n], timeout), visits[n].hows)
    requires forall a :: SetOf(p', a) == if a == visits[n].server
      then Remaining(SetOf(p, a), StaleAt(p, visits[n], timeout)) else SetOf(p, a)
    ensures UpTo(q', p', queues, processing, visits, n + 1, timeout)
  {
    assert visits[..n + 1][..n] == visits[..n] && visits[..n + 1][n] == visits[n];
    hide PutAll, Remaining, StaleAt, Fits;
  }

  lemma {:induction false} NotYetVisited(processing: map<nat, map<Job, Entry>>, visits: seq<Visit>, n: nat, timeout: nat)
    requires n < |visits| && Servers(visits) && forall i :: 0 <= i < |visits| ==> Fits(visits[i], processing, timeout)
    ensures After(processing, visits[..n], timeout, visits[n].server) == SetOf(processing, visits[n].server)
  {
    Untouched(processing, visits[..n], timeout, visits[n].server);
  }

  lemma {:induction false} Untouched(processing: map<nat, map<Job, Entry>>, visits: seq<Visit>, timeout: nat, a: nat)
    requires forall i :: 0 <= i < |visits| ==> Fits(visits[i], processing, timeout)
    requires forall i :: 0 <= i < |visits| ==> visits[i].server != a
    ensures After(processing, visits, timeout, a) == SetOf(processing, a)
  {
    if visits != [] {
      Untouched(processing, visits[..|visits| - 1], timeout, a);
    }
  }

  /** The stale list names the entry of `j` if and only if it is stale, and the lock was got. */
  lemma StaleAtIsExact(processing: map<nat, map<Job, Entry>>, v: Visit, timeout: nat, j: Job)
    requires Enumerates(v, processing) && j in SetOf(processing, v.server)
    ensures (exists k :: 0 <= k < |StaleAt(processing, v, timeout)| && StaleAt(processing, v, timeout)[k].0 == j)
      <==> v.granted && SetOf(processing, v.server)[j].fetchedAt + timeout < v.now
  {
    var entries, stale := SetOf(processing, v.server), StaleAt(processing, v, timeout);
    if v.granted {
      StaleOfIsExact(entries, v.keys, v.now, timeout, j);
      if entries[j].fetchedAt + timeout < v.now {
        assert j in v.keys;
        var k :| 0 <= k < |stale| && stale[k] == (j, entries[j]);
      }
    }
  }

  /** A pass, as far as it came, takes from each server it visited exactly the stale entries, if it got the lock. */
  lemma {:induction false} PassTakesTheStale(processing: map<nat, map<Job, Entry>>, visits: seq<Visit>, timeout: nat, i: nat, j: Job)
    requires Servers(visits) && forall k :: 0 <= k < |visits| ==> Fits(visits[k], processing, timeout)
    requires i < |visits|
    ensures var entries, v := SetOf(processing, visits[i].server), visits[i];
      j in After(processing, visits, timeout, v.server) <==> j in entries && !(v.granted && entries[j].fetchedAt + timeout < v.now)
    decreases |visits|
  {
    var last := |visits| - 1;
    hide After, Fits;
    if i < last {
      OtherVisitsLeaveIt(processing, visits, timeout, i);
      PassTakesTheStale(processing, visits[..last], timeout, i, j);
    } else {
      LastVisitTakesTheStale(processing, visits, timeout, j);
    }
  }

  lemma OtherVisitsLeaveIt(processing: map<nat, map<Job, Entry>>, visits: seq<Visit>, timeout: nat, i: nat)
    requires Servers(visits) && forall k :: 0 <= k < |visits| ==> Fits(visits[k], processing, timeout)
    requires i < |visits| - 1
    ensures After(processing, visits, timeout, visits[i].server) == After(processing, visits[..|visits| - 1], timeout, visits[i].server)
  {
    assert visits[i].server != visits[|visits| - 1].server;
    hide Fits, StaleAt, Remaining;
  }

  lemma LastVisitTakesTheStale(processing: map<nat, map<Job, Entry>>, visits: seq<Visit>, timeout: nat, j: Job)
    requires Servers(visits) && visits != [] && forall k :: 0 <= k < |visits| ==> Fits(visits[k], processing, timeout)
    ensures var v := visits[|visits| - 1]; var entries := SetOf(processing, v.server);
      j in After(processing, visits, timeout, v.server) <==> j in entries && !(v.granted && entries[j].fetchedAt + timeout < v.now)
  {
    var v := visits[|visits| - 1];
    NotYetVisited(processing, visits, |visits| - 1, timeout);
    assert Fits(v, processing, timeout);
    var entries, stale := SetOf(processing, v.server), StaleAt(processing, v, timeout);
    assert After(processing, visits, timeout, v.server) == Remaining(entries, stale);
    if j in entries { StaleAtIsExact(processing, v, timeout, j); }
    hide After, StaleAt, Fits, Enumerates;
  }

  /** The jobs of `jobs` that go back to queue `q`, last one first. */
  function BackToFront(jobs: seq<(Job, Entry)>, q: nat): seq<Job> {
    if jobs == [] then []
    else BackToFront(jobs[1..], q) + if jobs[0].1.queue == q then [jobs[0].0] else []
  }

  /** The jobs of `jobs` for queue `q`, in order, that `hows` puts at its back before the first exception. */
  function Appended(jobs: seq<(Job, Entry)>, hows: seq<How>, q: nat): seq<Job>
    requires |jobs| == |hows|
    decreases |jobs|
  {
    if jobs == [] || hows[0].Throws? then []
    else (if jobs[0].1.queue == q && hows[0].Back? then [jobs[0].0] else []) + Appended(jobs[1..], hows[1..], q)
  }

  /** The jobs of `jobs` for queue `q`, last one first, that `hows` puts at its front before the first exception. */
  function Prepended(jobs: seq<(Job, Entry)>, hows: seq<How>, q: nat): seq<Job>
    requires |jobs| == |hows|
    decreases |jobs|
  {
    if jobs == [] || hows[0].Throws? then []
    else Prepended(jobs[1..], hows[1..], q) + if jobs[0].1.queue == q && hows[0].Front? then [jobs[0].0] else []
  }

  /** The jobs that wait stay together, in their order, whatever one server's stale jobs add before and behind them. */
  lemma {:induction false} VisitKeepsTheLine(queues: map<nat, seq<Job>>, jobs: seq<(Job, Entry)>, hows: seq<How>, q: nat)
    requires |jobs| == |hows|
    ensures Line(PutAll(queues, jobs, hows), q) == Prepended(jobs, hows, q) + Line(queues, q) + Appended(jobs, hows, q)
    decreases |jobs|
  {
    if jobs != [] && !hows[0].Throws? {
      var (j, entry) := jobs[0];
      var queues' := Put(queues, entry.queue, j, hows[0]);
      VisitKeepsTheLine(queues', jobs[1..], hows[1..], q);
      PutAt(queues, entry.queue, j, hows[0], q);
      var x: seq<Job> := if entry.queue == q && hows[0].Front? then [j] else [];
      var y: seq<Job> := if entry.queue == q && hows[0].Back? then [j] else [];
      var a, m, b := Prepended(jobs[1..], hows[1..], q), Line(queues, q), Appended(jobs[1..], hows[1..], q);
      assert Prepended(jobs, hows, q) == a + x && Appended(jobs, hows, q) == y + b;
      assert PutAll(queues, jobs, hows) == PutAll(queues', jobs[1..], hows[1..]);
      hide *;
      Regroup(a, x, m, y, b);
    }
  }

  lemma Regroup(a: seq<Job>, x: seq<Job>, m: seq<Job>, y: seq<Job>, b: seq<Job>)
    ensures a + (x + m + y) + b == a + x + m + (y + b)
  {
  }

  lemma PutAt(queues: map<nat, seq<Job>>, p: nat, j: Job, how: How, q: nat)
    requires !how.Throws?
    ensures Line(Put(queues, p, j, how), q) ==
      (if p == q && how.Front? then [j] else []) + Line(queues, q) + (if p == q && how.Back? then [j] else [])
  {
  }

  lemma {:induction false} AllInFront(jobs: seq<(Job, Entry)>, hows: seq<How>, q: nat)
    requires |jobs| == |hows| && forall i :: 0 <= i < |hows| ==> hows[i].Front?
    ensures Prepended(jobs, hows, q) == BackToFront(jobs, q) && Appended(jobs, hows, q) == []
    decreases |jobs|
  {
    if jobs != [] {
      AllInFront(jobs[1..], hows[1..], q);
    }
  }

  /** What a whole pass puts before the jobs of queue `q`: the last server's jobs come first. */
  ghost function Before(processing: map<nat, map<Job, Entry>>, visits: seq<Visit>, timeout: nat, q: nat): seq<Job>
    requires forall i :: 0 <= i < |visits| ==> Fits(visits[i], processing, timeout)
  {
    if visits == [] then []
    else
      var v := visits[|visits| - 1];
      assert Fits(v, processing, timeout);
      Prepended(StaleAt(processing, v, timeout), v.hows, q) + Before(processing, visits[..|visits| - 1], timeout, q)
  }

  /** And behind them: the last server's jobs come last. */
  ghost function Behind(processing: map<nat, map<Job, Entry>>, visits: seq<Visit>, timeout: nat, q: nat): seq<Job>
    requires forall i :: 0 <= i < |visits| ==> Fits(visits[i], processing, timeout)
  {
    if visits == [] then []
    else
      var v := visits[|visits| - 1];
      assert Fits(v, processing, timeout);
      Behind(processing, visits[..|visits| - 1], timeout, q) + Appended(StaleAt(processing, v, timeout), v.hows, q)
  }

  /** Over a whole pass, exceptions included, the jobs that wait stay together and in their order. */
  lemma {:induction false} WaitingJobsKeepTheirOrder(
      queues: map<nat, seq<Job>>, processing: map<nat, map<Job, Entry>>, visits: seq<Visit>, timeout: nat, q: nat)
    requires forall i :: 0 <= i < |visits| ==> Fits(visits[i], processing, timeout)
    ensures Line(Pass(queues, processing, visits, timeout), q) ==
      Before(processing, visits, timeout, q) + Line(queues, q) + Behind(processing, visits, timeout, q)
    decreases |visits|
  {
    if visits != [] {
      var v, front := visits[|visits| - 1], visits[..|visits| - 1];
      assert Fits(v, processing, timeout);
      WaitingJobsKeepTheirOrder(queues, processing, front, timeout, q);
      var stale := StaleAt(processing, v, timeout);
      VisitKeepsTheLine(Pass(queues, processing, front, timeout), stale, v.hows, q);
      var a, x, m := Prepended(stale, v.hows, q), Before(processing, front, timeout, q), Line(queues, q);
      var y, b := Behind(processing, front, timeout, q), Appended(stale, v.hows, q);
      assert Before(processing, visits, timeout, q) == a + x && Behind(processing, visits, timeout, q) == y + b;
      assert Pass(queues, processing, visits, timeout) == PutAll(Pass(queues, processing, front, timeout), stale, v.hows);
      hide *;
      Regroup(a, x, m, y, b);
    }
  }

  /** The stale jobs of all the servers visited, last taken first. */
  ghost function LastTakenFirst(processing: map<nat, map<Job, Entry>>, visits: seq<Visit>, timeout: nat, q: nat): seq<Job>
    requires forall i :: 0 <= i < |visits| ==> Fits(visits[i], processing, timeout)
  {
    if visits == [] then []
    else
      var v := visits[|visits| - 1];
      assert Fits(v, processing, timeout);
      BackToFront(StaleAt(processing, v, timeout), q) + LastTakenFirst(processing, visits[..|visits| - 1], timeout, q)
  }

  lemma {:induction false} AllBefore(processing: map<nat, map<Job, Entry>>, visits: seq<Visit>, timeout: nat, q: nat)
    requires forall i :: 0 <= i < |visits| ==> Fits(visits[i], processing, timeout)
    requires forall i, k :: 0 <= i < |visits| && 0 <= k < |visits[i].hows| ==> visits[i].hows[k].Front?
    ensures Before(processing, visits, timeout, q) == LastTakenFirst(processing, visits, timeout, q)
    ensures Behind(processing, visits, timeout, q) == []
    decreases |visits|
  {
    if visits != [] {
      var v := visits[|visits| - 1];
      assert Fits(v, processing, timeout);
      AllBefore(processing, visits[..|visits| - 1], timeout, q);
      AllInFront(StaleAt(processing, v, timeout), v.hows, q);
    }
  }

  /** When every head lock is got, the stale jobs of all servers come to stand before all that wait, last taken first. */
  lemma PassPutsStaleJobsFirst(
      queues: map<nat, seq<Job>>, processing: map<nat, map<Job, Entry>>, visits: seq<Visit>, timeout: nat, q: nat)
    requires forall i :: 0 <= i < |visits| ==> Fits(visits[i], processing, timeout)
    requires forall i, k :: 0 <= i < |visits| && 0 <= k < |visits[i].hows| ==> visits[i].hows[k].Front?
    ensures Line(Pass(queues, processing, visits, timeout), q) == LastTakenFirst(processing, visits, timeout, q) + Line(queues, q)
  {
    WaitingJobsKeepTheirOrder(queues, processing, visits, timeout, q);
    AllBefore(processing, visits, timeout, q);
  }

  /** `StaleOf` lists the stale entries, each as often as its key is enumerated. */
  lemma {:induction false} StaleOfIsExact(entries: map<Job, Entry>, keys: seq<Job>, now: nat, timeout: nat, j: Job)
    requires forall i :: 0 <= i < |keys| ==> keys[i] in entries
    ensures forall i :: 0 <= i < |StaleOf(entries, keys, now, timeout)| ==>
      var (k, entry) := StaleOf(entries, keys, now, timeout)[i];
      k in keys && entry == entries[k] && entry.fetchedAt + timeout < now
    ensures j in keys && entries[j].fetchedAt + timeout < now ==> (j, entries[j]) in StaleOf(entries, keys, now, timeout)
  {
    if keys != [] {
      var front := keys[..|keys| - 1];
      assert keys == front + [keys[|keys| - 1]];
      StaleOfIsExact(entries, front, now, timeout, j);
    }
  }

  /** A renewed entry is the same entry stamped anew: no watcher takes it before the time-out has passed from then on.
      No other entry of any set changes. */
  lemma RenewedIsFresh(processing: map<nat, map<Job, Entry>>, server: nat, j: Job, now: nat, s: Hangfire)
    requires j in SetOf(processing, server)
    ensures var after, was := Restamped(processing, server, j, now), SetOf(processing, server)[j];
      && SetOf(after, server).Keys == SetOf(processing, server).Keys
      && SetOf(after, server)[j] == Entry(was.queue, now, was.mark)
      && (s.now <= now + s.timeout ==> !Stale(s, SetOf(after, server)[j]))
      && forall a, i :: (a != server || i != j) ==>
           (i in SetOf(after, a) <==> i in SetOf(processing, a)) && (i in SetOf(after, a) ==> SetOf(after, a)[i] == SetOf(processing, a)[i])
  {
  }

  // ---- The code does what the steps of the life cycle say ----

  /** `FetchedJob.Requeue` is the machine's `Return` and `Clear`, one after the other. */
  lemma RequeueIsReturnAndClear(s: Hangfire, w: nat, how: How, last: bool, granted: bool)
    requires w < |s.workers| && s.workers[w].Running?
    ensures var wk, s1 := s.workers[w], Next(s, Return(w, how, last));
      && s1.queues == Put(s.queues, wk.queue, wk.job, how) && s1.processing == s.processing
      && Next(s1, Clear(w, granted)).queues == s1.queues
      && Next(s1, Clear(w, granted)).processing == if granted && !how.Throws?
           then s.processing[Home(s, w) := SetOf(s.processing, Home(s, w)) - {wk.job}] else s.processing
  {
    var s1 := Next(s, Return(w, how, last));
    if how.Throws? {
      assert !s1.workers[w].Clearing?;
    } else {
      assert s1.workers[w] == Clearing(s.workers[w].queue, s.workers[w].job);
    }
  }

  /** `RenewProcessingEntry` is its `Beat` and `Renew`; the handle may have been stopped, and the worker moved
      on, between the two. */
  lemma RenewalIsRenew(s: Hangfire, w: nat, i: nat, granted: bool)
    requires w < |s.workers| && i < |s.flights| && s.flights[i].worker == w && !s.workers[w].Dead?
    ensures var f, s', server := s.flights[i], Next(s, Renew(w, i, granted)), Home(s, w);
      && s'.queues == s.queues
      && s'.processing == (if granted && f.job in SetOf(s.processing, server) then Restamped(s.processing, server, f.job, s.now) else s.processing)
      && (s.workers[w].Running? && s.workers[w].handle == f.handle ==>
            s'.workers[w] == s.workers[w].(beating := s.workers[w].beating && !(granted && f.job !in SetOf(s.processing, server))))
  {
  }

  /** An undisturbed heartbeat of a handle that beats: its entry is stamped anew and cannot be stale within the time-out, or,
      if it is gone, the handle stops for good. Either way the callback is over. */
  lemma BeatAlone(s: Hangfire, w: nat)
    requires w < |s.workers| && s.workers[w].Running? && s.workers[w].beating
    ensures var wk, server := s.workers[w], Home(s, w);
      var s' := Next(Next(s, Beat(w)), Renew(w, |s.flights|, true));
      && s'.flights == s.flights && s'.queues == s.queues
      && (if wk.job in Entries(s, server) then
            s'.workers == s.workers && s'.processing == Restamped(s.processing, server, wk.job, s.now)
          else s'.workers == s.workers[w := wk.(beating := false)] && s'.processing == s.processing)
  {
    var f := Flight(w, s.workers[w].job, s.workers[w].handle);
    var s1 := Next(s, Beat(w));
    assert s1 == s.(flights := s.flights + [f]);
    assert s1.flights[..|s.flights|] + s1.flights[|s.flights| + 1..] == s.flights;
  }

  function Names(jobs: seq<(Job, Entry)>): (js: seq<Job>)
    ensures |js| == |jobs| && forall i :: 0 <= i < |jobs| ==> js[i] == jobs[i].0
  {
    seq(|jobs|, i requires 0 <= i < |jobs| => jobs[i].0)
  }

  predicate Once(keys: seq<Job>) {
    forall i, k :: 0 <= i < k < |keys| ==> keys[i] != keys[k]
  }

  lemma {:induction false} StaleOfIsOrdered(entries: map<Job, Entry>, keys: seq<Job>, now: nat, timeout: nat)
    requires (forall i :: 0 <= i < |keys| ==> keys[i] in entries) && Once(keys)
    ensures Once(Names(StaleOf(entries, keys, now, timeout)))
    ensures forall i :: 0 <= i < |StaleOf(entries, keys, now, timeout)| ==>
      var (k, entry) := StaleOf(entries, keys, now, timeout)[i]; k in keys && entry == entries[k] && entry.fetchedAt + timeout < now
  {
    if keys != [] {
      var front := keys[..|keys| - 1];
      assert keys == front + [keys[|keys| - 1]];
      StaleOfIsOrdered(entries, front, now, timeout);
    }
  }

  /** `TakeStale`, for a dictionary that enumerates each key once, is the machine's `Take`: the same entries
      go, in the same order, and the watcher has the same list to requeue. */
  lemma TakeStaleIsTake(s: Hangfire, v: nat, keys: seq<Job>)
    requires v < |s.watchers| && s.watchers[v].Visiting? && s.watchers[v].servers != []
    requires Once(keys) && forall j :: j in keys <==> j in Entries(s, s.watchers[v].servers[0])
    ensures var stale := StaleOf(Entries(s, s.watchers[v].servers[0]), keys, s.now, s.timeout);
      var s' := Next(s, Take(v, true, Names(stale)));
      && s'.watchers[v] == Pushing(stale, s.watchers[v].servers[1..]) && s'.taken == s.taken + Marks(stale)
      && SetOf(s'.processing, s.watchers[v].servers[0]) == Remaining(Entries(s, s.watchers[v].servers[0]), stale)
      && forall a :: a != s.watchers[v].servers[0] ==> SetOf(s'.processing, a) == SetOf(s.processing, a)
  {
    var entries := Entries(s, s.watchers[v].servers[0]);
    var stale := StaleOf(entries, keys, s.now, s.timeout);
    StaleOfIsOrdered(entries, keys, s.now, s.timeout);
    forall j | j in entries && Stale(s, entries[j]) ensures j in Names(stale) {
      StaleOfIsExact(entries, keys, s.now, s.timeout, j);
      var i :| 0 <= i < |stale| && stale[i] == (j, entries[j]);
      assert Names(stale)[i] == j;
    }
    assert Lists(s, entries, Names(stale));
    assert Pick(entries, Names(stale)) == stale;
  }
}
