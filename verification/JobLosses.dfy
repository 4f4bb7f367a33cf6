/** When a Hangfire job is lost: the places a job can be in, and the steps that take the last one away. */
module JobLosses {
  import opened Cache
  import opened JobLifecycle

  /** The watcher's pass has the server still before it. */
  predicate ToVisit(wt: Watcher, server: nat) {
    (wt.Visiting? || wt.Pushing?) && server in wt.servers
  }

  /** A watcher that has not died finds the server in the registry, or is on its way there. */
  predicate Watched(s: Hangfire, server: nat) {
    exists v :: 0 <= v < |s.watchers| && !s.watchers[v].Departed? && (server in s.servers || ToVisit(s.watchers[v], server))
  }

  /** Where a job can be: done, in a queue, in the hands of a worker, on the list of a watcher, or in the
      processing set of a server. */
  datatype Place = Done | InQueue(queue: nat) | AtWorker(worker: nat) | AtWatcher(watcher: nat) | InSet(server: nat)

  /** An entry of a processing set is a place only as long as a watcher can still find it. */
  predicate Has(s: Hangfire, j: Job, p: Place) {
    match p
    case Done => j in s.finished
    case InQueue(q) => j in Queued(s, q)
    case AtWorker(w) => w < |s.workers| && InHands(s.workers[w], j)
    case AtWatcher(v) => v < |s.watchers| && OnList(s.watchers[v], j)
    case InSet(server) => j in Entries(s, server) && Watched(s, server)
  }

  ghost predicate Accounted(s: Hangfire, j: Job) {
    exists p :: Has(s, j, p)
  }

  /** The watcher dies, or its `Requeue` throws: what is left of its pass goes with it. */
  predicate PassEnds(s: Hangfire, e: Event, v: nat) {
    v < |s.watchers| && ((e.Depart? && e.v == v) ||
      (e.Push? && e.v == v && e.how.Throws? && s.watchers[v].Pushing? && s.watchers[v].jobs != []))
  }

  /** The watcher turns to the server for the last time in its pass: it gets the lock of the set, or not. */
  predicate Passes(s: Hangfire, e: Event, v: nat, server: nat) {
    && e.Take? && e.v == v < |s.watchers| && s.watchers[v].Visiting? && s.watchers[v].servers != []
    && (!e.granted || Takes(s, e)) && server !in s.watchers[v].servers[1..]
  }

  /** Some watcher can still find the server after the step. */
  predicate StillWatched(s: Hangfire, e: Event, server: nat) {
    exists v :: 0 <= v < |s.watchers| && !s.watchers[v].Departed? && e != Depart(v) &&
      ((server in s.servers && e != Forget(server))
       || (ToVisit(s.watchers[v], server) && !PassEnds(s, e, v) && !Passes(s, e, v, server)))
  }

  /** The worker dies, or its `Requeue` throws for the last time. */
  predicate LetsGo(s: Hangfire, e: Event, w: nat) {
    w < |s.workers| && WorkerOf(e) == w &&
      (e.Die? || (e.PutBack? && e.how.Throws? && s.workers[w].Putting?)
              || (e.Return? && e.how.Throws? && e.last && s.workers[w].Running?))
  }

  predicate Clears(s: Hangfire, e: Event, server: nat, j: Job) {
    e.Clear? && e.granted && e.w < |s.workers| && s.workers[e.w].Clearing? && s.workers[e.w].job == j && Home(s, e.w) == server
  }

  /** A watcher takes the entry of the job off the set of the server and onto its list. */
  predicate TakesUp(s: Hangfire, e: Event, server: nat, j: Job) {
    Takes(s, e) && s.watchers[e.v].servers[0] == server && j in Entries(s, server) && Stale(s, Entries(s, server)[j])
  }

  /** The step takes the place away from the job and gives it no other. */
  predicate TakesAway(s: Hangfire, e: Event, j: Job, p: Place) {
    match p
    case Done => false
    case InQueue(_) => false
    case AtWorker(w) => LetsGo(s, e, w)
    case AtWatcher(v) => PassEnds(s, e, v)
    case InSet(server) => Clears(s, e, server, j) || (!StillWatched(s, e, server) && !TakesUp(s, e, server, j))
  }

  lemma PlacedHas(s: Hangfire, j: Job)
    requires Placed(s, j)
    ensures Accounted(s, j)
  {
    if j in s.finished {
      assert Has(s, j, Done);
    } else if Waits(s, j) {
      var q :| q in s.queues && j in s.queues[q];
      assert Has(s, j, InQueue(q));
    } else if WorkedOn(s, j, -1) {
      var w :| 0 <= w < |s.workers| && InHands(s.workers[w], j);
      assert Has(s, j, AtWorker(w));
    } else {
      var v :| 0 <= v < |s.watchers| && OnList(s.watchers[v], j);
      assert Has(s, j, AtWatcher(v));
    }
  }

  lemma WorkerRetains(s: Hangfire, e: Event, j: Job, w: nat)
    requires Has(s, j, AtWorker(w)) && !LetsGo(s, e, w)
    ensures Accounted(Next(s, e), j)
  {
    if WorkerOf(e) != w {
      OnlyTheWorkerMoves(s, e);
      assert Has(Next(s, e), j, AtWorker(w));
    } else if Failing(e) {
      assert Has(Next(s, e), j, AtWorker(w));
    } else {
      WorkerKeeps(s, e, j);
      PlacedHas(Next(s, e), j);
    }
  }

  lemma WatcherRetains(s: Hangfire, e: Event, j: Job, v: nat)
    requires Has(s, j, AtWatcher(v)) && !PassEnds(s, e, v)
    ensures Accounted(Next(s, e), j)
  {
    if WatcherOf(e) != v {
      OnlyTheWatcherMoves(s, e);
      assert Has(Next(s, e), j, AtWatcher(v));
    } else {
      WatcherKeeps(s, e, j);
      PlacedHas(Next(s, e), j);
    }
  }

  lemma QueueRetains(s: Hangfire, e: Event, j: Job, q: nat)
    requires Has(s, j, InQueue(q))
    ensures Accounted(Next(s, e), j)
  {
    assert Waits(s, j);
    WaitingStays(s, e, j);
    if Waits(Next(s, e), j) {
      PlacedHas(Next(s, e), j);
    } else {
      assert Has(Next(s, e), j, AtWorker(e.w));
    }
  }

  lemma EntryStays(s: Hangfire, e: Event, server: nat, j: Job)
    requires j in Entries(s, server) && !e.Take? && !Clears(s, e, server, j)
    ensures j in Entries(Next(s, e), server)
  {
  }

  lemma TakeRetains(s: Hangfire, e: Event, server: nat, j: Job)
    requires j in Entries(s, server) && e.Take?
    ensures if TakesUp(s, e, server, j) then Has(Next(s, e), j, AtWatcher(e.v)) else j in Entries(Next(s, e), server)
  {
    if TakesUp(s, e, server, j) {
      var i :| 0 <= i < |e.order| && e.order[i] == j;
      assert Next(s, e).watchers[e.v].jobs[i].0 == j;
    }
  }

  /** What a watcher has before it, and what it loses of that. */
  lemma OwnWay(s: Hangfire, e: Event, v: nat, server: nat)
    requires v < |s.watchers| && WatcherOf(e) == v && ToVisit(s.watchers[v], server)
    ensures v < |WatcherStep(s, e, v).watchers|
    ensures ToVisit(WatcherStep(s, e, v).watchers[v], server) <==> !PassEnds(s, e, v) && !Passes(s, e, v, server)
  {
  }

  lemma RegistryStep(s: Hangfire, e: Event, server: nat)
    ensures server in Next(s, e).servers <==> (server in s.servers && e != Forget(server)) || e == Announce(server)
  {
    if 0 <= WorkerOf(e) < |s.workers| { WorkerFrame(s, e, WorkerOf(e)); }
    if 0 <= WatcherOf(e) < |s.watchers| { WatcherFrame(s, e, WatcherOf(e)); }
    hide WorkerStep, WatcherStep;
  }

  lemma LivesOn(s: Hangfire, e: Event, v: nat)
    requires v < |s.watchers| && WatcherOf(e) == v
    ensures v < |WatcherStep(s, e, v).watchers|
    ensures WatcherStep(s, e, v).watchers[v].Departed? <==> s.watchers[v].Departed? || e == Depart(v)
  {
  }

  /** A way to the server that was not there before leads through the registry. */
  lemma WayFound(s: Hangfire, e: Event, v: nat, server: nat)
    requires v < |s.watchers| && WatcherOf(e) == v && !ToVisit(s.watchers[v], server)
    ensures v < |WatcherStep(s, e, v).watchers|
    ensures ToVisit(WatcherStep(s, e, v).watchers[v], server) ==> server in s.servers && e.Visit? && s.watchers[v].Resting?
  {
  }

  /** One watcher's view of the server, before and after. */
  lemma ViewStep(s: Hangfire, e: Event, v: nat, server: nat)
    requires v < |s.watchers|
    ensures v < |Next(s, e).watchers|
    ensures server in Next(s, e).servers ==> (server in s.servers && e != Forget(server)) || e == Announce(server)
    ensures !Next(s, e).watchers[v].Departed? <==> !s.watchers[v].Departed? && e != Depart(v)
    ensures ToVisit(s.watchers[v], server) ==>
      (ToVisit(Next(s, e).watchers[v], server) <==> !PassEnds(s, e, v) && !Passes(s, e, v, server))
    ensures !ToVisit(s.watchers[v], server) && ToVisit(Next(s, e).watchers[v], server) ==>
      server in s.servers && !s.watchers[v].Departed? && e != Depart(v) && e != Forget(server)
  {
    Frame(s, e);
    OnlyTheWatcherMoves(s, e);
    RegistryStep(s, e, server);
    if WatcherOf(e) == v {
      LivesOn(s, e, v);
      if ToVisit(s.watchers[v], server) { OwnWay(s, e, v, server); } else { WayFound(s, e, v, server); }
    }
    hide WorkerStep, WatcherStep, ToVisit, Takes;
  }

  lemma WatchedAfter(s: Hangfire, e: Event, server: nat)
    requires StillWatched(s, e, server)
    ensures Watched(Next(s, e), server)
  {
    var v :| 0 <= v < |s.watchers| && !s.watchers[v].Departed? && e != Depart(v) &&
      ((server in s.servers && e != Forget(server))
       || (ToVisit(s.watchers[v], server) && !PassEnds(s, e, v) && !Passes(s, e, v, server)));
    ViewStep(s, e, v, server);
    RegistryStep(s, e, server);
    OnlyTheWatcherMoves(s, e);
    hide Next, PassEnds, Passes, ToVisit;
  }

  lemma WatchedBefore(s: Hangfire, e: Event, server: nat)
    requires Watched(Next(s, e), server) && e != Announce(server)
    ensures StillWatched(s, e, server)
  {
    var s' := Next(s, e);
    var v :| 0 <= v < |s'.watchers| && !s'.watchers[v].Departed? && (server in s'.servers || ToVisit(s'.watchers[v], server));
    OnlyTheWatcherMoves(s, e);
    ViewStep(s, e, v, server);
    hide Next, PassEnds, Passes, ToVisit;
  }

  lemma SetRetains(s: Hangfire, e: Event, j: Job, server: nat)
    requires Has(s, j, InSet(server)) && !TakesAway(s, e, j, InSet(server))
    ensures Accounted(Next(s, e), j)
  {
    if e.Take? {
      TakeRetains(s, e, server, j);
    } else {
      EntryStays(s, e, server, j);
    }
    if TakesUp(s, e, server, j) {
      assert Has(Next(s, e), j, AtWatcher(e.v));
    } else {
      WatchedAfter(s, e, server);
      assert Has(Next(s, e), j, InSet(server));
    }
  }

  /** A place that the step leaves the job keeps it accounted for. */
  lemma Retained(s: Hangfire, e: Event, j: Job, p: Place)
    requires Has(s, j, p) && !TakesAway(s, e, j, p)
    ensures Accounted(Next(s, e), j)
  {
    match p
    case Done => OnlyTheWorkerMoves(s, e); assert Has(Next(s, e), j, Done);
    case InQueue(q) => QueueRetains(s, e, j, q);
    case AtWorker(w) => WorkerRetains(s, e, j, w);
    case AtWatcher(v) => WatcherRetains(s, e, j, v);
    case InSet(server) => SetRetains(s, e, j, server);
  }

  /** The job is enqueued, or the server that lists it is announced to a watcher. */
  predicate Revives(s: Hangfire, e: Event, j: Job) {
    || (e.Enqueue? && e.j == j)
    || (e.Announce? && j in Entries(s, e.server) && exists v :: 0 <= v < |s.watchers| && !s.watchers[v].Departed?)
  }

  /** The step leaves the job some place it has. */
  ghost predicate Leaves(s: Hangfire, e: Event, j: Job) {
    exists p :: Has(s, j, p) && !TakesAway(s, e, j, p)
  }

  lemma DoneComes(s: Hangfire, e: Event, j: Job)
    requires Has(Next(s, e), j, Done)
    ensures Leaves(s, e, j)
  {
    if j in s.finished {
      assert Has(s, j, Done);
    } else {
      assert Has(s, j, AtWorker(e.w)) && !LetsGo(s, e, e.w);
    }
  }

  lemma RequeuedComes(s: Hangfire, q: nat, j: Job, how: How, p: nat, x: Job)
    requires x in Queued(Requeued(s, q, j, how), p)
    ensures x in Queued(s, p) || (x == j && !how.Throws?)
  {
  }

  lemma QueueComes(s: Hangfire, e: Event, j: Job, q: nat)
    requires Has(Next(s, e), j, InQueue(q)) && !Revives(s, e, j)
    ensures Leaves(s, e, j)
  {
    if j in Queued(s, q) {
      assert Has(s, j, InQueue(q));
    } else if 0 <= WorkerOf(e) < |s.workers| {
      Frame(s, e);
      QueueFromWorker(s, e, j, q);
    } else if 0 <= WatcherOf(e) < |s.watchers| {
      Frame(s, e);
      QueueFromWatcher(s, e, j, q);
    }
    hide WorkerStep, WatcherStep;
  }

  lemma QueueFromWorker(s: Hangfire, e: Event, j: Job, q: nat)
    requires 0 <= WorkerOf(e) < |s.workers| && j in Queued(WorkerStep(s, e, WorkerOf(e)), q) && j !in Queued(s, q)
    ensures Leaves(s, e, j)
  {
    var w := WorkerOf(e);
    var wk := s.workers[w];
    if (e.PutBack? && wk.Putting?) || (e.Return? && wk.Running?) {
      RequeuedComes(s, wk.queue, wk.job, e.how, q, j);
      assert Has(s, j, AtWorker(w)) && !LetsGo(s, e, w);
    }
    hide Requeued;
  }

  lemma QueueFromWatcher(s: Hangfire, e: Event, j: Job, q: nat)
    requires 0 <= WatcherOf(e) < |s.watchers| && j in Queued(WatcherStep(s, e, WatcherOf(e)), q) && j !in Queued(s, q)
    ensures Leaves(s, e, j)
  {
    var v := WatcherOf(e);
    var wt := s.watchers[v];
    if e.Push? && wt.Pushing? && wt.jobs != [] {
      RequeuedComes(s, wt.jobs[0].1.queue, wt.jobs[0].0, e.how, q, j);
      assert OnList(wt, j);
      assert Has(s, j, AtWatcher(v)) && !PassEnds(s, e, v);
    }
    hide Requeued;
  }

  lemma WorkerComes(s: Hangfire, e: Event, j: Job, w: nat)
    requires Has(Next(s, e), j, AtWorker(w))
    ensures Leaves(s, e, j)
  {
    OnlyTheWorkerMoves(s, e);
    if WorkerOf(e) != w {
      assert Has(s, j, AtWorker(w)) && !LetsGo(s, e, w);
    } else if e.Fetch? && s.workers[w].Idle? {
      assert Has(s, j, InQueue(e.q));
    } else {
      assert Has(s, j, AtWorker(w)) && !LetsGo(s, e, w);
    }
  }

  lemma WatcherComes(s: Hangfire, e: Event, j: Job, v: nat)
    requires Has(Next(s, e), j, AtWatcher(v))
    ensures Leaves(s, e, j)
  {
    OnlyTheWatcherMoves(s, e);
    if WatcherOf(e) != v {
      assert Has(s, j, AtWatcher(v)) && !PassEnds(s, e, v);
    } else if Takes(s, e) {
      TakerComes(s, e, j, v);
    } else {
      PusherComes(s, e, j, v);
      assert Has(s, j, AtWatcher(v)) && !PassEnds(s, e, v);
    }
    hide Next, OnList, PassEnds;
  }

  lemma TakerComes(s: Hangfire, e: Event, j: Job, v: nat)
    requires Has(Next(s, e), j, AtWatcher(v)) && WatcherOf(e) == v && Takes(s, e)
    ensures Leaves(s, e, j)
  {
    var server, jobs := s.watchers[v].servers[0], Next(s, e).watchers[v].jobs;
    var i :| 0 <= i < |jobs| && jobs[i].0 == j;
    assert e.order[i] == j;
    assert ToVisit(s.watchers[v], server);
    assert Has(s, j, InSet(server)) && TakesUp(s, e, server, j);
  }

  lemma PusherComes(s: Hangfire, e: Event, j: Job, v: nat)
    requires Has(Next(s, e), j, AtWatcher(v)) && WatcherOf(e) == v < |s.watchers| && !Takes(s, e)
    ensures OnList(s.watchers[v], j) && !PassEnds(s, e, v)
  {
    var jobs := Next(s, e).watchers[v].jobs;
    var i :| 0 <= i < |jobs| && jobs[i].0 == j;
    assert s.watchers[v].jobs[if e.Push? then i + 1 else i].0 == j;
    hide Lists;
  }

  lemma EntryComes(s: Hangfire, e: Event, j: Job, server: nat)
    requires j in Entries(Next(s, e), server)
    ensures !Clears(s, e, server, j)
    ensures j in Entries(s, server) || (e.Mark? && e.w < |s.workers| && s.workers[e.w].Got? && s.workers[e.w].job == j)
  {
    if e.Renew? {
      RenewListsNothing(s, e, j, server);
    } else {
      hide RenewOf, Requeued;
    }
  }

  lemma RenewListsNothing(s: Hangfire, e: Event, j: Job, server: nat)
    requires e.Renew? && j in Entries(Next(s, e), server)
    ensures j in Entries(s, server)
  {
  }

  lemma SetComes(s: Hangfire, e: Event, j: Job, server: nat)
    requires Has(Next(s, e), j, InSet(server)) && !Revives(s, e, j)
    ensures Leaves(s, e, j)
  {
    EntryComes(s, e, j, server);
    if j !in Entries(s, server) {
      assert Has(s, j, AtWorker(e.w)) && !LetsGo(s, e, e.w);
    } else if e != Announce(server) {
      WatchedBefore(s, e, server);
      assert Has(s, j, InSet(server)) && !TakesAway(s, e, j, InSet(server));
    }
  }

  /** No place appears from nowhere. */
  lemma Comes(s: Hangfire, e: Event, j: Job, p: Place)
    requires Has(Next(s, e), j, p) && !Revives(s, e, j)
    ensures Leaves(s, e, j)
  {
    match p
    case Done => DoneComes(s, e, j);
    case InQueue(q) => QueueComes(s, e, j, q);
    case AtWorker(w) => WorkerComes(s, e, j, w);
    case AtWatcher(v) => WatcherComes(s, e, j, v);
    case InSet(server) => SetComes(s, e, j, server);
  }

  /** A step drops a job exactly when it takes away every place the job has: its worker or watcher throws or dies,
      its entry is cleared, or the server that lists it is lost from sight. */
  lemma DroppedExactlyWhenLetGo(s: Hangfire, e: Event, j: Job)
    requires Accounted(s, j)
    ensures !Accounted(Next(s, e), j) <==> forall p :: Has(s, j, p) ==> TakesAway(s, e, j, p)
  {
    if Leaves(s, e, j) {
      var p :| Has(s, j, p) && !TakesAway(s, e, j, p);
      Retained(s, e, j, p);
    } else if Accounted(Next(s, e), j) {
      var p :| Has(Next(s, e), j, p);
      if Revives(s, e, j) {
        RevivingTakesNothing(s, e, j);
      } else {
        Comes(s, e, j, p);
      }
    }
    hide Next, Has, TakesAway, Revives;
  }

  lemma RevivingTakesNothing(s: Hangfire, e: Event, j: Job)
    requires Accounted(s, j) && Revives(s, e, j)
    ensures Leaves(s, e, j)
  {
    var p :| Has(s, j, p);
    if p.InSet? {
      var v :| 0 <= v < |s.watchers| && !s.watchers[v].Departed? && (p.server in s.servers || ToVisit(s.watchers[v], p.server));
      assert StillWatched(s, e, p.server);
    }
    assert !TakesAway(s, e, j, p);
  }

  /** What is dropped stays dropped, until the job is enqueued again or the server that lists it is announced anew. */
  lemma ReturnsExactlyWhenRevived(s: Hangfire, e: Event, j: Job)
    requires !Accounted(s, j)
    ensures Accounted(Next(s, e), j) <==> Revives(s, e, j)
  {
    var s' := Next(s, e);
    if e.Enqueue? && e.j == j {
      assert s'.queues[e.q][|Queued(s, e.q)|] == j;
      assert Has(s', j, InQueue(e.q));
    } else if Revives(s, e, j) {
      assert Watched(s', e.server);
      assert Has(s', j, InSet(e.server));
    } else if Accounted(s', j) {
      var p :| Has(s', j, p);
      Comes(s, e, j, p);
    }
  }

  /** One queue 7, one server 0 with one worker, and one watcher; job 1 has been enqueued. */
  predicate Stage(s: Hangfire, now: nat, waiting: seq<Job>, wk: Worker, entries: map<Job, Entry>, wt: Watcher) {
    && |s.workers| == 1 == |s.watchers|
    && s.workers[0] == wk && s.watchers[0] == wt && Home(s, 0) == 0 && s.servers == {0}
    && s.now == now && s.timeout == 30 && s.marks <= 1
    && (forall q :: q in s.queues ==> q == 7) && Queued(s, 7) == waiting
    && (forall server :: server in s.processing ==> server == 0) && Entries(s, 0) == entries
    && s.finished == {} && s.enqueued == {1}
  }

  lemma Unroll(s: Hangfire, e: Event, es: seq<Event>)
    ensures Exec(s, [e] + es) == Exec(Next(s, e), es)
  {
    assert ([e] + es)[1..] == es;
    hide Next;
  }

  lemma UnrollFour(s: Hangfire, a: Event, b: Event, c: Event, d: Event, es: seq<Event>)
    ensures var s' := Next(Next(Next(Next(s, a), b), c), d);
      Exec(s, [a] + ([b] + ([c] + ([d] + es)))) == Exec(s', es)
  {
    hide Next, Exec;
    Unroll(s, a, [b] + ([c] + ([d] + es)));
    Unroll(Next(s, a), b, [c] + ([d] + es));
    Unroll(Next(Next(s, a), b), c, [d] + es);
    Unroll(Next(Next(Next(s, a), b), c), d, es);
  }

  lemma FetchRun(s: Hangfire, w: nat)
    requires s == Init(30, [0], 1) && w == 0
    ensures var s' := Next(Next(Next(Next(s, Enqueue(7, 1)), Announce(0)), Fetch(w, 7)), Mark(w, true));
      Stage(s', 0, [], Running(7, 1, true, s'.marks - 1), map[1 := Entry(7, 0, s'.marks - 1)], Resting) && s'.marks == 1
  {
    var s1 := Next(s, Enqueue(7, 1));
    assert Queued(s1, 7) == [1];
    var s2 := Next(s1, Announce(0));
    assert Stage(s2, 0, [1], Idle, map[], Resting);
    var s3 := Next(s2, Fetch(w, 7));
    assert Stage(s3, 0, [], Got(7, 1), map[], Resting);
  }

  lemma TakeRun(s: Hangfire, entry: Entry, w: nat)
    requires Stage(s, 0, [], Running(7, 1, true, entry.mark), map[1 := entry], Resting) && entry.fetchedAt == 0 && w == 0
    ensures var s' := Next(Next(Next(Next(s, Return(w, Throws, true)), Tick(31)), Visit(w, [0])), Take(w, true, [1]));
      Stage(s', 31, [], Idle, map[], Pushing([(1, entry)], []))
  {
    var s1 := Next(s, Return(w, Throws, true));
    assert Stage(s1, 0, [], Idle, map[1 := entry], Resting);
    var s2 := Next(s1, Tick(31));
    assert Stage(s2, 31, [], Idle, map[1 := entry], Resting);
    var s3 := Next(s2, Visit(w, [0]));
    assert Stage(s3, 31, [], Idle, map[1 := entry], Visiting([0]));
    TakeStage(s3, entry, w);
    hide Next, Stage;
  }

  lemma TakeStage(s: Hangfire, entry: Entry, w: nat)
    requires Stage(s, 31, [], Idle, map[1 := entry], Visiting([0])) && entry.fetchedAt == 0 && w == 0
    ensures Stage(Next(s, Take(w, true, [1])), 31, [], Idle, map[], Pushing([(1, entry)], []))
  {
    assert Lists(s, Entries(s, 0), [1]);
    assert Pick(Entries(s, 0), [1]) == [(1, entry)];
  }

  lemma LastPush(s: Hangfire, entry: Entry, v: nat)
    requires Stage(s, 31, [], Idle, map[], Pushing([(1, entry)], [])) && v == 0
    ensures 1 in Next(s, Push(v, Throws)).enqueued && !Accounted(Next(s, Push(v, Throws)), 1)
  {
    assert Has(s, 1, AtWatcher(v)) by {
      assert s.watchers[v].jobs[0].0 == 1;
    }
    forall p | Has(s, 1, p) ensures TakesAway(s, Push(v, Throws), 1, p) {
      OnlyPlace(s, p);
    }
    DroppedExactlyWhenLetGo(s, Push(v, Throws), 1);
  }

  lemma OnlyPlace(s: Hangfire, p: Place)
    requires exists now, wk, entries, wt :: Stage(s, now, [], wk, entries, wt) && (wk.Idle? || wk.Dead?)
    requires Has(s, 1, p)
    ensures p == AtWatcher(0) || p == InSet(0)
  {
  }

  /** The worker dies, and its server leaves the registry before the entry is stale. */
  lemma LastSight(s: Hangfire, entry: Entry, w: nat)
    requires Stage(s, 0, [], Running(7, 1, true, entry.mark), map[1 := entry], Resting) && w == 0
    ensures var s' := Next(Next(s, Die(w)), Forget(0)); 1 in s'.enqueued && !Accounted(s', 1)
  {
    var s1 := Next(s, Die(w));
    assert Stage(s1, 0, [], Dead, map[1 := entry], Resting);
    assert Has(s1, 1, InSet(0)) by {
      assert !s1.watchers[0].Departed?;
    }
    forall p | Has(s1, 1, p) ensures TakesAway(s1, Forget(0), 1, p) {
      OnlyPlace(s1, p);
    }
    DroppedExactlyWhenLetGo(s1, Forget(0), 1);
  }

  /** No `Requeue` of the run throws. */
  predicate NoThrow(es: seq<Event>) {
    forall i :: 0 <= i < |es| ==> !((es[i].PutBack? || es[i].Return? || es[i].Push?) && es[i].how.Throws?)
  }

  predicate NoDeath(es: seq<Event>) {
    forall i :: 0 <= i < |es| ==> !es[i].Die? && !es[i].Depart?
  }

  /** Worker and watcher `w`: the first four events. */
  function Fetching(w: nat): (es: seq<Event>)
    ensures NoDeath(es) && NoThrow(es)
  {
    [Enqueue(7, 1)] + ([Announce(0)] + ([Fetch(w, 7)] + ([Mark(w, true)] + [])))
  }

  /** And the rest. */
  function Losing(w: nat): (es: seq<Event>)
    ensures NoDeath(es)
  {
    [Return(w, Throws, true)] + ([Tick(31)] + ([Visit(w, [0])] + ([Take(w, true, [1])] + ([Push(w, Throws)] + []))))
  }

  lemma {:induction false} ExecConcat(s: Hangfire, a: seq<Event>, b: seq<Event>)
    ensures Exec(s, a + b) == Exec(Exec(s, a), b)
    decreases |a|
  {
    if a == [] {
      assert a + b == b;
    } else {
      assert (a + b)[1..] == a[1..] + b;
      hide Next;
      ExecConcat(Next(s, a[0]), a[1..], b);
    }
  }

  lemma LossRun(w: nat)
    requires w == 0
    ensures var s := Exec(Init(30, [0], 1), Fetching(w) + Losing(w)); 1 in s.enqueued && !Accounted(s, 1)
  {
    var s0 := Init(30, [0], 1);
    FetchRun(s0, w);
    UnrollFour(s0, Enqueue(7, 1), Announce(0), Fetch(w, 7), Mark(w, true), []);
    var s1 := Exec(s0, Fetching(w));
    hide Next, Accounted, Stage;
    var entry := Entry(7, 0, s1.marks - 1);
    TakeRun(s1, entry, w);
    UnrollFour(s1, Return(w, Throws, true), Tick(31), Visit(w, [0]), Take(w, true, [1]), [Push(w, Throws)] + []);
    var s2 := Next(Next(Next(Next(s1, Return(w, Throws, true)), Tick(31)), Visit(w, [0])), Take(w, true, [1]));
    LastPush(s2, entry, w);
    Unroll(s2, Push(w, Throws), []);
    ExecConcat(s0, Fetching(w), Losing(w));
  }

  /** In some run without deaths a worker cannot put its job back, the entry goes stale, and the watcher that
      took it cannot put it back either: the job is nowhere. */
  lemma {:induction false} TimeOutsLoseAJob()
    ensures exists es: seq<Event> :: NoDeath(es) && 1 in Exec(Init(30, [0], 1), es).enqueued && !Accounted(Exec(Init(30, [0], 1), es), 1)
  {
    LossRun(0);
    assert NoDeath(Fetching(0) + Losing(0));
  }

  function Stranding(w: nat): (es: seq<Event>)
    ensures NoThrow(es)
  {
    [Die(w)] + ([Forget(0)] + [])
  }

  lemma StrandRun(w: nat)
    requires w == 0
    ensures var s := Exec(Init(30, [0], 1), Fetching(w) + Stranding(w)); 1 in s.enqueued && !Accounted(s, 1)
  {
    var s0 := Init(30, [0], 1);
    FetchRun(s0, w);
    UnrollFour(s0, Enqueue(7, 1), Announce(0), Fetch(w, 7), Mark(w, true), []);
    var s1 := Exec(s0, Fetching(w));
    hide Next, Accounted, Stage;
    LastSight(s1, Entry(7, 0, s1.marks - 1), w);
    Unroll(s1, Die(w), [Forget(0)] + []);
    Unroll(Next(s1, Die(w)), Forget(0), []);
    ExecConcat(s0, Fetching(w), Stranding(w));
  }

  /** In some run no `Requeue` throws and the watcher lives, and still a job is lost: its worker dies, and its
      server is removed from the registry before the entry has gone stale. */
  lemma {:induction false} RemovedServerStrandsAJob()
    ensures exists es: seq<Event> ::
      NoThrow(es) && 1 in Exec(Init(30, [0], 1), es).enqueued && !Accounted(Exec(Init(30, [0], 1), es), 1)
  {
    StrandRun(0);
    assert NoThrow(Fetching(0) + Stranding(0));
  }
}
