/** The life of a Hangfire job between its queue, the processing sets, workers and watchers.

    One operation of `JobQueue`, and one guarded update of a processing set, is one step here;
    every lock may be lost to a time-out, and workers and watchers may die. The clock runs on its own. */
module JobLifecycle {
  import opened Cache

  type Job = nat

  /** An entry of a processing set; `mark` tells the entries ever made apart. */
  datatype Entry = Entry(queue: nat, fetchedAt: nat, mark: nat)

  /** How `Requeue` ends: at the front, at the back since the head lock was lost, or by an
      exception since the tail lock was lost too. */
  datatype How = Front | Back | Throws

  datatype Worker =
    | Idle
    | Got(queue: nat, job: Job)                       // TryDequeue returned the job
    | Putting(queue: nat, job: Job)                   // MarkAsProcessing threw: put it back
    | Running(queue: nat, job: Job, beating: bool, handle: nat)    // a fetched-job handle is out
    | Clearing(queue: nat, job: Job)                  // about to take the entry off the set
    | Dead

  datatype Watcher =
    | Resting
    | Visiting(servers: seq<nat>)                                   // processing sets still to visit
    | Pushing(jobs: seq<(Job, Entry)>, servers: seq<nat>)           // stale jobs still to requeue
    | Departed                                                      // it died

  /** A heartbeat callback of a worker's handle that is past its check of the stop flag. */
  datatype Flight = Flight(worker: nat, job: Job, handle: nat)

  /** Worker `w` belongs to server `serverOf[w]`. `taken` lists the marks of the entries that watchers
      took, `pushed` those whose jobs they then requeued; `gone` holds those of entries that another
      holder of the same job cleared or overwrote. A handle's number is the mark of its entry. */
  datatype Hangfire = Hangfire(
    now: nat, timeout: nat, queues: map<nat, seq<Job>>, processing: map<nat, map<Job, Entry>>, servers: set<nat>,
    workers: seq<Worker>, serverOf: seq<nat>, watchers: seq<Watcher>, flights: seq<Flight>,
    enqueued: set<Job>, finished: set<Job>, marks: nat, taken: seq<nat>, pushed: seq<nat>, gone: set<nat>)

  datatype Event =
    | Enqueue(q: nat, j: Job)
    | Fetch(w: nat, q: nat)                            // TryDequeue
    | Mark(w: nat, granted: bool)                      // MarkAsProcessing
    | PutBack(w: nat, how: How)                        // CompleteAndWrap's Requeue
    | Finish(w: nat)                                   // RemoveFromQueue: the job is done
    | Return(w: nat, how: How, last: bool)             // Requeue, or Dispose (`last`) of a job not done
    | Clear(w: nat, granted: bool)                     // RemoveFromProcessingSet
    | Beat(w: nat)                                     // a heartbeat callback finds the handle beating
    | Renew(w: nat, i: nat, granted: bool)             // and makes its guarded update, however late
    | Visit(v: nat, servers: seq<nat>)                 // a watcher reads the server registry
    | Take(v: nat, granted: bool, order: seq<Job>)     // and takes the stale entries of the next set
    | Push(v: nat, how: How)                           // and requeues the next job
    | Die(w: nat)
    | Depart(v: nat)                                   // a watcher dies
    | Announce(server: nat)
    | Forget(server: nat)                              // the server leaves the registry
    | Tick(d: nat)

  function Init(timeout: nat, serverOf: seq<nat>, watchers: nat): Hangfire {
    Hangfire(0, timeout, map[], map[], {}, seq(|serverOf|, _ => Idle), serverOf, seq(watchers, _ => Resting), [],
      {}, {}, 0, [], [], {})
  }

  function Queued(s: Hangfire, q: nat): seq<Job> {
    if q in s.queues then s.queues[q] else []
  }

  function Entries(s: Hangfire, server: nat): map<Job, Entry> {
    if server in s.processing then s.processing[server] else map[]
  }

  function Stale(s: Hangfire, e: Entry): bool {
    e.fetchedAt + s.timeout < s.now
  }

  /** `Requeue` of `NCacheJobQueue`, as a whole. */
  function Requeued(s: Hangfire, q: nat, j: Job, how: How): Hangfire {
    match how
    case Front => s.(queues := s.queues[q := [j] + Queued(s, q)])
    case Back => s.(queues := s.queues[q := Queued(s, q) + [j]])
    case Throws => s
  }

  /** The server that runs worker `w`. */
  function Home(s: Hangfire, w: nat): nat {
    if w < |s.serverOf| then s.serverOf[w] else 0
  }

  function With(s: Hangfire, w: nat, wk: Worker): Hangfire
    requires w < |s.workers|
  {
    s.(workers := s.workers[w := wk])
  }

  function Watch(s: Hangfire, v: nat, wt: Watcher): Hangfire
    requires v < |s.watchers|
  {
    s.(watchers := s.watchers[v := wt])
  }

  /** `order` lists the stale jobs of the set, each once, in its order of enumeration. */
  predicate Lists(s: Hangfire, entries: map<Job, Entry>, order: seq<Job>) {
    && (forall i :: 0 <= i < |order| ==> order[i] in entries && Stale(s, entries[order[i]]))
    && (forall j :: j in entries && Stale(s, entries[j]) ==> j in order)
    && (forall i, k :: 0 <= i < k < |order| ==> order[i] != order[k])
  }

  function Pick(entries: map<Job, Entry>, order: seq<Job>): (jobs: seq<(Job, Entry)>)
    requires forall i :: 0 <= i < |order| ==> order[i] in entries
    ensures |jobs| == |order| && forall i :: 0 <= i < |order| ==> jobs[i] == (order[i], entries[order[i]])
  {
    seq(|order|, i requires 0 <= i < |order| => (order[i], entries[order[i]]))
  }

  function Marks(jobs: seq<(Job, Entry)>): (ms: seq<nat>)
    ensures |ms| == |jobs| && forall i :: 0 <= i < |jobs| ==> ms[i] == jobs[i].1.mark
  {
    seq(|jobs|, i requires 0 <= i < |jobs| => jobs[i].1.mark)
  }

  function MarkOf(entries: map<Job, Entry>, j: Job): set<nat> {
    if j in entries then {entries[j].mark} else {}
  }

  /** The guarded update of a heartbeat: restamp the entry of the job, or stop the handle's heartbeat. */
  function RenewOf(s: Hangfire, w: nat, i: nat, granted: bool): Hangfire
    requires w < |s.workers| && i < |s.flights|
  {
    var f, server, wk := s.flights[i], Home(s, w), s.workers[w];
    var landed := s.(flights := s.flights[..i] + s.flights[i + 1..]);
    if !granted then landed
    else if f.job in Entries(s, server) then
      landed.(processing := s.processing[server := Entries(s, server)[f.job := Entries(s, server)[f.job].(fetchedAt := s.now)]])
    else if wk.Running? && wk.handle == f.handle then With(landed, w, wk.(beating := false))
    else landed
  }

  function WorkerStep(s: Hangfire, e: Event, w: nat): Hangfire
    requires w < |s.workers|
  {
    var wk, server := s.workers[w], Home(s, w);
    match e
    case Fetch(_, q) =>
      if wk.Idle? && Queued(s, q) != []
      then With(s, w, Got(q, Queued(s, q)[0])).(queues := s.queues[q := Queued(s, q)[1..]]) else s
    case Mark(_, granted) =>
      if !wk.Got? then s
      else if !granted then With(s, w, Putting(wk.queue, wk.job))
      else With(s, w, Running(wk.queue, wk.job, true, s.marks)).(
        processing := s.processing[server := Entries(s, server)[wk.job := Entry(wk.queue, s.now, s.marks)]],
        marks := s.marks + 1, gone := s.gone + MarkOf(Entries(s, server), wk.job))
    case PutBack(_, how) =>
      if wk.Putting? then With(Requeued(s, wk.queue, wk.job, how), w, Idle) else s
    case Finish(_) =>
      if wk.Running? then With(s, w, Clearing(wk.queue, wk.job)).(finished := s.finished + {wk.job}) else s
    case Return(_, how, last) =>
      if !wk.Running? then s
      else if !how.Throws? then With(Requeued(s, wk.queue, wk.job, how), w, Clearing(wk.queue, wk.job))
      else With(s, w, if last then Idle else wk.(beating := false))
    case Clear(_, granted) =>
      if !wk.Clearing? then s
      else if !granted then With(s, w, Idle)
      else With(s, w, Idle).(
        processing := s.processing[server := Entries(s, server) - {wk.job}],
        gone := s.gone + MarkOf(Entries(s, server), wk.job))
    case Beat(_) =>
      if wk.Running? && wk.beating then s.(flights := s.flights + [Flight(w, wk.job, wk.handle)]) else s
    case Renew(_, i, granted) =>
      if i >= |s.flights| || s.flights[i].worker != w || wk.Dead? then s
      else RenewOf(s, w, i, granted)
    case Die(_) => With(s, w, Dead)
    case _ => s
  }

  function WatcherStep(s: Hangfire, e: Event, v: nat): Hangfire
    requires v < |s.watchers|
  {
    var wt := s.watchers[v];
    match e
    case Visit(_, servers) =>
      if wt.Resting? && (forall i :: 0 <= i < |servers| ==> servers[i] in s.servers)
      then Watch(s, v, Visiting(servers)) else s
    case Take(_, granted, order) =>
      if !wt.Visiting? then s
      else if wt.servers == [] then Watch(s, v, Resting)
      else
        var server, rest := wt.servers[0], wt.servers[1..];
        var entries := Entries(s, server);
        if !granted then Watch(s, v, Visiting(rest))
        else if !Lists(s, entries, order) then s
        else
          var jobs := Pick(entries, order);
          Watch(s, v, Pushing(jobs, rest)).(
            processing := s.processing[server := entries - (set j | j in order)], taken := s.taken + Marks(jobs))
    case Push(_, how) =>
      if !wt.Pushing? then s
      else if wt.jobs == [] then Watch(s, v, Visiting(wt.servers))
      else if how.Throws? then Watch(s, v, Resting)
      else
        var (j, entry) := wt.jobs[0];
        Watch(Requeued(s, entry.queue, j, how), v, Pushing(wt.jobs[1..], wt.servers)).(pushed := s.pushed + [entry.mark])
    case Depart(_) => Watch(s, v, Departed)
    case _ => s
  }

  function Next(s: Hangfire, e: Event): Hangfire
  {
    match e
    case Enqueue(q, j) => s.(queues := s.queues[q := Queued(s, q) + [j]], enqueued := s.enqueued + {j})
    case Announce(server) => s.(servers := s.servers + {server})
    case Forget(server) => s.(servers := s.servers - {server})
    case Tick(d) => s.(now := s.now + d)
    case Visit(v, _) => if v < |s.watchers| then WatcherStep(s, e, v) else s
    case Take(v, _, _) => if v < |s.watchers| then WatcherStep(s, e, v) else s
    case Push(v, _) => if v < |s.watchers| then WatcherStep(s, e, v) else s
    case Fetch(w, _) => if w < |s.workers| then WorkerStep(s, e, w) else s
    case Mark(w, _) => if w < |s.workers| then WorkerStep(s, e, w) else s
    case PutBack(w, _) => if w < |s.workers| then WorkerStep(s, e, w) else s
    case Finish(w) => if w < |s.workers| then WorkerStep(s, e, w) else s
    case Return(w, _, _) => if w < |s.workers| then WorkerStep(s, e, w) else s
    case Clear(w, _) => if w < |s.workers| then WorkerStep(s, e, w) else s
    case Beat(w) => if w < |s.workers| then WorkerStep(s, e, w) else s
    case Renew(w, _, _) => if w < |s.workers| then WorkerStep(s, e, w) else s
    case Die(w) => if w < |s.workers| then WorkerStep(s, e, w) else s
    case Depart(v) => if v < |s.watchers| then WatcherStep(s, e, v) else s
  }

  function Exec(s: Hangfire, es: seq<Event>): Hangfire
    decreases |es|
  {
    if es == [] then s else Exec(Next(s, es[0]), es[1..])
  }

  /** A watcher that takes the stale entries of the next server. */
  predicate Takes(s: Hangfire, e: Event) {
    && e.Take? && e.v < |s.watchers| && s.watchers[e.v].Visiting? && s.watchers[e.v].servers != [] && e.granted
    && Lists(s, Entries(s, s.watchers[e.v].servers[0]), e.order)
  }

  // ---- No job is dropped ----

  predicate Waits(s: Hangfire, j: Job) {
    exists q :: q in s.queues && j in s.queues[q]
  }

  predicate InHands(wk: Worker, j: Job) {
    (wk.Got? || wk.Putting? || wk.Running?) && wk.job == j
  }

  predicate OnList(wt: Watcher, j: Job) {
    wt.Pushing? && exists i :: 0 <= i < |wt.jobs| && wt.jobs[i].0 == j
  }

  /** A worker other than `but` has the job in its hands. */
  predicate WorkedOn(s: Hangfire, j: Job, but: int) {
    exists w :: 0 <= w < |s.workers| && w != but && InHands(s.workers[w], j)
  }

  /** A watcher other than `but` is still to requeue the job. */
  predicate Carried(s: Hangfire, j: Job, but: int) {
    exists v :: 0 <= v < |s.watchers| && v != but && OnList(s.watchers[v], j)
  }

  /** The job is done, waiting, in the hands of a worker, or in those of a watcher. */
  predicate Placed(s: Hangfire, j: Job) {
    j in s.finished || Waits(s, j) || WorkedOn(s, j, -1) || Carried(s, j, -1)
  }

  /** A `Requeue` that throws, or a death. */
  predicate Failing(e: Event) {
    ((e.PutBack? || e.Return? || e.Push?) && e.how.Throws?) || e.Die? || e.Depart?
  }

  predicate NoFailure(es: seq<Event>) {
    forall i :: 0 <= i < |es| ==> !Failing(es[i])
  }

  /** The worker an event moves, and the watcher; -1 for none. */
  function WorkerOf(e: Event): int {
    if e.Fetch? || e.Mark? || e.PutBack? || e.Finish? || e.Return? || e.Clear? || e.Beat? || e.Renew? || e.Die? then e.w else -1
  }

  function WatcherOf(e: Event): int {
    if e.Visit? || e.Take? || e.Push? || e.Depart? then e.v else -1
  }

  lemma RequeuedKeeps(s: Hangfire, q: nat, j: Job, how: How, p: nat, x: Job)
    requires p in s.queues && x in s.queues[p]
    ensures p in Requeued(s, q, j, how).queues && x in Requeued(s, q, j, how).queues[p]
  {
  }

  lemma FetchKeeps(s: Hangfire, e: Event, w: nat, q: nat, j: Job)
    requires e.Fetch? && w < |s.workers| && q in s.queues && j in s.queues[q]
    ensures (q in WorkerStep(s, e, w).queues && j in WorkerStep(s, e, w).queues[q]) || InHands(WorkerStep(s, e, w).workers[w], j)
  {
    if s.queues[q] != [] {
      assert s.queues[q] == [s.queues[q][0]] + s.queues[q][1..];
    }
  }

  lemma WorkerStepKeeps(s: Hangfire, e: Event, w: nat, q: nat, j: Job)
    requires !e.Fetch? && w < |s.workers| && q in s.queues && j in s.queues[q]
    ensures q in WorkerStep(s, e, w).queues && j in WorkerStep(s, e, w).queues[q]
  {
    var wk := s.workers[w];
    if (e.PutBack? && wk.Putting?) || (e.Return? && wk.Running?) {
      RequeuedKeeps(s, wk.queue, wk.job, e.how, q, j);
    }
    hide Requeued;
  }

  lemma WatcherStepKeeps(s: Hangfire, e: Event, v: nat, q: nat, j: Job)
    requires v < |s.watchers| && q in s.queues && j in s.queues[q]
    ensures q in WatcherStep(s, e, v).queues && j in WatcherStep(s, e, v).queues[q]
  {
    var wt := s.watchers[v];
    if e.Push? && wt.Pushing? && wt.jobs != [] {
      RequeuedKeeps(s, wt.jobs[0].1.queue, wt.jobs[0].0, e.how, q, j);
    }
    hide Requeued;
  }

  /** Queues only ever lose the job that `Fetch` takes. */
  lemma WaitingStays(s: Hangfire, e: Event, j: Job)
    requires Waits(s, j)
    ensures Waits(Next(s, e), j) || (e.Fetch? && e.w < |s.workers| && InHands(Next(s, e).workers[e.w], j))
  {
    var s' := Next(s, e);
    var q :| q in s.queues && j in s.queues[q];
    Frame(s, e);
    if 0 <= WorkerOf(e) < |s.workers| {
      if e.Fetch? { FetchKeeps(s, e, e.w, q, j); } else { WorkerStepKeeps(s, e, WorkerOf(e), q, j); }
    } else if 0 <= WatcherOf(e) < |s.watchers| {
      WatcherStepKeeps(s, e, WatcherOf(e), q, j);
    } else {
      hide WorkerStep, WatcherStep;
      assert q in s'.queues && j in s'.queues[q];
    }
    hide WorkerStep, WatcherStep, InHands;
  }

  /** What a worker's step leaves alone. */
  lemma WorkerFrame(s: Hangfire, e: Event, w: nat)
    requires w < |s.workers|
    ensures var s' := WorkerStep(s, e, w);
      && s'.watchers == s.watchers && s'.servers == s.servers && s'.serverOf == s.serverOf
      && s'.taken == s.taken && s'.pushed == s.pushed && s.finished <= s'.finished && s.gone <= s'.gone
      && |s'.workers| == |s.workers| && s'.workers == s.workers[w := s'.workers[w]]
  {
    WorkersFrame(s, e, w);
    BooksFrame(s, e, w);
    hide WorkerStep;
  }

  lemma WorkersFrame(s: Hangfire, e: Event, w: nat)
    requires w < |s.workers|
    ensures |WorkerStep(s, e, w).workers| == |s.workers|
    ensures WorkerStep(s, e, w).workers == s.workers[w := WorkerStep(s, e, w).workers[w]]
  {
  }

  /** What no worker's step touches, or only adds to. */
  predicate Books(s: Hangfire, s': Hangfire) {
    && s'.watchers == s.watchers && s'.servers == s.servers && s'.serverOf == s.serverOf
    && s'.taken == s.taken && s'.pushed == s.pushed && s.finished <= s'.finished && s.gone <= s'.gone
  }

  lemma BooksFrame(s: Hangfire, e: Event, w: nat)
    requires w < |s.workers|
    ensures Books(s, WorkerStep(s, e, w))
  {
    if e.Renew? {
      RenewBooks(s, e, w);
    } else if e.PutBack? || e.Return? {
      RequeueBooks(s, e, w);
    } else {
      hide RenewOf, Requeued;
    }
  }

  lemma RenewBooks(s: Hangfire, e: Event, w: nat)
    requires e.Renew? && w < |s.workers|
    ensures Books(s, WorkerStep(s, e, w))
  {
  }

  lemma RequeueBooks(s: Hangfire, e: Event, w: nat)
    requires (e.PutBack? || e.Return?) && w < |s.workers|
    ensures Books(s, WorkerStep(s, e, w))
  {
    hide RenewOf;
  }

  /** What a watcher's step leaves alone. */
  lemma WatcherFrame(s: Hangfire, e: Event, v: nat)
    requires v < |s.watchers|
    ensures var s' := WatcherStep(s, e, v);
      && s'.workers == s.workers && s'.servers == s.servers && s'.serverOf == s.serverOf
      && s'.finished == s.finished && s'.gone == s.gone && s.taken <= s'.taken
      && |s'.watchers| == |s.watchers| && s'.watchers == s.watchers[v := s'.watchers[v]]
  {
    WatchersFrame(s, e, v);
    RestFrame(s, e, v);
    hide WatcherStep;
  }

  lemma RestFrame(s: Hangfire, e: Event, v: nat)
    requires v < |s.watchers|
    ensures var s' := WatcherStep(s, e, v);
      && s'.workers == s.workers && s'.servers == s.servers && s'.serverOf == s.serverOf
      && s'.finished == s.finished && s'.gone == s.gone && s.taken <= s'.taken
  {
    hide Lists, Pick, Marks;
  }

  lemma WatchersFrame(s: Hangfire, e: Event, v: nat)
    requires v < |s.watchers|
    ensures |WatcherStep(s, e, v).watchers| == |s.watchers|
    ensures WatcherStep(s, e, v).watchers == s.watchers[v := WatcherStep(s, e, v).watchers[v]]
  {
    hide Lists, Pick, Marks;
  }

  /** Both, for whoever acts. */
  lemma Frame(s: Hangfire, e: Event)
    ensures 0 <= WorkerOf(e) < |s.workers| ==> Next(s, e) == WorkerStep(s, e, WorkerOf(e))
    ensures 0 <= WatcherOf(e) < |s.watchers| ==> Next(s, e) == WatcherStep(s, e, WatcherOf(e))
    ensures var s' := Next(s, e);
      && |s'.workers| == |s.workers| && |s'.watchers| == |s.watchers| && s'.serverOf == s.serverOf
      && s.finished <= s'.finished && s.gone <= s'.gone && s.taken <= s'.taken
  {
    if 0 <= WorkerOf(e) < |s.workers| { WorkerFrame(s, e, WorkerOf(e)); }
    if 0 <= WatcherOf(e) < |s.watchers| { WatcherFrame(s, e, WatcherOf(e)); }
    hide WorkerStep, WatcherStep;
  }

  lemma OnlyTheWorkerMoves(s: Hangfire, e: Event)
    ensures |Next(s, e).workers| == |s.workers| && s.finished <= Next(s, e).finished
    ensures forall w :: 0 <= w < |s.workers| && w != WorkerOf(e) ==> Next(s, e).workers[w] == s.workers[w]
  {
    if 0 <= WorkerOf(e) < |s.workers| { WorkerFrame(s, e, WorkerOf(e)); }
    if 0 <= WatcherOf(e) < |s.watchers| { WatcherFrame(s, e, WatcherOf(e)); }
    hide WorkerStep, WatcherStep;
  }

  lemma OnlyTheWatcherMoves(s: Hangfire, e: Event)
    ensures |Next(s, e).watchers| == |s.watchers|
    ensures forall v :: 0 <= v < |s.watchers| && v != WatcherOf(e) ==> Next(s, e).watchers[v] == s.watchers[v]
  {
    if 0 <= WorkerOf(e) < |s.workers| { WorkerFrame(s, e, WorkerOf(e)); }
    if 0 <= WatcherOf(e) < |s.watchers| { WatcherFrame(s, e, WatcherOf(e)); }
    hide WorkerStep, WatcherStep;
  }

  /** Whoever does not act keeps what it has. */
  lemma OthersKeep(s: Hangfire, e: Event, j: Job)
    ensures j in s.finished ==> j in Next(s, e).finished
    ensures WorkedOn(s, j, WorkerOf(e)) ==> WorkedOn(Next(s, e), j, WorkerOf(e))
    ensures Carried(s, j, WatcherOf(e)) ==> Carried(Next(s, e), j, WatcherOf(e))
  {
    OnlyTheWorkerMoves(s, e);
    OnlyTheWatcherMoves(s, e);
    hide Next, InHands, OnList;
    var s' := Next(s, e);
    if WorkedOn(s, j, WorkerOf(e)) {
      var w :| 0 <= w < |s.workers| && w != WorkerOf(e) && InHands(s.workers[w], j);
      assert InHands(s'.workers[w], j);
    }
    if Carried(s, j, WatcherOf(e)) {
      var v :| 0 <= v < |s.watchers| && v != WatcherOf(e) && OnList(s.watchers[v], j);
      assert OnList(s'.watchers[v], j);
    }
  }

  lemma RequeuedWaits(s: Hangfire, q: nat, j: Job, how: How)
    requires !how.Throws?
    ensures q in Requeued(s, q, j, how).queues && j in Requeued(s, q, j, how).queues[q]
    ensures Waits(Requeued(s, q, j, how), j)
  {
    var s' := Requeued(s, q, j, how);
    assert s'.queues[q][if how.Front? then 0 else |Queued(s, q)|] == j;
  }

  /** The acting worker gives its job up only by a `Requeue` that throws. */
  lemma WorkerKeeps(s: Hangfire, e: Event, j: Job)
    requires 0 <= WorkerOf(e) < |s.workers| && InHands(s.workers[WorkerOf(e)], j)
    requires !Failing(e)
    ensures Placed(Next(s, e), j)
  {
    var w := WorkerOf(e);
    var wk, s' := s.workers[w], Next(s, e);
    if (e.PutBack? && wk.Putting?) || (e.Return? && wk.Running?) {
      RequeuedWaits(s, wk.queue, j, e.how);
      assert s'.queues == Requeued(s, wk.queue, j, e.how).queues;
      var q := wk.queue;
      assert q in s'.queues && j in s'.queues[q];
    } else if e.Finish? && wk.Running? {
      assert j in s'.finished;
    } else {
      assert InHands(s'.workers[w], j);
    }
  }

  /** The acting watcher drops its list only at a `Requeue` that throws. */
  lemma WatcherKeeps(s: Hangfire, e: Event, j: Job)
    requires 0 <= WatcherOf(e) < |s.watchers| && OnList(s.watchers[WatcherOf(e)], j)
    requires !Failing(e)
    ensures Placed(Next(s, e), j)
  {
    var v := WatcherOf(e);
    var wt, s' := s.watchers[v], Next(s, e);
    var i :| 0 <= i < |wt.jobs| && wt.jobs[i].0 == j;
    if !e.Push? {
      assert s'.watchers[v] == wt;
    } else if i == 0 {
      var q := wt.jobs[0].1.queue;
      RequeuedWaits(s, q, j, e.how);
      assert s'.queues == Requeued(s, q, j, e.how).queues;
      assert q in s'.queues && j in s'.queues[q];
    } else {
      assert s'.watchers[v].jobs[i - 1].0 == j;
      assert OnList(s'.watchers[v], j);
    }
  }

  lemma NextKeepsPlaced(s: Hangfire, e: Event, j: Job)
    requires Placed(s, j) && !Failing(e)
    ensures Placed(Next(s, e), j)
  {
    OthersKeep(s, e, j);
    if Waits(s, j) {
      WaitingStays(s, e, j);
    } else if WorkedOn(s, j, -1) && !WorkedOn(s, j, WorkerOf(e)) {
      WorkerKeeps(s, e, j);
    } else if Carried(s, j, -1) && !Carried(s, j, WatcherOf(e)) {
      WatcherKeeps(s, e, j);
    }
  }

  lemma EnqueuedIsPlaced(s: Hangfire, q: nat, j: Job)
    ensures Placed(Next(s, Enqueue(q, j)), j)
  {
    var s' := Next(s, Enqueue(q, j));
    assert s'.queues[q][|Queued(s, q)|] == j;
  }

  /** In every run without deaths in which no `Requeue` times out on both locks, every job enqueued is
      finished, waiting, in the hands of a worker, or in those of a watcher. */
  lemma {:induction false} NothingDropped(s: Hangfire, es: seq<Event>)
    requires NoFailure(es)
    requires forall j :: j in s.enqueued ==> Placed(s, j)
    ensures forall j :: j in Exec(s, es).enqueued ==> Placed(Exec(s, es), j)
    decreases |es|
  {
    if es != [] {
      var s', e := Next(s, es[0]), es[0];
      forall j | j in s'.enqueued ensures Placed(s', j) {
        if j in s.enqueued {
          NextKeepsPlaced(s, e, j);
        } else {
          EnqueuedIsPlaced(s, e.q, j);
        }
      }
      NothingDropped(s', es[1..]);
    }
  }
}
