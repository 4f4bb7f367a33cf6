/** What watchers do to stale processing entries: each is taken once and requeued once, live ones
    are left alone, and no heartbeat brings one back. */
module StaleEntries {
  import opened Cache
  import opened JobLifecycle

  /** The marks of the entries the watcher is still to requeue. */
  function Pending(wt: Watcher): multiset<nat> {
    if wt.Pushing? then multiset(Marks(wt.jobs)) else multiset{}
  }

  function AllPending(wts: seq<Watcher>): multiset<nat> {
    if wts == [] then multiset{} else Pending(wts[0]) + AllPending(wts[1..])
  }

  lemma AddLeft(a: multiset<nat>, b: multiset<nat>, c: multiset<nat>, d: multiset<nat>, e: multiset<nat>)
    requires b + c == d + e
    ensures a + b + c == a + d + e
  {
    assert a + b + c == a + (b + c);
  }

  lemma {:induction false} PendingUpdate(wts: seq<Watcher>, v: nat, wt: Watcher)
    requires v < |wts|
    ensures AllPending(wts[v := wt]) + Pending(wts[v]) == AllPending(wts) + Pending(wt)
  {
    var wts' := wts[v := wt];
    if v == 0 {
      assert wts'[1..] == wts[1..];
    } else {
      assert wts'[1..] == wts[1..][v - 1 := wt];
      PendingUpdate(wts[1..], v - 1, wt);
      assert wts[1..][v - 1] == wts[v];
      assert AllPending(wts') == Pending(wts[0]) + AllPending(wts'[1..]);
      hide AllPending, Pending;
      AddLeft(Pending(wts[0]), AllPending(wts'[1..]), Pending(wts[v]), AllPending(wts[1..]), Pending(wt));
    }
  }

  lemma {:induction false} PendingAtRest(wts: seq<Watcher>)
    requires forall v :: 0 <= v < |wts| ==> !wts[v].Pushing?
    ensures AllPending(wts) == multiset{}
  {
    if wts != [] {
      PendingAtRest(wts[1..]);
    }
  }

  /** The processing sets list each entry once, none of them taken. */
  ghost predicate EntriesOk(s: Hangfire) {
    && (forall server, j :: j in Entries(s, server) ==>
          Entries(s, server)[j].mark < s.marks && Entries(s, server)[j].mark !in s.taken)
    && (forall a, i, b, j :: i in Entries(s, a) && j in Entries(s, b) && Entries(s, a)[i].mark == Entries(s, b)[j].mark ==>
          a == b && i == j)
  }

  ghost predicate TakenOk(s: Hangfire) {
    && (forall i :: 0 <= i < |s.taken| ==> s.taken[i] < s.marks)
    && (forall i, k :: 0 <= i < k < |s.taken| ==> s.taken[i] != s.taken[k])
  }

  /** What was taken and not requeued is in a watcher's hands, or dropped at an exception. */
  ghost predicate PushedOk(s: Hangfire) {
    multiset(s.pushed) + AllPending(s.watchers) <= multiset(s.taken)
  }

  ghost predicate Inv(s: Hangfire) {
    EntriesOk(s) && TakenOk(s) && PushedOk(s)
  }

  lemma InitInv(timeout: nat, serverOf: seq<nat>, watchers: nat)
    ensures Inv(Init(timeout, serverOf, watchers))
  {
    PendingAtRest(Init(timeout, serverOf, watchers).watchers);
  }

  /** `s'` is `s` but for the entry of `j` in the set of `server`, which is gone, restamped or new. */
  ghost predicate OneEntry(s: Hangfire, s': Hangfire, server: nat, j: Job) {
    && s'.taken == s.taken && s'.marks >= s.marks
    && (forall a, i :: (a != server || i != j) && i in Entries(s', a) ==>
          i in Entries(s, a) && Entries(s', a)[i] == Entries(s, a)[i])
    && (j in Entries(s', server) ==>
      || (j in Entries(s, server) && Entries(s', server)[j].mark == Entries(s, server)[j].mark)
      || (Entries(s', server)[j].mark == s.marks < s'.marks && s.marks !in s.taken))
  }

  /** Setting or dropping one entry of a set. */
  lemma SetEntry(s: Hangfire, s': Hangfire, server: nat, j: Job)
    requires EntriesOk(s) && OneEntry(s, s', server, j)
    ensures EntriesOk(s')
  {
    forall a, i | i in Entries(s', a)
      ensures Entries(s', a)[i].mark < s'.marks && Entries(s', a)[i].mark !in s'.taken
    {
      assert i in Entries(s, a) ==> Entries(s, a)[i].mark < s.marks && Entries(s, a)[i].mark !in s.taken;
    }
    forall a, i, b, k | i in Entries(s', a) && k in Entries(s', b) && Entries(s', a)[i].mark == Entries(s', b)[k].mark
      ensures a == b && i == k
    {
      assert i in Entries(s, a) ==> Entries(s, a)[i].mark < s.marks;
      assert k in Entries(s, b) ==> Entries(s, b)[k].mark < s.marks;
    }
  }

  lemma SetsUntouched(s: Hangfire, s': Hangfire)
    requires EntriesOk(s) && TakenOk(s)
    requires s'.processing == s.processing && s'.marks == s.marks && s'.taken == s.taken
    ensures EntriesOk(s') && TakenOk(s')
  {
    assert forall a :: Entries(s', a) == Entries(s, a);
  }

  /** One set is replaced by one that differs from it at `j` alone. */
  lemma ReplaceSet(s: Hangfire, s': Hangfire, server: nat, j: Job, entries: map<Job, Entry>)
    requires EntriesOk(s) && TakenOk(s) && s'.processing == s.processing[server := entries]
    requires s'.taken == s.taken && s'.marks >= s.marks
    requires entries - {j} == Entries(s, server) - {j}
    requires j in entries ==>
      || (j in Entries(s, server) && entries[j].mark == Entries(s, server)[j].mark)
      || (entries[j].mark == s.marks < s'.marks)
    ensures EntriesOk(s') && TakenOk(s')
  {
    forall a, i | (a != server || i != j) && i in Entries(s', a)
      ensures i in Entries(s, a) && Entries(s', a)[i] == Entries(s, a)[i]
    {
      if a == server {
        assert i in entries - {j} && (entries - {j})[i] == entries[i];
      }
    }
    assert s.marks !in s.taken;
    SetEntry(s, s', server, j);
  }

  lemma MarkStep(s: Hangfire, w: nat, granted: bool)
    requires EntriesOk(s) && TakenOk(s)
    ensures EntriesOk(Next(s, Mark(w, granted))) && TakenOk(Next(s, Mark(w, granted)))
  {
    var s' := Next(s, Mark(w, granted));
    if w < |s.workers| && s.workers[w].Got? && granted {
      var wk, server := s.workers[w], Home(s, w);
      ReplaceSet(s, s', server, wk.job, Entries(s, server)[wk.job := Entry(wk.queue, s.now, s.marks)]);
    } else {
      SetsUntouched(s, s');
    }
  }

  lemma ClearStep(s: Hangfire, w: nat, granted: bool)
    requires EntriesOk(s) && TakenOk(s)
    ensures EntriesOk(Next(s, Clear(w, granted))) && TakenOk(Next(s, Clear(w, granted)))
  {
    var s' := Next(s, Clear(w, granted));
    if w < |s.workers| && s.workers[w].Clearing? && granted {
      ReplaceSet(s, s', Home(s, w), s.workers[w].job, Entries(s, Home(s, w)) - {s.workers[w].job});
    } else {
      SetsUntouched(s, s');
    }
  }

  /** A callback of a worker that is not dead makes its update. */
  predicate Lands(s: Hangfire, w: nat, i: nat) {
    w < |s.workers| && !s.workers[w].Dead? && i < |s.flights| && s.flights[i].worker == w
  }

  lemma RenewStep(s: Hangfire, w: nat, i: nat, granted: bool)
    requires EntriesOk(s) && TakenOk(s)
    ensures EntriesOk(Next(s, Renew(w, i, granted))) && TakenOk(Next(s, Renew(w, i, granted)))
  {
    var s' := Next(s, Renew(w, i, granted));
    if Lands(s, w, i) && granted && s.flights[i].job in Entries(s, Home(s, w)) {
      var server, j := Home(s, w), s.flights[i].job;
      ReplaceSet(s, s', server, j, Entries(s, server)[j := Entries(s, server)[j].(fetchedAt := s.now)]);
    } else {
      SetsUntouched(s, s');
    }
  }

  function Fresh(s: Hangfire, entries: map<Job, Entry>): map<Job, Entry> {
    map j | j in entries && !Stale(s, entries[j]) :: entries[j]
  }

  /** The stale entries of the server go, all of them and no others; the watcher has them in hand. */
  lemma TakesExactlyTheStale(s: Hangfire, e: Event)
    requires Takes(s, e)
    ensures var server, s' := s.watchers[e.v].servers[0], Next(s, e);
      && Entries(s', server) == Fresh(s, Entries(s, server))
      && (forall a :: a != server ==> Entries(s', a) == Entries(s, a))
    ensures var entries, s' := Entries(s, s.watchers[e.v].servers[0]), Next(s, e);
      && s'.watchers[e.v].Pushing? && s'.taken == s.taken + Marks(s'.watchers[e.v].jobs)
      && (forall j :: j in entries && Stale(s, entries[j]) <==> OnList(s'.watchers[e.v], j))
      && (forall i :: 0 <= i < |s'.watchers[e.v].jobs| ==>
            var (j, entry) := s'.watchers[e.v].jobs[i]; j in entries && entry == entries[j])
  {
    var entries, s' := Entries(s, s.watchers[e.v].servers[0]), Next(s, e);
    var jobs := s'.watchers[e.v].jobs;
    assert jobs == Pick(entries, e.order);
    forall j | j in entries && Stale(s, entries[j]) ensures OnList(s'.watchers[e.v], j) {
      var i :| 0 <= i < |e.order| && e.order[i] == j;
      assert jobs[i].0 == j;
    }
  }

  lemma TakeKeepsEntries(s: Hangfire, e: Event)
    requires EntriesOk(s) && TakenOk(s) && Takes(s, e)
    ensures EntriesOk(Next(s, e)) && TakenOk(Next(s, e))
  {
    TakesExactlyTheStale(s, e);
    var s', server := Next(s, e), s.watchers[e.v].servers[0];
    var entries, jobs := Entries(s, server), s'.watchers[e.v].jobs;
    assert jobs == Pick(entries, e.order) && s'.marks == s.marks;
    hide Next;
    assert TakenOk(s') by {
      forall i, k | 0 <= i < k < |s'.taken| ensures s'.taken[i] != s'.taken[k] {
        if i >= |s.taken| {
          assert e.order[i - |s.taken|] != e.order[k - |s.taken|];
        }
      }
    }
    forall a, j | j in Entries(s', a)
      ensures Entries(s', a)[j].mark < s'.marks && Entries(s', a)[j].mark !in s'.taken
    {
      assert j in Entries(s, a) && Entries(s', a)[j] == Entries(s, a)[j];
    }
  }

  lemma NextKeepsEntries(s: Hangfire, e: Event)
    requires EntriesOk(s) && TakenOk(s)
    ensures EntriesOk(Next(s, e)) && TakenOk(Next(s, e))
  {
    if e.Mark? {
      MarkStep(s, e.w, e.granted);
    } else if e.Clear? {
      ClearStep(s, e.w, e.granted);
    } else if e.Renew? {
      RenewStep(s, e.w, e.i, e.granted);
    } else if Takes(s, e) {
      TakeKeepsEntries(s, e);
    } else {
      SetsUntouched(s, Next(s, e));
    }
  }

  /** The watchers' hands, after the one that acts has changed its list. */
  lemma PendingStep(s: Hangfire, e: Event)
    requires 0 <= WatcherOf(e) < |s.watchers|
    ensures Next(s, e).watchers == s.watchers[WatcherOf(e) := Next(s, e).watchers[WatcherOf(e)]]
    ensures AllPending(Next(s, e).watchers) + Pending(s.watchers[WatcherOf(e)]) ==
            AllPending(s.watchers) + Pending(Next(s, e).watchers[WatcherOf(e)])
  {
    OnlyTheWatcherMoves(s, e);
    var v := WatcherOf(e);
    PendingUpdate(s.watchers, v, Next(s, e).watchers[v]);
  }

  /** What one step adds to `taken` comes into the acting watcher's hands, and leaves them for `pushed`. */
  ghost predicate Balanced(s: Hangfire, s': Hangfire, v: nat)
    requires v < |s.watchers| && v < |s'.watchers|
  {
    multiset(s'.pushed) + Pending(s'.watchers[v]) + multiset(s.taken) == multiset(s.pushed) + Pending(s.watchers[v]) + multiset(s'.taken)
  }

  lemma TakeBalances(s: Hangfire, e: Event)
    requires Takes(s, e)
    ensures |Next(s, e).watchers| == |s.watchers| && Balanced(s, Next(s, e), e.v)
  {
    TakesExactlyTheStale(s, e);
    var s' := Next(s, e);
    assert s'.pushed == s.pushed;
    hide Next;
    assert multiset(s'.taken) == multiset(s.taken) + multiset(Marks(s'.watchers[e.v].jobs));
  }

  predicate Pushes(s: Hangfire, e: Event) {
    e.Push? && e.v < |s.watchers| && s.watchers[e.v].Pushing? && s.watchers[e.v].jobs != []
  }

  lemma PushBalances(s: Hangfire, e: Event)
    requires Pushes(s, e) && !e.how.Throws?
    ensures |Next(s, e).watchers| == |s.watchers| && Balanced(s, Next(s, e), e.v)
  {
    var jobs, s' := s.watchers[e.v].jobs, Next(s, e);
    var mark := jobs[0].1.mark;
    assert s'.watchers[e.v].Pushing? && s'.watchers[e.v].jobs == jobs[1..];
    assert s'.pushed == s.pushed + [mark] && s'.taken == s.taken;
    hide Next;
    assert Marks(jobs) == [mark] + Marks(jobs[1..]);
    assert multiset(Marks(jobs)) == multiset([mark]) + multiset(Marks(jobs[1..]));
    assert multiset(s'.pushed) == multiset(s.pushed) + multiset([mark]);
  }

  /** No worker's step, and no other, touches the books. */
  lemma OthersLeaveTheBooks(s: Hangfire, e: Event)
    requires !(0 <= WatcherOf(e) < |s.watchers|)
    ensures Next(s, e).watchers == s.watchers && Next(s, e).pushed == s.pushed && Next(s, e).taken == s.taken
  {
    if 0 <= WorkerOf(e) < |s.workers| { WorkerFrame(s, e, WorkerOf(e)); }
    hide WorkerStep, WatcherStep;
  }

  lemma IdleWatcherBalances(s: Hangfire, e: Event)
    requires 0 <= WatcherOf(e) < |s.watchers| && !Takes(s, e) && !Pushes(s, e) && !e.Depart?
    ensures |Next(s, e).watchers| == |s.watchers| && Balanced(s, Next(s, e), WatcherOf(e))
  {
    var s', v := Next(s, e), WatcherOf(e);
    assert s'.pushed == s.pushed && s'.taken == s.taken;
    if s.watchers[v].Pushing? {
      assert s'.watchers[v] == s.watchers[v] || (s.watchers[v].jobs == [] && !s'.watchers[v].Pushing?);
    } else {
      assert !s'.watchers[v].Pushing?;
    }
    hide Next;
  }

  /** An exception or its death takes the watcher's list out of its hands. */
  predicate Drops(s: Hangfire, e: Event) {
    (Pushes(s, e) && e.how.Throws?) || (e.Depart? && e.v < |s.watchers|)
  }

  lemma DroppedList(s: Hangfire, e: Event)
    requires Drops(s, e)
    ensures Next(s, e) == Watch(s, e.v, if e.Depart? then Departed else Resting)
  {
  }

  /** If one hand goes from `p` to `p'` and the books balance, the total stays within `t'`. */
  lemma Total(a: multiset<nat>, a': multiset<nat>, p: multiset<nat>, p': multiset<nat>,
              u: multiset<nat>, u': multiset<nat>, t: multiset<nat>, t': multiset<nat>)
    requires a' + p == a + p' && u' + p' + t == u + p + t' && u + a <= t
    ensures u' + a' <= t' && (u + a == t ==> u' + a' == t')
  {
    forall m: nat ensures (u' + a')[m] <= t'[m] && (u + a == t ==> (u' + a')[m] == t'[m]) {
      assert (a' + p)[m] == (a + p')[m] && (u' + p' + t)[m] == (u + p + t')[m] && (u + a)[m] <= t[m];
      if u + a == t {
        assert (u + a)[m] == t[m];
      }
    }
  }

  lemma Less(a: multiset<nat>, a': multiset<nat>, p: multiset<nat>, u: multiset<nat>, t: multiset<nat>)
    requires a' + p == a + multiset{} && u + a <= t
    ensures u + a' <= t
  {
    forall m: nat ensures (u + a')[m] <= t[m] {
      assert (a' + p)[m] == (a + multiset{})[m] && (u + a)[m] <= t[m];
    }
  }

  /** Nothing is in two places: every mark taken was requeued or is in one watcher's hands, but for
      those dropped at an exception or with the watcher. */
  ghost predicate Settled(s: Hangfire) {
    multiset(s.pushed) + AllPending(s.watchers) == multiset(s.taken)
  }

  lemma NextKeepsPushed(s: Hangfire, e: Event)
    requires PushedOk(s)
    ensures PushedOk(Next(s, e)) && (Settled(s) && !Failing(e) ==> Settled(Next(s, e)))
  {
    var v, s' := WatcherOf(e), Next(s, e);
    if !(0 <= v < |s.watchers|) {
      OthersLeaveTheBooks(s, e);
    } else {
      PendingStep(s, e);
      if Drops(s, e) {
        DroppedList(s, e);
        hide Next, AllPending;
        Less(AllPending(s.watchers), AllPending(s'.watchers), Pending(s.watchers[v]), multiset(s.pushed), multiset(s.taken));
      } else {
        if Takes(s, e) {
          TakeBalances(s, e);
        } else if Pushes(s, e) {
          PushBalances(s, e);
        } else {
          IdleWatcherBalances(s, e);
        }
        hide Next, Pending, AllPending;
        Total(AllPending(s.watchers), AllPending(s'.watchers), Pending(s.watchers[v]), Pending(s'.watchers[v]),
              multiset(s.pushed), multiset(s'.pushed), multiset(s.taken), multiset(s'.taken));
      }
    }
  }

  // ---- Whole runs ----

  lemma {:induction false} ExecInv(s: Hangfire, es: seq<Event>)
    requires Inv(s)
    ensures Inv(Exec(s, es))
    ensures Settled(s) && NoFailure(es) ==> Settled(Exec(s, es))
    decreases |es|
  {
    if es != [] {
      NextKeepsEntries(s, es[0]);
      NextKeepsPushed(s, es[0]);
      hide Next, EntriesOk, TakenOk, PushedOk, Settled;
      ExecInv(Next(s, es[0]), es[1..]);
    }
  }

  lemma {:induction false} CountOnce(ms: seq<nat>, m: nat)
    requires forall i, k :: 0 <= i < k < |ms| ==> ms[i] != ms[k]
    ensures multiset(ms)[m] <= 1
  {
    if ms != [] {
      CountOnce(ms[1..], m);
      assert ms == [ms[0]] + ms[1..];
      if ms[0] == m {
        assert m !in multiset(ms[1..]);
      }
    }
  }

  /** With any number of watchers at once, an entry is taken by at most one of them and requeued at
      most once; in a run without exceptions, all that is taken has been requeued once the watchers rest. */
  lemma {:induction false} TakenOnceRequeuedOnce(timeout: nat, serverOf: seq<nat>, watchers: nat, es: seq<Event>)
    ensures var s := Exec(Init(timeout, serverOf, watchers), es);
      && (forall m :: multiset(s.pushed)[m] <= multiset(s.taken)[m] <= 1)
      && (NoFailure(es) && (forall v :: 0 <= v < |s.watchers| ==> !s.watchers[v].Pushing?) ==>
            multiset(s.pushed) == multiset(s.taken))
  {
    var s0 := Init(timeout, serverOf, watchers);
    InitInv(timeout, serverOf, watchers);
    PendingAtRest(s0.watchers);
    ExecInv(s0, es);
    var s := Exec(s0, es);
    forall m ensures multiset(s.pushed)[m] <= multiset(s.taken)[m] <= 1 {
      CountOnce(s.taken, m);
    }
    if forall v :: 0 <= v < |s.watchers| ==> !s.watchers[v].Pushing? {
      PendingAtRest(s.watchers);
    }
  }

  lemma {:induction false} TakenStays(s: Hangfire, es: seq<Event>, m: nat)
    requires m in s.taken
    ensures m in Exec(s, es).taken
    decreases |es|
  {
    if es != [] {
      assert s.taken <= Next(s, es[0]).taken;
      hide Next;
      TakenStays(Next(s, es[0]), es[1..], m);
    }
  }

  /** Once a watcher has taken an entry, no later step lists it again; a late heartbeat does not. */
  lemma TakenNeverComesBack(s: Hangfire, es: seq<Event>, m: nat, server: nat, j: Job)
    requires Inv(s) && m in s.taken && j in Entries(Exec(s, es), server)
    ensures Entries(Exec(s, es), server)[j].mark != m
  {
    ExecInv(s, es);
    TakenStays(s, es, m);
  }

  // ---- The entry of a job that is being worked on ----

  predicate HasEntry(s: Hangfire, server: nat, j: Job, mark: nat) {
    j in Entries(s, server) && Entries(s, server)[j].mark == mark
  }

  /** The entry made for the handle is in its server's set, or a watcher took it, or another holder of the same
      job cleared or overwrote it. */
  predicate HandleOk(s: Hangfire, w: nat) {
    w < |s.workers| && s.workers[w].Running? ==>
      var wk := s.workers[w];
      HasEntry(s, Home(s, w), wk.job, wk.handle) || wk.handle in s.taken || wk.handle in s.gone
  }

  /** An entry stays under its mark, or its mark is among the taken or the gone. */
  lemma EntryKept(s: Hangfire, e: Event, server: nat, j: Job, mark: nat)
    requires HasEntry(s, server, j, mark) && !e.Take?
    ensures HasEntry(Next(s, e), server, j, mark) || mark in Next(s, e).gone
  {
  }

  lemma EntryTaken(s: Hangfire, e: Event, server: nat, j: Job, mark: nat)
    requires HasEntry(s, server, j, mark) && e.Take?
    ensures HasEntry(Next(s, e), server, j, mark) || mark in Next(s, e).taken
  {
    if Takes(s, e) {
      TakesExactlyTheStale(s, e);
      var s', a := Next(s, e), s.watchers[e.v].servers[0];
      if server == a && Stale(s, Entries(s, a)[j]) {
        var jobs := s'.watchers[e.v].jobs;
        assert OnList(s'.watchers[e.v], j);
        var i :| 0 <= i < |jobs| && jobs[i].0 == j;
        assert Marks(jobs)[i] == mark && s'.taken[|s.taken| + i] == mark;
      }
    }
  }

  lemma BooksGrow(s: Hangfire, e: Event)
    ensures s.gone <= Next(s, e).gone && s.taken <= Next(s, e).taken && Next(s, e).serverOf == s.serverOf
  {
    Frame(s, e);
    hide Next;
  }

  /** A worker comes to run, or changes its job, only by the step that lists the job. */
  lemma RunningBegins(s: Hangfire, e: Event, w: nat)
    requires w < |Next(s, e).workers| && Next(s, e).workers[w].Running?
    ensures var wk' := Next(s, e).workers[w];
      HasEntry(Next(s, e), Home(s, w), wk'.job, wk'.handle)
      || (w < |s.workers| && s.workers[w].Running? && s.workers[w].job == wk'.job && s.workers[w].handle == wk'.handle)
  {
    OnlyTheWorkerMoves(s, e);
    if WorkerOf(e) == w {
      OwnRunning(s, e, w);
    }
    hide Next, HasEntry;
  }

  lemma OwnRunning(s: Hangfire, e: Event, w: nat)
    requires w < |s.workers| && WorkerOf(e) == w && Next(s, e).workers[w].Running?
    ensures var wk' := Next(s, e).workers[w];
      HasEntry(Next(s, e), Home(s, w), wk'.job, wk'.handle)
      || (s.workers[w].Running? && s.workers[w].job == wk'.job && s.workers[w].handle == wk'.handle)
  {
  }

  lemma NextHandleOk(s: Hangfire, e: Event, w: nat)
    requires HandleOk(s, w)
    ensures HandleOk(Next(s, e), w)
  {
    var s' := Next(s, e);
    if w < |s'.workers| && s'.workers[w].Running? {
      BooksGrow(s, e);
      RunningBegins(s, e, w);
      var wk' := s'.workers[w];
      if HasEntry(s, Home(s, w), wk'.job, wk'.handle) {
        if e.Take? {
          EntryTaken(s, e, Home(s, w), wk'.job, wk'.handle);
        } else {
          EntryKept(s, e, Home(s, w), wk'.job, wk'.handle);
        }
      }
      hide Next, HasEntry;
    }
  }

  lemma {:induction false} ExecHandleOk(s: Hangfire, es: seq<Event>, w: nat)
    requires HandleOk(s, w)
    ensures HandleOk(Exec(s, es), w)
    decreases |es|
  {
    if es != [] {
      NextHandleOk(s, es[0], w);
      hide Next, HandleOk;
      ExecHandleOk(Next(s, es[0]), es[1..], w);
    }
  }
}
