/** Which stale entries watchers get back: exactly those of the servers they can still find, each once. */
module Reclaiming {
  import opened Cache
  import opened JobLifecycle
  import opened JobLosses
  import opened StaleEntries

  // ---- A server out of sight ----

  /** The server is not announced again, and its own workers do nothing. */
  predicate Away(s: Hangfire, es: seq<Event>, server: nat) {
    forall i :: 0 <= i < |es| ==> es[i] != Announce(server) && (WorkerOf(es[i]) >= 0 ==> Home(s, WorkerOf(es[i])) != server)
  }

  lemma StaysOutOfSight(s: Hangfire, e: Event, server: nat)
    requires !Watched(s, server) && e != Announce(server)
    ensures !Watched(Next(s, e), server)
  {
    assert StillWatched(s, e, server) ==> Watched(s, server);
    if Watched(Next(s, e), server) {
      WatchedBefore(s, e, server);
    }
    hide Next;
  }

  lemma WatchersSkip(s: Hangfire, e: Event, server: nat)
    requires !Watched(s, server) && 0 <= WatcherOf(e) < |s.watchers|
    ensures Entries(Next(s, e), server) == Entries(s, server)
  {
    if Takes(s, e) {
      TakesExactlyTheStale(s, e);
      assert ToVisit(s.watchers[e.v], s.watchers[e.v].servers[0]);
    }
  }

  lemma OtherWorkersSkip(s: Hangfire, e: Event, server: nat)
    requires 0 <= WorkerOf(e) < |s.workers| && Home(s, WorkerOf(e)) != server
    ensures Entries(Next(s, e), server) == Entries(s, server)
  {
  }

  lemma OutOfSightStep(s: Hangfire, e: Event, server: nat)
    requires !Watched(s, server) && e != Announce(server)
    requires WorkerOf(e) >= 0 ==> Home(s, WorkerOf(e)) != server
    ensures !Watched(Next(s, e), server) && Entries(Next(s, e), server) == Entries(s, server)
    ensures Next(s, e).serverOf == s.serverOf
  {
    StaysOutOfSight(s, e, server);
    Frame(s, e);
    if 0 <= WatcherOf(e) < |s.watchers| {
      WatchersSkip(s, e, server);
    } else if 0 <= WorkerOf(e) < |s.workers| {
      OtherWorkersSkip(s, e, server);
    } else {
      assert Next(s, e).processing == s.processing;
    }
    hide Next, Watched, Entries;
  }

  /** While no watcher finds the server, its set stays as it is. */
  lemma {:induction false} ForgottenServersAreNotReclaimed(s: Hangfire, es: seq<Event>, server: nat)
    requires !Watched(s, server) && Away(s, es, server)
    ensures Entries(Exec(s, es), server) == Entries(s, server)
    decreases |es|
  {
    if es != [] {
      OutOfSightStep(s, es[0], server);
      hide Next, Watched;
      ForgottenServersAreNotReclaimed(Next(s, es[0]), es[1..], server);
    }
  }

  // ---- A server in sight ----

  /** Steps of one watcher, and of the clock. */
  predicate Quiet(es: seq<Event>) {
    forall i :: 0 <= i < |es| ==> es[i].Visit? || es[i].Take? || es[i].Push? || es[i].Tick?
  }

  /** The watcher has moved on; what it could take is as it was. */
  predicate Untouched(s: Hangfire, s': Hangfire, v: nat) {
    && s'.processing == s.processing && s'.servers == s.servers && s'.timeout == s.timeout
    && |s'.watchers| == |s.watchers| && v < |s.watchers|
  }

  /** How far the watcher is from the end of its pass. */
  function Distance(wt: Watcher): nat {
    match wt
    case Visiting(servers) => |servers|
    case Pushing(jobs, servers) => |jobs| + |servers| + 1
    case _ => 0
  }

  /** The watcher's pass comes to the server. */
  lemma {:induction false} ToFront(s: Hangfire, v: nat, server: nat) returns (es: seq<Event>)
    requires v < |s.watchers| && ToVisit(s.watchers[v], server)
    ensures Quiet(es) && Untouched(s, Exec(s, es), v)
    ensures var wt := Exec(s, es).watchers[v]; wt.Visiting? && wt.servers != [] && wt.servers[0] == server
    decreases Distance(s.watchers[v])
  {
    var wt := s.watchers[v];
    if wt.Visiting? && wt.servers[0] == server {
      es := [];
    } else {
      var e := if wt.Pushing? then Push(v, Back) else Take(v, false, []);
      var rest := ToFront(Next(s, e), v, server);
      es := [e] + rest;
      Unroll(s, e, rest);
    }
  }

  /** The watcher's pass comes to its end. */
  lemma {:induction false} ToRest(s: Hangfire, v: nat) returns (es: seq<Event>)
    requires v < |s.watchers| && !s.watchers[v].Departed?
    ensures Quiet(es) && Untouched(s, Exec(s, es), v) && Exec(s, es).watchers[v].Resting?
    decreases Distance(s.watchers[v]), if s.watchers[v].Visiting? then 1 else 0
  {
    var wt := s.watchers[v];
    if wt.Resting? {
      es := [];
    } else {
      var e := if wt.Pushing? then Push(v, Back) else Take(v, false, []);
      var rest := ToRest(Next(s, e), v);
      es := [e] + rest;
      Unroll(s, e, rest);
    }
  }

  /** A watcher that finds the server comes to it. */
  lemma ToServer(s: Hangfire, v: nat, server: nat) returns (es: seq<Event>)
    requires v < |s.watchers| && !s.watchers[v].Departed? && (server in s.servers || ToVisit(s.watchers[v], server))
    ensures Quiet(es) && Untouched(s, Exec(s, es), v)
    ensures var wt := Exec(s, es).watchers[v]; wt.Visiting? && wt.servers != [] && wt.servers[0] == server
  {
    if ToVisit(s.watchers[v], server) {
      es := ToFront(s, v, server);
    } else {
      var rest := ToRest(s, v);
      var s1 := Exec(s, rest);
      es := rest + ([Visit(v, [server])] + []);
      ExecConcat(s, rest, [Visit(v, [server])] + []);
      Unroll(s1, Visit(v, [server]), []);
    }
  }

  /** The keys of a set in some order. */
  lemma {:induction false} Order(js: set<Job>) returns (order: seq<Job>)
    ensures forall j :: j in js <==> j in order
    ensures forall i :: 0 <= i < |order| ==> order[i] in js
    ensures forall i, k :: 0 <= i < k < |order| ==> order[i] != order[k]
    decreases js
  {
    if js == {} {
      order := [];
    } else {
      var j :| j in js;
      var rest := Order(js - {j});
      order := [j] + rest;
    }
  }

  /** The watcher at the server waits until the entry is stale, and takes it. */
  lemma TakeHere(s: Hangfire, v: nat, server: nat, j: Job) returns (es: seq<Event>)
    requires v < |s.watchers| && s.watchers[v].Visiting? && s.watchers[v].servers != [] && s.watchers[v].servers[0] == server
    requires j in Entries(s, server)
    ensures Quiet(es) && Entries(s, server)[j].mark in Exec(s, es).taken
  {
    var entry := Entries(s, server)[j];
    var s1 := Next(s, Tick(entry.fetchedAt + s.timeout + 1));
    var entries := Entries(s1, server);
    var order := Order(set i | i in entries && Stale(s1, entries[i]));
    var e := Take(v, true, order);
    assert Takes(s1, e);
    EntryTaken(s1, e, server, j, entry.mark);
    TakesExactlyTheStale(s1, e);
    es := [Tick(entry.fetchedAt + s.timeout + 1)] + ([e] + []);
    Unroll(s, Tick(entry.fetchedAt + s.timeout + 1), [e] + []);
    Unroll(s1, e, []);
  }

  // ---- Exactly when an entry can be taken ----

  /** The server is not announced anew. */
  predicate Unannounced(es: seq<Event>, server: nat) {
    forall i :: 0 <= i < |es| ==> es[i] != Announce(server)
  }

  /** In some run that does not announce the server, a watcher takes the entry. */
  ghost predicate CanBeTaken(s: Hangfire, server: nat, j: Job)
    requires j in Entries(s, server)
  {
    exists es :: Unannounced(es, server) && Entries(s, server)[j].mark in Exec(s, es).taken
  }

  /** The mark was not taken and is listed at the server, if at all. */
  ghost predicate OnlyAt(s: Hangfire, server: nat, m: nat) {
    && m < s.marks && m !in s.taken
    && (forall a, j :: j in Entries(s, a) && Entries(s, a)[j].mark == m ==> a == server)
  }

  /** The step makes, clears and takes no entry. */
  predicate Plain(s: Hangfire, e: Event) {
    && !(e.Mark? && e.w < |s.workers| && s.workers[e.w].Got? && e.granted)
    && !(e.Clear? && e.w < |s.workers| && s.workers[e.w].Clearing? && e.granted) && !Takes(s, e)
  }

  lemma EntriesAlike(s: Hangfire, e: Event)
    requires Plain(s, e)
    ensures Next(s, e).gone == s.gone && Next(s, e).taken == s.taken && Next(s, e).marks == s.marks
    ensures forall server, j :: j in Entries(Next(s, e), server) ==>
      j in Entries(s, server) && Entries(Next(s, e), server)[j].mark == Entries(s, server)[j].mark
  {
    if e.Renew? {
      RenewAlike(s, e);
    } else {
      PlainSets(s, e);
      hide Next;
    }
  }

  predicate SameSets(s: Hangfire, s': Hangfire) {
    s'.processing == s.processing && s'.gone == s.gone && s'.taken == s.taken && s'.marks == s.marks
  }

  lemma PlainSets(s: Hangfire, e: Event)
    requires Plain(s, e) && !e.Renew?
    ensures SameSets(s, Next(s, e))
  {
    if 0 <= WorkerOf(e) < |s.workers| { PlainWorker(s, e); }
    if 0 <= WatcherOf(e) < |s.watchers| { PlainWatcher(s, e); }
    hide WorkerStep, WatcherStep, Plain;
  }

  lemma PlainWorker(s: Hangfire, e: Event)
    requires Plain(s, e) && !e.Renew? && 0 <= WorkerOf(e) < |s.workers|
    ensures SameSets(s, WorkerStep(s, e, WorkerOf(e)))
  {
    hide RenewOf, Next;
  }

  lemma PlainWatcher(s: Hangfire, e: Event)
    requires Plain(s, e) && 0 <= WatcherOf(e) < |s.watchers|
    ensures SameSets(s, WatcherStep(s, e, WatcherOf(e)))
  {
    hide Next;
  }

  lemma RenewAlike(s: Hangfire, e: Event)
    requires e.Renew?
    ensures Next(s, e).gone == s.gone && Next(s, e).taken == s.taken && Next(s, e).marks == s.marks
    ensures forall server, j :: j in Entries(Next(s, e), server) ==>
      j in Entries(s, server) && Entries(Next(s, e), server)[j].mark == Entries(s, server)[j].mark
  {
  }

  lemma ChangedEntry(s: Hangfire, e: Event)
    requires !Plain(s, e) && !Takes(s, e)
    ensures Next(s, e).taken == s.taken && Next(s, e).marks >= s.marks
    ensures forall server, j :: j in Entries(Next(s, e), server) ==>
      (j in Entries(s, server) && Entries(Next(s, e), server)[j] == Entries(s, server)[j]) || Entries(Next(s, e), server)[j].mark == s.marks
  {
    assert Next(s, e).processing == s.processing[Home(s, e.w) := Entries(Next(s, e), Home(s, e.w))];
  }

  lemma OutOfReachStep(s: Hangfire, e: Event, server: nat, m: nat)
    requires !Watched(s, server) && OnlyAt(s, server, m)
    ensures OnlyAt(Next(s, e), server, m)
  {
    var s' := Next(s, e);
    if Takes(s, e) {
      assert ToVisit(s.watchers[e.v], s.watchers[e.v].servers[0]);
      TakesExactlyTheStale(s, e);
      var jobs := s'.watchers[e.v].jobs;
      forall i | 0 <= i < |jobs| ensures Marks(jobs)[i] != m {
        var (j, entry) := jobs[i];
      }
    } else {
      if Plain(s, e) { EntriesAlike(s, e); } else { ChangedEntry(s, e); }
      hide Next;
    }
  }

  lemma {:induction false} OutOfReach(s: Hangfire, es: seq<Event>, server: nat, m: nat)
    requires !Watched(s, server) && OnlyAt(s, server, m) && Unannounced(es, server)
    ensures OnlyAt(Exec(s, es), server, m)
    decreases |es|
  {
    if es != [] {
      OutOfReachStep(s, es[0], server, m);
      StaysOutOfSight(s, es[0], server);
      hide Next, Watched, OnlyAt;
      OutOfReach(Next(s, es[0]), es[1..], server, m);
    }
  }

  /** An entry can be taken if and only if a live watcher finds its server: in the registry, or ahead in its pass. */
  lemma TakenExactlyWhenWatched(s: Hangfire, server: nat, j: Job)
    requires Inv(s) && j in Entries(s, server)
    ensures CanBeTaken(s, server, j) <==> Watched(s, server)
  {
    if Watched(s, server) {
      var v :| 0 <= v < |s.watchers| && !s.watchers[v].Departed? && (server in s.servers || ToVisit(s.watchers[v], server));
      var way := ToServer(s, v, server);
      var rest := TakeHere(Exec(s, way), v, server, j);
      ExecConcat(s, way, rest);
      assert Unannounced(way + rest, server);
    } else {
      forall es | Unannounced(es, server) ensures Entries(s, server)[j].mark !in Exec(s, es).taken {
        OutOfReach(s, es, server, Entries(s, server)[j].mark);
      }
    }
  }

  // ---- Taken once, and only once ----

  /** Marks that were cleared or overwritten are listed nowhere and were not taken. */
  ghost predicate GoneOk(s: Hangfire) {
    && (forall m :: m in s.gone ==> m < s.marks && m !in s.taken)
    && (forall server, j :: j in Entries(s, server) ==> Entries(s, server)[j].mark !in s.gone)
  }

  /** The entry of `j` leaves the set, or gives way to a new one. */
  lemma GoneStep(s: Hangfire, s': Hangfire, server: nat, j: Job, entries: map<Job, Entry>)
    requires EntriesOk(s) && GoneOk(s) && s'.processing == s.processing[server := entries] && s'.taken == s.taken
    requires s'.gone == s.gone + MarkOf(Entries(s, server), j) && s'.marks >= s.marks
    requires entries - {j} == Entries(s, server) - {j}
    requires j in entries ==> entries[j].mark == s.marks < s'.marks
    ensures GoneOk(s')
  {
    forall a, i | i in Entries(s', a) ensures Entries(s', a)[i].mark !in s'.gone {
      if a != server || i != j {
        assert i in Entries(s, a) && Entries(s', a)[i] == Entries(s, a)[i] by {
          if a == server {
            assert i in entries - {j} && (entries - {j})[i] == entries[i];
          }
        }
        assert Entries(s, a)[i].mark !in s.gone;
      }
    }
  }

  lemma GoneStays(s: Hangfire, s': Hangfire)
    requires GoneOk(s) && s'.gone == s.gone && s'.marks >= s.marks
    requires forall m :: m in s.gone ==> m !in s'.taken
    requires forall server, j :: j in Entries(s', server) ==>
      j in Entries(s, server) && Entries(s', server)[j].mark == Entries(s, server)[j].mark
    ensures GoneOk(s')
  {
  }

  lemma TakeKeepsGone(s: Hangfire, e: Event)
    requires GoneOk(s) && Takes(s, e)
    ensures GoneOk(Next(s, e))
  {
    TakesExactlyTheStale(s, e);
    var s' := Next(s, e);
    var jobs := s'.watchers[e.v].jobs;
    forall m | m in s.gone ensures m !in s'.taken {
      forall i | 0 <= i < |jobs| ensures Marks(jobs)[i] != m {
        var (j, entry) := jobs[i];
      }
    }
    GoneStays(s, s');
  }

  lemma NextKeepsGone(s: Hangfire, e: Event)
    requires EntriesOk(s) && TakenOk(s) && GoneOk(s)
    ensures GoneOk(Next(s, e))
  {
    var s' := Next(s, e);
    if e.Mark? && e.w < |s.workers| && s.workers[e.w].Got? && e.granted {
      var wk, server := s.workers[e.w], Home(s, e.w);
      GoneStep(s, s', server, wk.job, Entries(s, server)[wk.job := Entry(wk.queue, s.now, s.marks)]);
    } else if e.Clear? && e.w < |s.workers| && s.workers[e.w].Clearing? && e.granted {
      GoneStep(s, s', Home(s, e.w), s.workers[e.w].job, Entries(s, Home(s, e.w)) - {s.workers[e.w].job});
    } else if Takes(s, e) {
      TakeKeepsGone(s, e);
    } else {
      EntriesAlike(s, e);
      GoneStays(s, s');
    }
  }

  lemma {:induction false} ExecGone(s: Hangfire, es: seq<Event>)
    requires Inv(s) && GoneOk(s)
    ensures GoneOk(Exec(s, es))
    decreases |es|
  {
    if es != [] {
      NextKeepsEntries(s, es[0]);
      NextKeepsPushed(s, es[0]);
      NextKeepsGone(s, es[0]);
      hide Next, EntriesOk, TakenOk, PushedOk, GoneOk;
      ExecGone(Next(s, es[0]), es[1..]);
    }
  }

  /** A heartbeat moves the time of the entry. */
  predicate Renews(s: Hangfire, e: Event, server: nat, j: Job) {
    e.Renew? && e.granted && Lands(s, e.w, e.i) && Home(s, e.w) == server && s.flights[e.i].job == j
  }

  predicate Unrenewed(s: Hangfire, es: seq<Event>, server: nat, j: Job)
    decreases |es|
  {
    es == [] || (!Renews(s, es[0], server, j) && Unrenewed(Next(s, es[0]), es[1..], server, j))
  }

  lemma StampStays(s: Hangfire, e: Event, server: nat, j: Job, mark: nat)
    requires HasEntry(s, server, j, mark) && mark < s.marks && !Renews(s, e, server, j)
    ensures HasEntry(Next(s, e), server, j, mark) ==> Entries(Next(s, e), server)[j] == Entries(s, server)[j]
    ensures Next(s, e).timeout == s.timeout
  {
  }

  lemma {:induction false} EntryAlong(s: Hangfire, es: seq<Event>, server: nat, j: Job)
    requires Inv(s) && j in Entries(s, server) && Unrenewed(s, es, server, j)
    ensures var s', entry := Exec(s, es), Entries(s, server)[j];
      || (j in Entries(s', server) && Entries(s', server)[j] == entry)
      || entry.mark in s'.taken || entry.mark in s'.gone
    decreases |es|
  {
    if es != [] {
      var s', entry := Next(s, es[0]), Entries(s, server)[j];
      StampStays(s, es[0], server, j, entry.mark);
      if es[0].Take? {
        EntryTaken(s, es[0], server, j, entry.mark);
      } else {
        EntryKept(s, es[0], server, j, entry.mark);
      }
      NextKeepsEntries(s, es[0]);
      NextKeepsPushed(s, es[0]);
      hide Next, Renews, EntriesOk, TakenOk, PushedOk;
      if HasEntry(s', server, j, entry.mark) {
        EntryAlong(s', es[1..], server, j);
      } else if entry.mark in s'.taken {
        TakenStays(s', es[1..], entry.mark);
      } else {
        GoneGrows(s', es[1..]);
      }
    }
  }

  lemma {:induction false} GoneGrows(s: Hangfire, es: seq<Event>)
    ensures s.gone <= Exec(s, es).gone
    decreases |es|
  {
    if es != [] {
      BooksGrow(s, es[0]);
      hide Next;
      GoneGrows(Next(s, es[0]), es[1..]);
    }
  }

  /** A watcher gets the lock of the server's set after the entry went stale: then, for good, the entry has been
      taken by exactly one watcher, or a holder of the job had cleared or overwritten it; never both. */
  lemma {:induction false} TakenExactlyOnce(s: Hangfire, es: seq<Event>, e: Event, rest: seq<Event>, server: nat, j: Job)
    requires Inv(s) && GoneOk(s) && j in Entries(s, server) && Unrenewed(s, es, server, j)
    requires var t := Exec(s, es); Takes(t, e) && t.watchers[e.v].servers[0] == server && Stale(t, Entries(s, server)[j])
    ensures var t, m := Exec(s, es + ([e] + rest)), Entries(s, server)[j].mark;
      (m in t.gone && m !in t.taken) || (m !in t.gone && multiset(t.taken)[m] == 1)
  {
    var t, m := Exec(s, es), Entries(s, server)[j].mark;
    var t1 := Next(t, e);
    EntryAlong(s, es, server, j);
    BooksGrow(t, e);
    if HasEntry(t, server, j, m) {
      TakesExactlyTheStale(t, e);
      EntryTaken(t, e, server, j, m);
    }
    ExecConcat(s, es, [e] + rest);
    Unroll(t, e, rest);
    GoneGrows(t1, rest);
    var t2 := Exec(t1, rest);
    if m in t1.taken {
      TakenStays(t1, rest, m);
    }
    ExecInv(s, es + ([e] + rest));
    ExecGone(s, es + ([e] + rest));
    CountOnce(t2.taken, m);
    hide Next, Exec;
  }

  // ---- The job of a worker that dies ----

  /** A worker that dies at its job leaves the job's entry in its server's set, in every run, unless a watcher had taken
      it or another holder of the same job cleared or overwrote it; and the watchers can still get it back
      exactly if a live one finds the server. */
  lemma {:induction false} DeathLeavesTheJobListed(timeout: nat, serverOf: seq<nat>, watchers: nat, es: seq<Event>, w: nat)
    ensures var s := Exec(Init(timeout, serverOf, watchers), es);
      w < |s.workers| && s.workers[w].Running? ==>
        var wk, server, s' := s.workers[w], Home(s, w), Next(s, Die(w));
        || wk.handle in s'.taken || wk.handle in s'.gone
        || (HasEntry(s', server, wk.job, wk.handle) && (CanBeTaken(s', server, wk.job) <==> Watched(s', server)))
  {
    var s0 := Init(timeout, serverOf, watchers);
    ExecHandleOk(s0, es, w);
    InitInv(timeout, serverOf, watchers);
    ExecInv(s0, es);
    var s := Exec(s0, es);
    if w < |s.workers| && s.workers[w].Running? {
      var wk, server, s' := s.workers[w], Home(s, w), Next(s, Die(w));
      assert s'.processing == s.processing && s'.taken == s.taken && s'.gone == s.gone;
      if HasEntry(s, server, wk.job, wk.handle) {
        NextKeepsEntries(s, Die(w));
        NextKeepsPushed(s, Die(w));
        TakenExactlyWhenWatched(s', server, wk.job);
      }
    }
  }
}
