/** How long a row stays blocked when scans change their minds (internal/proxy/proxy.go,
    internal/db/package_store.go, internal/eviction/eviction.go): exactly which steps end it, and exactly in
    which states none of them can come. */
module BlockedRows {
  import opened Foundation
  import opened Keys
  import opened ObjectStore
  import opened PackageStore
  import opened Upstream
  import opened CacheSystem
  import opened EvictionRuns
  import opened Flights
  import opened Progress
  import opened Traces
  import opened Transparency
  import opened SerialRuns
  import Orphans

  predicate BlockedRow(t: Table, k: Triple) { k in t.rows && t.rows[k].status.Blocked? }

  /** It is blocked, and the row that it was. */
  predicate SameBlock(t: Table, t': Table, k: Triple) {
    BlockedRow(t, k) && BlockedRow(t', k) && t'.rows[k].id == t.rows[k].id
  }

  /** An upsert of this key, or the evictor's delete of this row. */
  predicate Unblocks(s: State, a: Action, k: Triple)
    requires k in s.table.rows
  {
    match StatementOf(s, a)
    case Some(Upsert(l, _, _)) => l == k
    case Some(DeleteId(id)) => id == s.table.rows[k].id
    case _ => false
  }

  lemma StepBlocked(s: State, a: Action, k: Triple)
    requires Enabled(s, a) && BlockedRow(s.table, k)
    ensures SameBlock(s.table, Apply(s, a).table, k) <==> !Unblocks(s, a, k)
  {
    TableChangesByStatements(s, a);
  }

  ghost predicate BlockedUpTo(s: State, actions: seq<Action>, U: iset<Package>, k: Triple, n: nat)
    requires IsRun(s, actions, U) && n <= |actions|
  {
    forall i: nat :: i <= n ==> SameBlock(s.table, StateAt(s, actions, i, U).table, k)
  }

  ghost predicate UnblockedAt(s: State, actions: seq<Action>, U: iset<Package>, k: Triple, i: nat)
    requires IsRun(s, actions, U)
  {
    i < |actions| && var t := StateAt(s, actions, i, U); k in t.table.rows && Unblocks(t, actions[i], k)
  }

  /** Over all runs, whatever the scans say: a blocked row stays blocked all the way if and only if no upsert
      of its key and no delete of its id is executed. */
  lemma {:induction false} StaysBlockedIff(s: State, actions: seq<Action>, U: iset<Package>, k: Triple, n: nat)
    requires IsRun(s, actions, U) && BlockedRow(s.table, k) && n <= |actions|
    ensures BlockedUpTo(s, actions, U, k, n) <==> forall i: nat :: i < n ==> !UnblockedAt(s, actions, U, k, i)
  {
    if n > 0 {
      var m := n - 1;
      StaysBlockedIff(s, actions, U, k, m);
      var t := StateAt(s, actions, m, U);
      StateAtStep(s, actions, m, U);
      if BlockedUpTo(s, actions, U, k, m) {
        assert SameBlock(s.table, t.table, k);
        StepBlocked(t, actions[m], k);
        assert UnblockedAt(s, actions, U, k, m) <==> Unblocks(t, actions[m], k);
      }
      assert BlockedUpTo(s, actions, U, k, n) ==> BlockedUpTo(s, actions, U, k, m);
    }
  }

  // ---- When nothing is on its way to unblock it ----------------------------------------------------

  predicate WillUpsert(t: Task, k: Triple) { (t.SetThenUpsert? || t.UpsertThenEvent?) && t.key == k }

  /** No goroutine has an upsert of k to execute, no request for k is between its scan and its Put, and the
      evictor has not listed the row. */
  ghost predicate Settled(s: State, k: Triple)
    requires k in s.table.rows
  {
    && (forall id :: id in s.tasks ==> !WillUpsert(s.tasks[id], k))
    && (forall rid :: MayStore(s, rid) ==> s.requests[rid].pkg.Id() != k)
    && (s.evictor.Evicting? ==> forall r :: r in s.evictor.queue ==> r.id != s.table.rows[k].id)
  }

  /** The scan lets a request for k pass. */
  ghost predicate PassesFor(s: State, a: Action, k: Triple) {
    a.Scanned? && !a.outcome.Block? && a.rid in s.requests && s.requests[a.rid].pkg.Id() == k
  }

  ghost predicate NobodyPasses(s: State, actions: seq<Action>, U: iset<Package>, k: Triple)
    requires IsRun(s, actions, U)
    decreases |actions|
  {
    actions == [] || (!PassesFor(s, actions[0], k) && NobodyPasses(Apply(s, actions[0]), actions[1..], U, k))
  }

  lemma StepKeepsRequestsSettled(s: State, a: Action, k: Triple)
    requires FlightsFit(s) && Enabled(s, a) && !PassesFor(s, a, k)
    requires forall rid :: MayStore(s, rid) ==> s.requests[rid].pkg.Id() != k
    ensures forall rid :: MayStore(Apply(s, a), rid) ==> Apply(s, a).requests[rid].pkg.Id() != k
  {
    var s' := Apply(s, a);
    forall rid | MayStore(s', rid) ensures s'.requests[rid].pkg.Id() != k {
      Orphans.PackagesStay(s, a);
      if Passes(a, rid) {
        assert s'.requests[rid].pkg == s.requests[rid].pkg;
      } else {
        NobodySlipsIn(s, a, rid);
      }
    }
  }

  lemma TaskKeepsTasksSettled(s: State, id: nat, ok: bool, k: Triple)
    requires id in s.tasks && forall i :: i in s.tasks ==> !WillUpsert(s.tasks[i], k)
    ensures forall i :: i in AfterTask(s, id, ok).tasks ==> !WillUpsert(AfterTask(s, id, ok).tasks[i], k)
  {
  }

  lemma PutKeepsTasksSettled(s: State, a: Action, k: Triple)
    requires Enabled(s, a) && OnAnswer(a) && forall i :: i in s.tasks ==> !WillUpsert(s.tasks[i], k)
    requires forall rid :: MayStore(s, rid) ==> s.requests[rid].pkg.Id() != k
    ensures forall i :: i in Apply(s, a).tasks ==> !WillUpsert(Apply(s, a).tasks[i], k)
  {
    if a.Put? { assert MayStore(s, a.rid); }
  }

  lemma LookupKeepsTasksSettled(s: State, a: Action, k: Triple)
    requires Enabled(s, a) && OnLookup(a) && forall i :: i in s.tasks ==> !WillUpsert(s.tasks[i], k)
    ensures forall i :: i in Apply(s, a).tasks ==> !WillUpsert(Apply(s, a).tasks[i], k)
  {
  }

  lemma StepKeepsTasksSettled(s: State, a: Action, k: Triple)
    requires Enabled(s, a) && forall i :: i in s.tasks ==> !WillUpsert(s.tasks[i], k)
    requires forall rid :: MayStore(s, rid) ==> s.requests[rid].pkg.Id() != k
    ensures forall i :: i in Apply(s, a).tasks ==> !WillUpsert(Apply(s, a).tasks[i], k)
  {
    if OnLookup(a) {
      LookupKeepsTasksSettled(s, a, k);
    } else if a.UpstreamGet? {
      UpstreamFrame(s, a);
    } else if OnFlight(a) {
      FlightFrame(s, a);
    } else if OnAnswer(a) {
      PutKeepsTasksSettled(s, a, k);
    } else if a.TaskStep? {
      TaskKeepsTasksSettled(s, a.task, a.ok, k);
    } else if OnTable(a) {
      EvictFrame(s, a.ok);
    } else {
      EnvironmentFrame(s, a);
    }
  }

  /** What the evictor lists is cached, so it is not the blocked row. */
  lemma StepKeepsQueueSettled(s: State, a: Action, k: Triple)
    requires Enabled(s, a) && ValidTable(s.table) && BlockedRow(s.table, k)
    requires s.evictor.Evicting? ==> forall r :: r in s.evictor.queue ==> r.id != s.table.rows[k].id
    ensures var e := Apply(s, a).evictor; e.Evicting? ==> forall r :: r in e.queue ==> r.id != s.table.rows[k].id
  {
    if OnTable(a) {
      EvictorMoves(s, a);
    } else if a.EvictList? {
      forall r | r in a.listed ensures r.id != s.table.rows[k].id {
        assert r.key in s.table.rows && s.table.rows[r.key] == r && r.status.Cached?;
      }
    } else {
      TableStays(s, a);
    }
  }

  lemma SettledIsNotUnblocked(s: State, a: Action, k: Triple)
    requires Enabled(s, a) && BlockedRow(s.table, k) && Settled(s, k)
    ensures !Unblocks(s, a, k)
  {
    if a.TaskStep? {
      assert !WillUpsert(s.tasks[a.task], k);
    } else if a.EvictTable? {
      assert s.evictor.queue[0] in s.evictor.queue;
    }
  }

  lemma StepKeepsSettled(s: State, a: Action, k: Triple)
    requires FlightsFit(s) && EvictionOk(s) && Enabled(s, a) && !PassesFor(s, a, k) && BlockedRow(s.table, k) && Settled(s, k)
    ensures SameBlock(s.table, Apply(s, a).table, k) && Settled(Apply(s, a), k)
  {
    SettledIsNotUnblocked(s, a, k);
    StepBlocked(s, a, k);
    StepKeepsTasksSettled(s, a, k);
    StepKeepsRequestsSettled(s, a, k);
    StepKeepsQueueSettled(s, a, k);
  }

  lemma {:induction false} SettledStays(s: State, actions: seq<Action>, U: iset<Package>, k: Triple)
    requires FlightsFit(s) && EvictionOk(s) && BlockedRow(s.table, k) && Settled(s, k)
    requires IsRun(s, actions, U) && NobodyPasses(s, actions, U, k)
    ensures SameBlock(s.table, Exec(s, actions, U).table, k)
    decreases |actions|
  {
    if actions != [] {
      StepKeepsSettled(s, actions[0], k);
      StepKeepsFit(s, actions[0]);
      StepKeepsEviction(s, actions[0]);
      SettledStays(Apply(s, actions[0]), actions[1..], U, k);
    }
  }

  // ---- When something is, it can come through ------------------------------------------------------

  /** A run in which no request for k passes the scan, and after which the row is no longer the blocked row
      that it was. */
  ghost predicate EndsBlock(s: State, actions: seq<Action>, U: iset<Package>, k: Triple) {
    && IsRun(s, actions, U) && NobodyPasses(s, actions, U, k) && !SameBlock(s.table, Exec(s, actions, U).table, k)
  }

  lemma {:induction false} NoScanNobodyPasses(s: State, actions: seq<Action>, U: iset<Package>, k: Triple)
    requires IsRun(s, actions, U) && forall a :: a in actions ==> !a.Scanned?
    ensures NobodyPasses(s, actions, U, k)
    decreases |actions|
  {
    if actions != [] {
      assert actions[0] in actions && forall a :: a in actions[1..] ==> a in actions;
      NoScanNobodyPasses(Apply(s, actions[0]), actions[1..], U, k);
    }
  }

  ghost predicate QuietRun(s: State, s': State, actions: seq<Action>, U: iset<Package>) {
    IsRun(s, actions, U) && Exec(s, actions, U) == s' && forall a :: a in actions ==> !a.Scanned?
  }

  /** Without a scan. */
  ghost predicate Quietly(s: State, s': State, U: iset<Package>) { exists actions :: QuietRun(s, s', actions, U) }

  lemma QuietStep(s0: State, s: State, a: Action, U: iset<Package>) returns (s': State)
    requires Quietly(s0, s, U) && Enabled(s, a) && !a.Scanned? && !a.Arrive?
    ensures s' == Apply(s, a) && Quietly(s0, s', U)
  {
    s' := Apply(s, a);
    var actions :| QuietRun(s0, s, actions, U);
    RunExtends(s0, actions, a, U);
    assert QuietRun(s0, s', actions + [a], U);
  }

  lemma ReachedQuietly(s: State, t: State, U: iset<Package>)
    requires CanReach(s, t, U)
    ensures Quietly(s, t, U)
  {
    var actions :| Progress.Leads(s, t, actions, U);
    assert QuietRun(s, t, actions, U);
  }

  lemma ReachedUnblocks(s: State, t: State, U: iset<Package>, k: Triple) returns (actions: seq<Action>)
    requires Quietly(s, t, U) && !SameBlock(s.table, t.table, k)
    ensures EndsBlock(s, actions, U, k)
  {
    actions :| QuietRun(s, t, actions, U);
    NoScanNobodyPasses(s, actions, U, k);
  }

  /** A goroutine comes to its upsert. */
  lemma TaskUnblocks(s0: State, s: State, id: nat, k: Triple, U: iset<Package>) returns (s': State)
    requires CanReach(s0, s, U) && id in s.tasks && WillUpsert(s.tasks[id], k)
    ensures CanReach(s0, s', U) && k in s'.table.rows && s'.table.rows[k].status.Cached?
  {
    s' := s;
    if s.tasks[id].SetThenUpsert? {
      s' := Further(s0, s, TaskStep(id, true), U);
    }
    s' := Further(s0, s', TaskStep(id, true), U);
  }

  lemma RequestUnblocks(s: State, rid: nat, k: Triple, U: iset<Package>) returns (s': State)
    requires FlightsFit(s) && MayStore(s, rid) && s.requests[rid].pkg.Id() == k
    ensures CanReach(s, s', U) && k in s'.table.rows && s'.table.rows[k].status.Cached?
  {
    StaysHere(s, U);
    var t := ReachesStoring(s, s, rid, U);
    var u := Further(s, t, Put(rid, IfAbsent), U);
    assert t.nextTask in u.tasks && WillUpsert(u.tasks[t.nextTask], k);
    s' := TaskUnblocks(s, u, t.nextTask, k, U);
  }

  lemma NextStage(s0: State, s: State, ok: bool, U: iset<Package>) returns (s': State)
    requires Quietly(s0, s, U) && s.evictor.Evicting? && s.evictor.queue != [] && !s.evictor.stage.FromTable?
    ensures Quietly(s0, s', U) && s'.table == s.table
    ensures ok ==> s'.evictor.Evicting? && s'.evictor.queue == s.evictor.queue
                   && s'.evictor.stage == if s.evictor.stage.FromStorage? then FromRedis else FromTable
    ensures !ok && s.evictor.stage.FromStorage? ==> s'.evictor == NextRow(s)
  {
    if s.evictor.stage.FromStorage? {
      s' := QuietStep(s0, s, EvictStorage(ok), U);
    } else {
      s' := QuietStep(s0, s, EvictRedis(ok), U);
    }
  }

  /** The evictor comes to delete the first row of its queue. */
  lemma DeletesFirst(s0: State, s: State, U: iset<Package>) returns (s': State)
    requires Quietly(s0, s, U) && s.evictor.Evicting? && s.evictor.queue != []
    ensures Quietly(s0, s', U) && s'.table == Delete(s.table, s.evictor.queue[0].id)
  {
    s' := s;
    if s'.evictor.stage.FromStorage? { s' := NextStage(s0, s', true, U); }
    if s'.evictor.stage.FromRedis? { s' := NextStage(s0, s', true, U); }
    s' := QuietStep(s0, s', EvictTable(true), U);
  }

  /** or to leave it alone and go on to the next. */
  lemma SkipsFirst(s0: State, s: State, U: iset<Package>) returns (s': State)
    requires Quietly(s0, s, U) && s.evictor.Evicting? && |s.evictor.queue| > 1
    ensures Quietly(s0, s', U) && s'.table == s.table
    ensures s'.evictor.Evicting? && s'.evictor.queue == s.evictor.queue[1..]
  {
    s' := s;
    if s'.evictor.stage.FromStorage? {
      s' := NextStage(s0, s', false, U);
    } else {
      if s'.evictor.stage.FromRedis? { s' := NextStage(s0, s', true, U); }
      s' := QuietStep(s0, s', EvictTable(false), U);
    }
  }

  lemma {:induction false} EvictorUnblocks(s0: State, s: State, i: nat, k: Triple, U: iset<Package>) returns (s': State)
    requires Quietly(s0, s, U) && k in s.table.rows && s.evictor.Evicting? && i < |s.evictor.queue|
    requires s.evictor.queue[i].id == s.table.rows[k].id
    ensures Quietly(s0, s', U) && k !in s'.table.rows
    decreases i
  {
    if i == 0 {
      s' := DeletesFirst(s0, s, U);
    } else {
      var t := SkipsFirst(s0, s, U);
      s' := EvictorUnblocks(s0, t, i - 1, k, U);
    }
  }

  lemma UnsettledUnblocks(s: State, U: iset<Package>, k: Triple) returns (actions: seq<Action>)
    requires FlightsFit(s) && BlockedRow(s.table, k) && !Settled(s, k)
    ensures EndsBlock(s, actions, U, k)
  {
    StaysHere(s, U);
    ReachedQuietly(s, s, U);
    var t;
    if id :| id in s.tasks && WillUpsert(s.tasks[id], k) {
      t := TaskUnblocks(s, s, id, k, U);
      ReachedQuietly(s, t, U);
    } else if rid :| MayStore(s, rid) && s.requests[rid].pkg.Id() == k {
      t := RequestUnblocks(s, rid, k, U);
      ReachedQuietly(s, t, U);
    } else {
      var r :| r in s.evictor.queue && r.id == s.table.rows[k].id;
      var i: nat :| i < |s.evictor.queue| && s.evictor.queue[i] == r;
      t := EvictorUnblocks(s, s, i, k, U);
    }
    actions := ReachedUnblocks(s, t, U, k);
  }

  /** In every reachable state: the blocked row stays what it is over all runs in which no further request for
      it passes the scan, if and only if no goroutine has an upsert of it to execute, no request for it is
      between its scan and its Put, and the evictor has not listed the row. */
  lemma SettledIff(cfg: RetryConfig, ttl: int, start: int, s: State, U: iset<Package>, k: Triple)
    requires Reachable(Empty(cfg, ttl, start), s, U) && BlockedRow(s.table, k)
    ensures (forall actions :: !EndsBlock(s, actions, U, k)) <==> Settled(s, k)
  {
    ReachableIsFit(cfg, ttl, start, s, U);
    if Settled(s, k) {
      forall actions ensures !EndsBlock(s, actions, U, k) {
        if IsRun(s, actions, U) && NobodyPasses(s, actions, U, k) { SettledStays(s, actions, U, k); }
      }
    } else {
      var actions := UnsettledUnblocks(s, U, k);
    }
  }

  lemma ReachableIsFit(cfg: RetryConfig, ttl: int, start: int, s: State, U: iset<Package>)
    requires Reachable(Empty(cfg, ttl, start), s, U)
    ensures FlightsFit(s) && EvictionOk(s)
  {
    var s0 := Empty(cfg, ttl, start);
    var actions :| IsRun(s0, actions, U) && Exec(s0, actions, U) == s;
    EmptyFits(cfg, ttl, start);
    RunKeepsFit(s0, actions, U);
    RunKeepsEviction(s0, actions, U);
  }

  // ---- A blocked row that is served ----------------------------------------------------------------

  /** From every state with a Redis entry and its object: when the lookups of one request fail and its scan
      blocks the package, the row is blocked, and the next request is still served from Redis. */
  lemma BlockedIsServed(s0: State, s: State, first: nat, second: nat, p: Package, U: iset<Package>) returns (s': State)
    requires Reachable(s0, s, U) && p in U && first !in s.requests && second !in s.requests && first != second
    requires first !in s.flights.threads && s.nextTask !in s.tasks
    requires RedisKey(p.Id()) in s.redis && s.redis[RedisKey(p.Id())] in s.store
    ensures Reachable(s0, s', U) && BlockedRow(s'.table, p.Id())
    ensures var b := s.store[s.redis[RedisKey(p.Id())]];
            s'.deliveries == s.deliveries + [Delivery(p, Hit, b, true, |s.gets|)]
  {
    var c := s.redis[RedisKey(p.Id())];
    s' := Orphans.ReachesScan(s0, s, first, p, U);
    s' := BlockRuns(s0, s', first, p, U);
    s' := MarkRuns(s0, s', s.nextTask, true, U);
    s' := RedisGetRuns(s0, s', second, p, true, U);
    s' := ReadForRedisRuns(s0, s', second, p, c, true, U);
  }

  /** And such a state is reachable. */
  lemma BlockedIsServedFromEmpty(cfg: RetryConfig, ttl: int, start: int, p: Package, b: Bytes, U: iset<Package>) returns (s: State)
    requires cfg.maxAttempts >= 1 && p in U
    ensures Reachable(Empty(cfg, ttl, start), s, U) && BlockedRow(s.table, p.Id())
    ensures |s.deliveries| > 0 && var d := s.deliveries[|s.deliveries| - 1]; d.pkg == p && d.kind == Hit && d.sent == b
  {
    s := Orphans.FirstIndexed(cfg, ttl, start, p, b, U);
    s := BlockedIsServed(Empty(cfg, ttl, start), s, 1, 2, p, U);
  }
}
