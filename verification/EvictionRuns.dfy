/** The eviction worker interleaved with everything else: which rows it can delete, and what happens to the
    access times of the others (internal/eviction/eviction.go, internal/db/package_store.go). */
module EvictionRuns {
  import opened Foundation
  import opened Keys
  import opened PackageStore
  import opened Upstream
  import opened CacheSystem
  import opened Provenance
  import Eviction

  /** The queue holds rows as they were listed, and a row that is older than the listing was in it. */
  ghost predicate QueueOk(t: Table, e: Evictor)
    requires e.Evicting?
  {
    && ValidTable(e.listing)
    && e.listing.nextId <= t.nextId
    && (forall r :: r in e.queue ==> r.key in e.listing.rows && e.listing.rows[r.key] == r && Expired(r, e.cutoff))
    && (forall k :: k in t.rows && t.rows[k].id < e.listing.nextId ==>
          k in e.listing.rows && e.listing.rows[k].id == t.rows[k].id)
  }

  ghost predicate EvictionOk(s: State) {
    && ValidTable(s.table)
    && (forall k :: k in s.table.rows ==> s.table.rows[k].LastAccess() <= s.now)
    && (s.evictor.Evicting? ==> QueueOk(s.table, s.evictor) && s.evictor.cutoff <= s.now - s.ttl)
  }

  lemma StatementKeepsQueue(t: Table, e: Evictor, st: Statement, now: int)
    requires ValidTable(t) && e.Evicting? && QueueOk(t, e)
    ensures QueueOk(Execute(t, st, now), e)
  {
  }

  lemma StatementKeepsEviction(s: State, st: Statement)
    requires EvictionOk(s)
    ensures EvictionOk(s.(table := Execute(s.table, st, s.now)))
  {
    StatementKeepsValid(s.table, st, s.now);
    var t := Execute(s.table, st, s.now);
    forall k | k in t.rows ensures t.rows[k].LastAccess() <= s.now { RowsKeepIdentity(s.table, st, s.now, k); }
    if s.evictor.Evicting? { StatementKeepsQueue(s.table, s.evictor, st, s.now); }
  }

  /** The statement that an action executes on the packages table, if it executes one. */
  function StatementOf(s: State, a: Action): Option<Statement> {
    match a
    case TaskStep(id, true) =>
      if id !in s.tasks then None else (
        match s.tasks[id]
        case TouchThenEvent(key, _) => Some(TouchHit(key))
        case UpsertThenEvent(key, checksum, size) => Some(Upsert(key, checksum, size))
        case MarkBlocked(key) => Some(Block(key))
        case _ => None)
    case EvictTable(true) =>
      if s.evictor.Evicting? && s.evictor.queue != [] then Some(DeleteId(s.evictor.queue[0].id)) else None
    case _ => None
  }

  lemma TableChangesByStatements(s: State, a: Action)
    requires Enabled(s, a)
    ensures Apply(s, a).table == match StatementOf(s, a)
                                 case Some(st) => Execute(s.table, st, s.now)
                                 case None => s.table
  {
    if OnTable(a) { TableChanges(s, a); } else { TableStays(s, a); }
  }

  lemma TableChanges(s: State, a: Action)
    requires Enabled(s, a) && OnTable(a)
    ensures Apply(s, a).table == match StatementOf(s, a)
                                 case Some(st) => Execute(s.table, st, s.now)
                                 case None => s.table
  {
  }

  ghost predicate TableUntouched(s: State, a: Action)
    requires Enabled(s, a)
  {
    var s' := Apply(s, a);
    && s'.table == s.table && s'.ttl == s.ttl && s.now <= s'.now && (a.Tick? || s'.now == s.now)
    && (a.EvictList? || s'.evictor == s.evictor)
  }

  lemma LookupsLeaveTable(s: State, a: Action)
    requires Enabled(s, a) && OnLookup(a)
    ensures TableUntouched(s, a)
  {
  }

  lemma FlightsLeaveTable(s: State, a: Action)
    requires Enabled(s, a) && OnFlight(a)
    ensures TableUntouched(s, a)
  {
  }

  lemma TableStays(s: State, a: Action)
    requires Enabled(s, a) && !OnTable(a)
    ensures TableUntouched(s, a)
  {
    if OnLookup(a) {
      LookupsLeaveTable(s, a);
    } else if OnFlight(a) {
      FlightsLeaveTable(s, a);
    } else if OnAnswer(a) {
      AnswersLeaveTable(s, a);
    } else {
      EnvironmentLeavesTable(s, a);
    }
  }

  lemma AnswersLeaveTable(s: State, a: Action)
    requires Enabled(s, a) && OnAnswer(a)
    ensures TableUntouched(s, a)
  {
  }

  lemma EnvironmentLeavesTable(s: State, a: Action)
    requires Enabled(s, a) && !OnLookup(a) && !OnFlight(a) && !OnAnswer(a) && !OnTable(a)
    ensures TableUntouched(s, a)
  {
  }

  lemma EvictorMoves(s: State, a: Action)
    requires Enabled(s, a) && OnTable(a)
    ensures var e, e' := s.evictor, Apply(s, a).evictor;
            && Apply(s, a).now == s.now && Apply(s, a).ttl == s.ttl
            && (e'.Evicting? ==> e.Evicting? && e'.listing == e.listing && e'.cutoff == e.cutoff
                                 && forall r :: r in e'.queue ==> r in e.queue)
  {
    if a.TaskStep? { TaskFrame(s, a.task, a.ok); } else { EvictFrame(s, a.ok); }
  }

  lemma StepKeepsEviction(s: State, a: Action)
    requires EvictionOk(s) && Enabled(s, a)
    ensures EvictionOk(Apply(s, a))
  {
    TableChangesByStatements(s, a);
    var st := StatementOf(s, a);
    if st.Some? { StatementKeepsEviction(s, st.value); }
    if OnTable(a) { EvictorMoves(s, a); } else { TableStays(s, a); }
  }

  lemma {:induction false} RunKeepsEviction(s: State, actions: seq<Action>, U: iset<Package>)
    requires EvictionOk(s) && IsRun(s, actions, U)
    ensures EvictionOk(Exec(s, actions, U))
    decreases |actions|
  {
    if actions != [] {
      StepKeepsEviction(s, actions[0]);
      RunKeepsEviction(Apply(s, actions[0]), actions[1..], U);
    }
  }

  /** A row only ever disappears by the evictor's last step, and then it was there when that cycle listed the
      table, cached and not used within ttl; a row inserted later is never the one that goes. */
  lemma OnlyListedRowsAreDeleted(s: State, a: Action, k: Triple)
    requires EvictionOk(s) && Enabled(s, a)
    requires k in s.table.rows && k !in Apply(s, a).table.rows
    ensures a == EvictTable(true) && s.evictor.Evicting?
    ensures k in s.evictor.listing.rows
    ensures s.evictor.listing.rows[k].id == s.table.rows[k].id < s.evictor.listing.nextId
    ensures s.evictor.listing.rows[k].status == Cached && !UsedSince(s.evictor.listing.rows[k], s.now - s.ttl)
  {
    TableChangesByStatements(s, a);
    var st := StatementOf(s, a);
    assert st.Some?;
    StatementsTouchOneRow(s.table, st.value, s.now, k);
    assert s.evictor.queue[0] in s.evictor.queue;
  }

  /** What a run does to the row of k: as long as it is the same row, its last access never moves back; a
      row with another id was inserted during the run. */
  ghost predicate RowHistory(t: Table, t': Table, k: Triple) {
    && t.nextId <= t'.nextId
    && (k in t'.rows ==>
          || t'.rows[k].id >= t.nextId
          || (k in t.rows && t'.rows[k].id == t.rows[k].id && t.rows[k].LastAccess() <= t'.rows[k].LastAccess()))
  }

  lemma {:induction false} AccessNeverMovesBack(s: State, actions: seq<Action>, U: iset<Package>, k: Triple)
    requires EvictionOk(s) && IsRun(s, actions, U)
    ensures RowHistory(s.table, Exec(s, actions, U).table, k)
    decreases |actions|
  {
    if actions != [] {
      var m := Apply(s, actions[0]);
      TableChangesByStatements(s, actions[0]);
      var st := StatementOf(s, actions[0]);
      if st.Some? && k in m.table.rows { RowsKeepIdentity(s.table, st.value, s.now, k); }
      StepKeepsEviction(s, actions[0]);
      AccessNeverMovesBack(m, actions[1..], U, k);
    }
  }

  // ---- Used rows are not listed ---------------------------------------------------------------------

  /** The row of k, if there is one, was used at time t or later. */
  ghost predicate Fresh(s: State, k: Triple, t: int) { t <= s.now && (k in s.table.rows ==> UsedSince(s.table.rows[k], t)) }

  lemma StepKeepsFresh(s: State, a: Action, k: Triple, t: int)
    requires EvictionOk(s) && Enabled(s, a) && Fresh(s, k, t)
    ensures Fresh(Apply(s, a), k, t) && Apply(s, a).ttl == s.ttl
  {
    TableChangesByStatements(s, a);
    var st := StatementOf(s, a);
    if st.Some? && k in Apply(s, a).table.rows { RowsKeepIdentity(s.table, st.value, s.now, k); }
    if OnTable(a) { EvictorMoves(s, a); } else { TableStays(s, a); }
  }

  lemma {:induction false} RunKeepsFresh(s: State, actions: seq<Action>, U: iset<Package>, k: Triple, t: int)
    requires EvictionOk(s) && IsRun(s, actions, U) && Fresh(s, k, t)
    ensures Fresh(Exec(s, actions, U), k, t) && EvictionOk(Exec(s, actions, U)) && Exec(s, actions, U).ttl == s.ttl
    decreases |actions|
  {
    if actions != [] {
      StepKeepsFresh(s, actions[0], k, t);
      StepKeepsEviction(s, actions[0]);
      RunKeepsFresh(Apply(s, actions[0]), actions[1..], U, k, t);
    }
  }

  /** The goroutine of a hit in Redis touches the row: its last hit is now, and nothing else of it changes. */
  lemma TouchIsRecorded(s: State, id: nat, k: Triple)
    requires id in s.tasks && s.tasks[id].TouchThenEvent? && s.tasks[id].key == k && k in s.table.rows
    ensures var s' := Apply(s, TaskStep(id, true));
            && k in s'.table.rows && s'.table.rows[k] == s.table.rows[k].(lastHitAt := Some(s.now))
            && s'.table.rows[k].lastHitAt == Some(s.now) && UsedSince(s'.table.rows[k], s.now)
  {
  }

  /** Over all runs from an empty cache: from a touch at time t on, no cycle that lists the table at t + ttl or
      before lists the row, whatever happens in between. */
  lemma TouchedIsNotListed(cfg: RetryConfig, ttl: int, start: int, before: seq<Action>, s: State, id: nat, k: Triple,
                           actions: seq<Action>, U: iset<Package>, listed: seq<Row>, r: Row)
    requires IsRun(Empty(cfg, ttl, start), before, U) && s == Exec(Empty(cfg, ttl, start), before, U)
    requires id in s.tasks && s.tasks[id].TouchThenEvent? && s.tasks[id].key == k && k in s.table.rows
    requires IsRun(s, [TaskStep(id, true)] + actions, U)
    requires var s' := Exec(s, [TaskStep(id, true)] + actions, U);
             Enabled(s', EvictList(listed)) && s'.now <= s.now + s.ttl
    requires r in listed
    ensures r.key != k
  {
    var a := TaskStep(id, true);
    assert ([a] + actions)[1..] == actions;
    RunKeepsEviction(Empty(cfg, ttl, start), before, U);
    TouchIsRecorded(s, id, k);
    StepKeepsEviction(s, a);
    TaskFrame(s, id, true);
    EvictorMoves(s, a);
    RunKeepsFresh(Apply(s, a), actions, U, k, s.now);
    var s' := Exec(Apply(s, a), actions, U);
    if r.key == k { ListedIff(s'.table, s'.now - s'.ttl, listed, k); }
  }

  // ---- The steps of the evictor are the worker's ----------------------------------------------------

  function StoresOf(s: State): Eviction.Stores<string> { Eviction.Stores(s.table, s.redis, s.store) }

  /** When nothing comes in between, the steps for one row do to the stores what evictOne does, whichever of
      its calls fail, and go on to the next row. */
  lemma StepsEvictOneRow(s: State, calls: Eviction.Calls, U: iset<Package>) returns (actions: seq<Action>)
    requires s.evictor.Evicting? && s.evictor.queue != [] && s.evictor.stage.FromStorage?
    ensures IsRun(s, actions, U)
    ensures var s' := Exec(s, actions, U);
            && StoresOf(s') == Eviction.EvictRow(StoresOf(s), s.evictor.queue[0], calls)
            && s' == s.(table := s'.table, redis := s'.redis, store := s'.store, evictor := NextRow(s))
  {
    var s1 := AfterEvict(s, calls.storage);
    assert Apply(s, EvictStorage(calls.storage)) == s1;
    if !calls.storage {
      actions := [EvictStorage(false)];
      RunsOne(s, actions[0], U);
    } else {
      assert s1.evictor == s.evictor.(stage := FromRedis);
      FinishesRow(s1, calls);
      actions := [EvictStorage(true), EvictRedis(calls.redis), EvictTable(calls.table)];
      RunsThree(s, actions[0], actions[1], actions[2], U);
    }
  }

  lemma FinishesRow(s: State, calls: Eviction.Calls)
    requires s.evictor.Evicting? && s.evictor.queue != [] && s.evictor.stage.FromRedis?
    ensures Enabled(s, EvictRedis(calls.redis)) && Enabled(Apply(s, EvictRedis(calls.redis)), EvictTable(calls.table))
    ensures var row, s' := s.evictor.queue[0], Apply(Apply(s, EvictRedis(calls.redis)), EvictTable(calls.table));
            s' == s.(table := if calls.table then Delete(s.table, row.id) else s.table,
                     redis := if calls.redis then s.redis - {RedisKey(row.key)} else s.redis, evictor := NextRow(s))
  {
    var t := AfterEvict(s, calls.redis);
    assert Apply(s, EvictRedis(calls.redis)) == t;
    assert Apply(t, EvictTable(calls.table)) == AfterEvict(t, calls.table);
  }

  lemma RunsOne(s: State, a: Action, U: iset<Package>)
    requires Enabled(s, a) && Requests(a, U)
    ensures IsRun(s, [a], U) && Exec(s, [a], U) == Apply(s, a)
  {
    assert [a][1..] == [];
  }

  lemma RunsThree(s: State, a: Action, b: Action, c: Action, U: iset<Package>)
    requires Enabled(s, a) && Enabled(Apply(s, a), b) && Enabled(Apply(Apply(s, a), b), c)
    requires Requests(a, U) && Requests(b, U) && Requests(c, U)
    ensures IsRun(s, [a, b, c], U) && Exec(s, [a, b, c], U) == Apply(Apply(Apply(s, a), b), c)
  {
    RunsOne(Apply(Apply(s, a), b), c, U);
    assert [b, c][1..] == [c];
    assert IsRun(Apply(s, a), [b, c], U);
    assert [a, b, c][1..] == [b, c];
  }

  // ---- The rows of every reachable table are named after their packages -----------------------------

  ghost predicate KeyIn(U: iset<Package>, k: Triple) { exists p :: p in U && p.Id() == k }

  ghost predicate Keyed(s: State, U: iset<Package>) {
    && (forall id :: id in s.tasks ==> KeyIn(U, s.tasks[id].key))
    && (forall k :: k in s.table.rows ==> KeyIn(U, k) && (s.table.rows[k].status.Blocked? ==> s.table.rows[k].checksum == ""))
  }

  /** New goroutines are about the request that leaves them, or about the key of the one they continue. */
  ghost predicate TasksFrom(s: State, s': State) {
    forall id :: id in s'.tasks ==>
      || (exists i :: i in s.tasks && s.tasks[i].key == s'.tasks[id].key)
      || (exists r :: r in s.requests && s.requests[r].pkg.Id() == s'.tasks[id].key)
  }

  lemma ReadTasks(s: State, rid: nat, c: string, ok: bool, sent: nat, task: Task, miss: Pc)
    requires rid in s.requests && task.key == s.requests[rid].pkg.Id()
    ensures TasksFrom(s, ReadHit(s, rid, c, ok, sent, task, miss))
  {
  }

  lemma LookupTasks(s: State, a: Action)
    requires Enabled(s, a) && OnLookup(a)
    ensures TasksFrom(s, Apply(s, a))
  {
    match a
    case Arrive(_, _) =>
    case RedisGet(_, _) =>
    case TableGet(_, _) =>
    case Scanned(_, _) =>
    case ReadForRedis(rid, ok, sent) =>
      var c := s.requests[rid].pc.checksum;
      ReadTasks(s, rid, c, ok, sent,
                TouchThenEvent(s.requests[rid].pkg.Id(), if c in s.store then Sent(s.store[c], sent) else 0), TableLookup);
    case ReadForTable(rid, ok, sent) =>
      var c := s.requests[rid].pc.checksum;
      ReadTasks(s, rid, c, ok, sent,
                SetThenEvent(s.requests[rid].pkg.Id(), c, if c in s.store then Sent(s.store[c], sent) else 0), Scanning);
  }

  lemma AnswerTasks(s: State, a: Action)
    requires Enabled(s, a) && OnAnswer(a)
    ensures TasksFrom(s, Apply(s, a))
  {
  }

  lemma TaskTasks(s: State, id: nat, ok: bool)
    requires id in s.tasks
    ensures forall i :: i in AfterTask(s, id, ok).tasks ==> i in s.tasks && s.tasks[i].key == AfterTask(s, id, ok).tasks[i].key
  {
  }

  lemma BackgroundTasks(s: State, a: Action)
    requires Enabled(s, a) && !OnLookup(a) && !OnFlight(a) && !OnAnswer(a)
    ensures TasksFrom(s, Apply(s, a))
  {
    if a.TaskStep? {
      TaskTasks(s, a.task, a.ok);
      assert Apply(s, a) == AfterTask(s, a.task, a.ok);
    } else if OnTable(a) {
      EvictFrame(s, a.ok);
    } else {
      EnvironmentFrame(s, a);
    }
  }

  lemma StepTasks(s: State, a: Action)
    requires Enabled(s, a)
    ensures TasksFrom(s, Apply(s, a))
  {
    if OnLookup(a) {
      LookupTasks(s, a);
    } else if OnAnswer(a) {
      AnswerTasks(s, a);
    } else if !OnFlight(a) {
      BackgroundTasks(s, a);
    } else if a.UpstreamGet? {
      UpstreamFrame(s, a);
    } else {
      FlightFrame(s, a);
    }
  }

  lemma StepKeepsKeyed(s: State, U: iset<Package>, a: Action)
    requires Keyed(s, U) && Prov(s, U) && Enabled(s, a)
    ensures Keyed(Apply(s, a), U)
  {
    StepTasks(s, a);
    TableChangesByStatements(s, a);
    var s' := Apply(s, a);
    forall id | id in s'.tasks ensures KeyIn(U, s'.tasks[id].key) {
    }
    forall k | k in s'.table.rows
      ensures KeyIn(U, k) && (s'.table.rows[k].status.Blocked? ==> s'.table.rows[k].checksum == "")
    {
      if k !in s.table.rows { assert a.TaskStep? && s.tasks[a.task].key == k; }
    }
  }

  /** So the hypothesis under which a cycle leaves live rows alone holds in every run. */
  lemma ReachableRowsAreNamed(s: State, U: iset<Package>)
    requires Keyed(s, U) && Prov(s, U) && WellFormedRequests(U)
    ensures Eviction.RowsNamed(s.table)
  {
    forall k | k in s.table.rows && s.table.rows[k].status.Cached? ensures Eviction.RowNamed(s.table.rows[k], k) {
      var g :| g in s.gets && g.result.Fetched? && FlightKey(g.pkg.Id()) == FlightKey(k)
               && g.pkg.CacheKey() == s.table.rows[k].checksum;
      assert KeyIn(U, k);
      FlightKeyInjective(g.pkg.Id(), k);
    }
    forall k | k in s.table.rows ensures WellFormedId(k) { assert KeyIn(U, k); }
  }

  lemma {:induction false} RunsKeepRowsNamed(s: State, actions: seq<Action>, U: iset<Package>)
    requires Keyed(s, U) && Prov(s, U) && WellFormedRequests(U) && IsRun(s, actions, U)
    ensures Eviction.RowsNamed(Exec(s, actions, U).table)
    decreases |actions|
  {
    if actions == [] {
      ReachableRowsAreNamed(s, U);
    } else {
      StepKeepsKeyed(s, U, actions[0]);
      StepKeepsProvenance(s, U, actions[0]);
      RunsKeepRowsNamed(Apply(s, actions[0]), actions[1..], U);
    }
  }
}
