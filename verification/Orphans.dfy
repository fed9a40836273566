/** Objects in storage that no row names (internal/proxy/proxy.go, internal/eviction/eviction.go,
    internal/db/package_store.go): exactly which steps leave one behind, and exactly when the evictor does. */
module Orphans {
  import opened Foundation
  import opened Keys
  import opened ObjectStore
  import opened PackageStore
  import opened Upstream
  import opened CacheSystem
  import opened Flights
  import opened Progress
  import opened Traces
  import opened Transparency
  import opened SerialRuns
  import EvictionRuns
  import Security

  // ---- When an object is in storage ----------------------------------------------------------------

  /** An effective Put: it writes an object for storage key c. */
  ghost predicate PutsObject(s: State, a: Action, c: string) {
    && a.Put? && a.rid in s.requests && s.requests[a.rid].pkg.CacheKey() == c
    && (a.mode.Overwrites? || (a.mode.IfAbsent? && c !in s.store))
  }

  /** The object is lost, or deleted by the evictor. */
  ghost predicate TakesObject(s: State, a: Action, c: string) {
    || (a.ObjectLost? && a.checksum == c)
    || (a.EvictStorage? && a.ok && s.evictor.Evicting? && s.evictor.queue != [] && s.evictor.queue[0].checksum == c)
  }

  lemma LookupStore(s: State, a: Action)
    requires Enabled(s, a) && OnLookup(a)
    ensures Apply(s, a).store == s.store
  {
  }

  lemma FlightStore(s: State, a: Action)
    requires Enabled(s, a) && OnFlight(a)
    ensures Apply(s, a).store == s.store
  {
  }

  lemma BackgroundStore(s: State, a: Action, c: string)
    requires Enabled(s, a) && !OnLookup(a) && !OnFlight(a) && !OnAnswer(a)
    ensures c in Apply(s, a).store <==> c in s.store && !TakesObject(s, a, c)
  {
    if a.TaskStep? { TaskFrame(s, a.task, a.ok); }
  }

  lemma AnswerStore(s: State, a: Action, c: string)
    requires Enabled(s, a) && OnAnswer(a)
    ensures c in Apply(s, a).store <==> PutsObject(s, a, c) || c in s.store
  {
  }

  lemma StoreStep(s: State, a: Action, c: string)
    requires Enabled(s, a)
    ensures c in Apply(s, a).store <==> PutsObject(s, a, c) || (c in s.store && !TakesObject(s, a, c))
  {
    if OnLookup(a) {
      LookupStore(s, a);
    } else if OnFlight(a) {
      FlightStore(s, a);
    } else if OnAnswer(a) {
      AnswerStore(s, a, c);
    } else {
      BackgroundStore(s, a, c);
    }
  }

  ghost predicate PutAt(s: State, actions: seq<Action>, U: iset<Package>, c: string, i: nat)
    requires IsRun(s, actions, U)
  {
    i < |actions| && PutsObject(StateAt(s, actions, i, U), actions[i], c)
  }

  ghost predicate TakenAt(s: State, actions: seq<Action>, U: iset<Package>, c: string, i: nat)
    requires IsRun(s, actions, U)
  {
    i < |actions| && TakesObject(StateAt(s, actions, i, U), actions[i], c)
  }

  /** An effective Put of c that no later step takes away. */
  ghost predicate PutForGood(s: State, actions: seq<Action>, U: iset<Package>, c: string, i: nat)
    requires IsRun(s, actions, U)
  {
    PutAt(s, actions, U, c, i) && forall j: nat :: i < j ==> !TakenAt(s, actions, U, c, j)
  }

  /** After a run an object is in storage if and only if it was there and was never taken, or was put and not
      taken since. In particular an object that the evictor has deleted is there again at the delete of its
      row if and only if an effective Put came in between and no later loss. */
  lemma StoredIff(s: State, actions: seq<Action>, U: iset<Package>, c: string)
    requires IsRun(s, actions, U)
    ensures c in Exec(s, actions, U).store
            <==> || (c in s.store && forall i: nat :: !TakenAt(s, actions, U, c, i))
                 || exists i: nat :: PutForGood(s, actions, U, c, i)
  {
    var n := |actions|;
    var p := (i: nat) => i <= n && c in StateAt(s, actions, i, U).store;
    var makes := (i: nat) => PutAt(s, actions, U, c, i);
    var ends := (i: nat) => TakenAt(s, actions, U, c, i);
    forall i: nat | i < n ensures p(i + 1) <==> makes(i) || (p(i) && !ends(i)) {
      StateAtStep(s, actions, i, U);
      StoreStep(StateAt(s, actions, i, U), actions[i], c);
    }
    Latch(n, p, makes, ends);
    StateAtEnd(s, actions, U);
    forall i: nat ensures MadeForGood(n, makes, ends, i) <==> PutForGood(s, actions, U, c, i) {
      if MadeForGood(n, makes, ends, i) {
        forall j: nat | i < j ensures !TakenAt(s, actions, U, c, j) {
          if j < n { assert !ends(j); }
        }
      }
      if PutForGood(s, actions, U, c, i) {
        forall j | i < j < n ensures !ends(j) { assert !TakenAt(s, actions, U, c, j); }
      }
    }
    if forall i: nat :: i < n ==> !ends(i) {
      forall i: nat ensures !TakenAt(s, actions, U, c, i) {
        if i < n { assert !ends(i); }
      }
    }
  }

  // ---- When no row names it ------------------------------------------------------------------------

  ghost predicate Named(t: Table, c: string) { exists k :: NamedBy(t, c, k) }

  predicate NamedBy(t: Table, c: string, k: Triple) { k in t.rows && t.rows[k].checksum == c }

  ghost predicate Orphan(s: State, c: string) { c in s.store && !Named(s.table, c) }

  /** The statement rewrites or deletes every row that names c, and names it nowhere. */
  ghost predicate DropsName(t: Table, st: Statement, c: string) {
    && Named(t, c)
    && match st
       case DeleteId(id) => forall k :: NamedBy(t, c, k) ==> t.rows[k].id == id
       case Block(k) => c != "" && forall l :: NamedBy(t, c, l) ==> l == k
       case Upsert(k, checksum, _) => checksum != c && forall l :: NamedBy(t, c, l) ==> l == k
       case TouchHit(_) => false
  }

  /** The statement makes a row name c. */
  predicate GivesName(st: Statement, c: string) { (st.Upsert? && st.checksum == c) || (st.Block? && c == "") }

  lemma NameStep(t: Table, st: Statement, now: int, c: string)
    ensures Named(Execute(t, st, now), c) <==> GivesName(st, c) || (Named(t, c) && !DropsName(t, st, c))
  {
    var t' := Execute(t, st, now);
    if k :| NamedBy(t, c, k) && match st
                                case DeleteId(id) => t.rows[k].id != id
                                case TouchHit(_) => true
                                case _ => k != st.k {
      assert NamedBy(t', c, k);
    }
    if GivesName(st, c) { assert NamedBy(t', c, st.k); }
    if k :| NamedBy(t', c, k) {
      assert NamedBy(t, c, k) || GivesName(st, c);
    }
  }

  /** The four ways to leave an object without a row: a Put, until its goroutine has written the row; and a
      statement that deletes, blocks or renames the last row that names it, while it is there. */
  ghost predicate MakesOrphan(s: State, a: Action, c: string) {
    || (PutsObject(s, a, c) && !Named(s.table, c))
    || (c in s.store && var st := EvictionRuns.StatementOf(s, a); st.Some? && DropsName(s.table, st.value, c) && !GivesName(st.value, c))
  }

  /** A row is written for it, or it is taken away. */
  ghost predicate EndsOrphan(s: State, a: Action, c: string) {
    TakesObject(s, a, c) || (var st := EvictionRuns.StatementOf(s, a); st.Some? && GivesName(st.value, c))
  }

  lemma OrphanStep(s: State, a: Action, c: string)
    requires Enabled(s, a)
    ensures Orphan(Apply(s, a), c) <==> MakesOrphan(s, a, c) || (Orphan(s, c) && !EndsOrphan(s, a, c))
  {
    StoreStep(s, a, c);
    EvictionRuns.TableChangesByStatements(s, a);
    var st := EvictionRuns.StatementOf(s, a);
    if st.Some? {
      NameStep(s.table, st.value, s.now, c);
      assert !PutsObject(s, a, c) && !TakesObject(s, a, c);
    }
  }

  ghost predicate MakesAt(s: State, actions: seq<Action>, U: iset<Package>, c: string, i: nat)
    requires IsRun(s, actions, U)
  {
    i < |actions| && MakesOrphan(StateAt(s, actions, i, U), actions[i], c)
  }

  ghost predicate EndsAt(s: State, actions: seq<Action>, U: iset<Package>, c: string, i: nat)
    requires IsRun(s, actions, U)
  {
    i < |actions| && EndsOrphan(StateAt(s, actions, i, U), actions[i], c)
  }

  ghost predicate OrphanedForGood(s: State, actions: seq<Action>, U: iset<Package>, c: string, i: nat)
    requires IsRun(s, actions, U)
  {
    MakesAt(s, actions, U, c, i) && forall j: nat :: i < j ==> !EndsAt(s, actions, U, c, j)
  }

  /** Over all runs from an empty cache, an object is without a row at the end if and only if one of the four
      steps left it so, and since then no row was written for it and nothing took it. */
  lemma OrphanedIff(cfg: RetryConfig, ttl: int, start: int, actions: seq<Action>, U: iset<Package>, c: string)
    requires RunsFrom(cfg, ttl, start, actions, U)
    ensures Orphan(Final(cfg, ttl, start, actions, U), c)
            <==> exists i: nat :: OrphanedForGood(Empty(cfg, ttl, start), actions, U, c, i)
  {
    var s := Empty(cfg, ttl, start);
    var n := |actions|;
    var p := (i: nat) => i <= n && Orphan(StateAt(s, actions, i, U), c);
    var makes := (i: nat) => MakesAt(s, actions, U, c, i);
    var ends := (i: nat) => EndsAt(s, actions, U, c, i);
    forall i: nat | i < n ensures p(i + 1) <==> makes(i) || (p(i) && !ends(i)) {
      StateAtStep(s, actions, i, U);
      OrphanStep(StateAt(s, actions, i, U), actions[i], c);
    }
    Latch(n, p, makes, ends);
    StateAtEnd(s, actions, U);
    forall i: nat ensures MadeForGood(n, makes, ends, i) <==> OrphanedForGood(s, actions, U, c, i) {
      if MadeForGood(n, makes, ends, i) {
        forall j: nat | i < j ensures !EndsAt(s, actions, U, c, j) {
          if j < n { assert !ends(j); }
        }
      }
      if OrphanedForGood(s, actions, U, c, i) {
        forall j | i < j < n ensures !ends(j) { assert !EndsAt(s, actions, U, c, j); }
      }
    }
  }

  // ---- What the evictor leaves behind --------------------------------------------------------------

  /** The evictor has deleted the object of the first row in its queue and has yet to delete the row. */
  ghost predicate BetweenDeletes(s: State, c: string) {
    && s.evictor.Evicting? && s.evictor.queue != [] && s.evictor.queue[0].checksum == c
    && (s.evictor.stage.FromRedis? || s.evictor.stage.FromTable?) && c !in s.store
  }

  /** However requests interleave with the evictor: from the delete of an object to that of its row, the object
      is there again if and only if an effective Put of it came in between and nothing took it since. */
  lemma LeftBehindIff(s: State, actions: seq<Action>, U: iset<Package>, c: string)
    requires BetweenDeletes(s, c) && IsRun(s, actions, U)
    requires Enabled(Exec(s, actions, U), EvictTable(true))
    ensures c in Apply(Exec(s, actions, U), EvictTable(true)).store <==> exists i: nat :: PutForGood(s, actions, U, c, i)
  {
    StoredIff(s, actions, U, c);
    StoreStep(Exec(s, actions, U), EvictTable(true), c);
  }

  /** The scan lets a request for storage key c pass. */
  ghost predicate PassesFor(s: State, a: Action, c: string) {
    a.Scanned? && !a.outcome.Block? && a.rid in s.requests && s.requests[a.rid].pkg.CacheKey() == c
  }

  ghost predicate NobodyPasses(s: State, actions: seq<Action>, U: iset<Package>, c: string)
    requires IsRun(s, actions, U)
    decreases |actions|
  {
    actions == [] || (!PassesFor(s, actions[0], c) && NobodyPasses(Apply(s, actions[0]), actions[1..], U, c))
  }

  /** A run up to the delete of that row, during which no request for it passes the scan. */
  ghost predicate IsWindow(s: State, actions: seq<Action>, U: iset<Package>, c: string) {
    && IsRun(s, actions, U) && NobodyPasses(s, actions, U, c)
    && (forall a :: a in actions ==> !a.EvictTable?)
    && Exec(s, actions, U).evictor.Evicting? && Exec(s, actions, U).evictor.stage.FromTable?
  }

  /** A request for storage key c is between its scan and its Put, and on the way there. */
  ghost predicate OnTheWay(s: State, c: string) { exists rid :: MayStore(s, rid) && s.requests[rid].pkg.CacheKey() == c }

  lemma StepKeepsOffTheWay(s: State, a: Action, c: string)
    requires FlightsFit(s) && Enabled(s, a) && !PassesFor(s, a, c) && !OnTheWay(s, c)
    ensures !OnTheWay(Apply(s, a), c) && !PutsObject(s, a, c)
  {
    var s' := Apply(s, a);
    forall rid | MayStore(s', rid) ensures s'.requests[rid].pkg.CacheKey() != c {
      PackagesStay(s, a);
      if Passes(a, rid) {
        assert s'.requests[rid].pkg == s.requests[rid].pkg;
      } else {
        NobodySlipsIn(s, a, rid);
      }
    }
    if a.Put? { assert MayStore(s, a.rid); }
  }

  lemma PackagesStay(s: State, a: Action)
    requires Enabled(s, a)
    ensures forall rid :: rid in s.requests ==> rid in Apply(s, a).requests && Apply(s, a).requests[rid].pkg == s.requests[rid].pkg
  {
    if OnLookup(a) {
      LookupFrame(s, a);
    } else if a.UpstreamGet? {
      UpstreamFrame(s, a);
    } else if OnFlight(a) {
      FlightFrame(s, a);
    } else if OnAnswer(a) {
      AnswerFrame(s, a);
    } else {
      BackgroundFrame(s, a);
    }
  }

  lemma {:induction false} StaysAway(s: State, actions: seq<Action>, U: iset<Package>, c: string)
    requires FlightsFit(s) && c !in s.store && !OnTheWay(s, c) && IsRun(s, actions, U) && NobodyPasses(s, actions, U, c)
    ensures c !in Exec(s, actions, U).store
    decreases |actions|
  {
    if actions != [] {
      var a := actions[0];
      StepKeepsOffTheWay(s, a, c);
      StoreStep(s, a, c);
      StepKeepsFit(s, a);
      StaysAway(Apply(s, a), actions[1..], U, c);
    }
  }

  lemma {:induction false} NoScanNobodyPasses(s: State, actions: seq<Action>, U: iset<Package>, c: string)
    requires IsRun(s, actions, U) && forall a :: a in actions ==> !a.Scanned?
    ensures NobodyPasses(s, actions, U, c)
    decreases |actions|
  {
    if actions != [] {
      assert actions[0] in actions && forall a :: a in actions[1..] ==> a in actions;
      NoScanNobodyPasses(Apply(s, actions[0]), actions[1..], U, c);
    }
  }

  /** Someone on the way stores the object, and the evictor moves on to the row. */
  lemma WindowWithPut(s: State, rid: nat, U: iset<Package>) returns (window: seq<Action>)
    requires FlightsFit(s) && MayStore(s, rid) && BetweenDeletes(s, s.requests[rid].pkg.CacheKey())
    ensures var c := s.requests[rid].pkg.CacheKey();
            IsWindow(s, window, U, c) && c in Exec(s, window, U).store
  {
    var c := s.requests[rid].pkg.CacheKey();
    StaysHere(s, U);
    var t := ReachesStoring(s, s, rid, U);
    AnswerStore(t, Put(rid, IfAbsent), c);
    PutLeavesEvictor(t, rid);
    var u := Further(s, t, Put(rid, IfAbsent), U);
    if u.evictor.stage.FromRedis? {
      u := MovesToTable(s, u, U);
    }
    window :| Progress.Leads(s, u, window, U);
    NoScanNobodyPasses(s, window, U, c);
  }

  lemma PutLeavesEvictor(s: State, rid: nat)
    requires Enabled(s, Put(rid, IfAbsent))
    ensures Apply(s, Put(rid, IfAbsent)).evictor == s.evictor
  {
  }

  lemma MovesToTable(s0: State, s: State, U: iset<Package>) returns (s': State)
    requires CanReach(s0, s, U) && s.evictor.Evicting? && s.evictor.queue != [] && s.evictor.stage.FromRedis?
    ensures CanReach(s0, s', U) && s'.store == s.store && s'.evictor == s.evictor.(stage := FromTable)
  {
    s' := Further(s0, s, EvictRedis(true), U);
  }

  /** In every reachable state between the two deletes: every way to the delete of the row leaves no object,
      as long as no request for it passes the scan by then, if and only if no request for it is between its
      scan and its Put. */
  lemma NoOrphanIff(cfg: RetryConfig, ttl: int, start: int, s: State, U: iset<Package>, c: string)
    requires Reachable(Empty(cfg, ttl, start), s, U) && BetweenDeletes(s, c)
    ensures (forall window :: IsWindow(s, window, U, c) ==> c !in Exec(s, window, U).store) <==> !OnTheWay(s, c)
  {
    ReachableFits(cfg, ttl, start, s, U);
    if OnTheWay(s, c) {
      var rid :| MayStore(s, rid) && s.requests[rid].pkg.CacheKey() == c;
      var window := WindowWithPut(s, rid, U);
    } else {
      forall window | IsWindow(s, window, U, c) ensures c !in Exec(s, window, U).store {
        StaysAway(s, window, U, c);
      }
    }
  }

  // ---- Runs from an empty cache that end with an orphan --------------------------------------------

  lemma ReachesScan(s0: State, s: State, rid: nat, p: Package, U: iset<Package>) returns (s': State)
    requires Reachable(s0, s, U) && p in U && rid !in s.requests
    ensures Reachable(s0, s', U) && s' == At(s, rid, Fresh(p, Scanning))
  {
    s' := RedisGetRuns(s0, s, rid, p, false, U);
    s' := TableGetRuns(s0, s', rid, p, false, U);
    AtAgain(s, rid, Fresh(p, TableLookup), Fresh(p, Scanning), Hit, [], None);
  }

  /** What the request leaves alone. */
  ghost predicate Beside(s: State, s': State) {
    && s'.redis == s.redis && s'.table == s.table && s'.evictor == s.evictor && s'.now == s.now && s'.cfg == s.cfg
    && s'.ttl == s.ttl && (forall i :: i in s'.requests ==> i in s.requests)
    && (forall t :: t in s'.flights.threads ==> t in s.flights.threads || t in s.requests) && s'.flights.calls == s.flights.calls
  }

  lemma FetchesAgain(s0: State, s: State, rid: nat, p: Package, b: Bytes, U: iset<Package>) returns (s': State)
    requires Reachable(s0, s, U) && rid in s.requests && s.requests[rid] == Fresh(p, Scanning) && rid !in s.flights.threads
    requires FlightKey(p.Id()) !in s.flights.calls && s.cfg.maxAttempts >= 1
    ensures Reachable(s0, s', U) && Beside(s, s') && s'.store == s.store && s'.tasks == s.tasks && s'.nextTask == s.nextTask
    ensures rid in s'.requests && s'.requests[rid] == Request(p, DoReturned(true, Some(Fetched(b))), true, 1, false)
  {
    var t := LeadsAlone(s0, s, rid, p, U);
    s' := FetchesAlone(s0, t, rid, p, b, |s.flights.cells|, U);
    assert s'.flights.calls == s.flights.calls;
  }

  lemma LeadsAlone(s0: State, s: State, rid: nat, p: Package, U: iset<Package>) returns (s': State)
    requires Reachable(s0, s, U) && rid in s.requests && s.requests[rid] == Fresh(p, Scanning) && rid !in s.flights.threads
    requires FlightKey(p.Id()) !in s.flights.calls
    ensures Reachable(s0, s', U)
    ensures s' == At(s, rid, Request(p, Limiting, true, 0, false)).(flights := Entered(s.flights, rid, FlightKey(p.Id())))
  {
    var t := ScanRuns(s0, s, rid, p, Security.Allow, U);
    s' := EnterRuns(s0, t, rid, p, s.flights, U);
    AtAgain(s, rid, Fresh(p, InFlight), Request(p, Limiting, true, 0, false), Hit, [], None);
  }

  lemma FetchesAlone(s0: State, s: State, rid: nat, p: Package, b: Bytes, c: nat, U: iset<Package>) returns (s': State)
    requires Reachable(s0, s, U) && rid in s.requests && s.requests[rid] == Request(p, Limiting, true, 0, false)
    requires RunsFn(s.flights, rid, FlightKey(p.Id()), c) && s.cfg.maxAttempts >= 1
    ensures Reachable(s0, s', U) && s'.requests.Keys == s.requests.Keys
    ensures s'.requests[rid] == Request(p, DoReturned(true, Some(Fetched(b))), true, 1, false)
    ensures s'.flights == LeftWith(s.flights, rid, FlightKey(p.Id()), c, Fetched(b))
    ensures s' == s.(requests := s'.requests, flights := s'.flights, gets := s'.gets, counters := s'.counters)
  {
    var results := (i: nat) => Fetched(b);
    var cancelled := (i: nat) => false;
    assert Drive(Get(0), s.cfg.maxAttempts, results, cancelled) == (Fetched(b), 1);
    var t := FetchRuns(s0, s, rid, p, true, results, cancelled, Fetched(b), 1, U);
    s' := LeaveRuns(s0, t, rid, p, Fetched(b), 1, c, U);
  }

  lemma StoresAgain(s0: State, s: State, rid: nat, p: Package, b: Bytes, U: iset<Package>) returns (s': State)
    requires Reachable(s0, s, U) && rid in s.requests
    requires s.requests[rid] == Request(p, DoReturned(true, Some(Fetched(b))), true, 1, false)
    ensures Reachable(s0, s', U) && Beside(s, s')
    ensures s'.store == StoreAfter(s.store, p.CacheKey(), b, IfAbsent)
    ensures s'.tasks == s.tasks[s.nextTask := SetThenUpsert(p.Id(), p.CacheKey(), |b|)] && s'.nextTask == s.nextTask + 1
  {
    s' := CountRuns(s0, s, rid, p, Fetched(b), 1, U);
    s' := PutRuns(s0, s', rid, p, b, 1, IfAbsent, U);
  }

  /** Request 0 misses, and p is stored; its goroutine is still to come. */
  lemma FirstMiss(cfg: RetryConfig, ttl: int, start: int, p: Package, b: Bytes, U: iset<Package>) returns (s: State)
    requires cfg.maxAttempts >= 1 && p in U
    ensures var s0 := Empty(cfg, ttl, start); Reachable(s0, s, U) && FlightsFit(s) && Beside(At(s0, 0, Fresh(p, Scanning)), s)
    ensures s.store == map[p.CacheKey() := b] && s.tasks == map[0 := SetThenUpsert(p.Id(), p.CacheKey(), |b|)] && s.nextTask == 1
  {
    var s0 := Empty(cfg, ttl, start);
    assert IsRun(s0, [], U) && Exec(s0, [], U) == s0;
    s := ReachesScan(s0, s0, 0, p, U);
    s := FetchesAgain(s0, s, 0, p, b, U);
    s := StoresAgain(s0, s, 0, p, b, U);
    ReachableFits(cfg, ttl, start, s, U);
  }

  lemma ReachableFits(cfg: RetryConfig, ttl: int, start: int, s: State, U: iset<Package>)
    requires Reachable(Empty(cfg, ttl, start), s, U)
    ensures FlightsFit(s)
  {
    var s0 := Empty(cfg, ttl, start);
    var actions :| IsRun(s0, actions, U) && Exec(s0, actions, U) == s;
    EmptyFits(cfg, ttl, start);
    RunKeepsFit(s0, actions, U);
  }

  /** First source: the row is never written. */
  lemma FailedUpsertOrphans(cfg: RetryConfig, ttl: int, start: int, p: Package, b: Bytes, U: iset<Package>) returns (s: State)
    requires cfg.maxAttempts >= 1 && p in U
    ensures Reachable(Empty(cfg, ttl, start), s, U) && Orphan(s, p.CacheKey()) && s.tasks == map[]
  {
    var s0 := Empty(cfg, ttl, start);
    s := FirstMiss(cfg, ttl, start, p, b, U);
    s := SetRuns(s0, s, 0, true, U);
    s := UpsertRuns(s0, s, 0, false, U);
    s := RecordRuns(s0, s, 0, true, U);
    assert s.tasks == map[];
    assert forall k :: k !in s.table.rows;
  }

  /** p is stored and indexed, and nothing is left to do. */
  lemma FirstIndexed(cfg: RetryConfig, ttl: int, start: int, p: Package, b: Bytes, U: iset<Package>) returns (s: State)
    requires cfg.maxAttempts >= 1 && p in U
    ensures Reachable(Empty(cfg, ttl, start), s, U) && FlightsFit(s)
    ensures s.store == map[p.CacheKey() := b] && s.tasks == map[] && s.nextTask == 1 && s.redis == map[RedisKey(p.Id()) := p.CacheKey()]
    ensures s.table == Table(map[p.Id() := Row(0, p.Id(), Cached, p.CacheKey(), |b|, start, None)], 1)
    ensures s.now == start && s.ttl == ttl && s.cfg == cfg && s.evictor == Idle
    ensures s.flights.calls == map[] && (forall i :: i in s.requests ==> i == 0) && (forall t :: t in s.flights.threads ==> t == 0)
  {
    var s0 := Empty(cfg, ttl, start);
    s := FirstMiss(cfg, ttl, start, p, b, U);
    s := SetRuns(s0, s, 0, true, U);
    s := UpsertRuns(s0, s, 0, true, U);
    s := RecordRuns(s0, s, 0, true, U);
    assert s.tasks == map[];
    ReachableFits(cfg, ttl, start, s, U);
  }

  /** Second source: the row is blocked. A request whose lookups fail is scanned again, without an evictor. */
  lemma BlockOrphans(cfg: RetryConfig, ttl: int, start: int, p: Package, b: Bytes, U: iset<Package>) returns (s: State)
    requires cfg.maxAttempts >= 1 && p in U
    ensures Reachable(Empty(cfg, ttl, start), s, U) && Orphan(s, p.CacheKey()) && s.tasks == map[] && s.evictor == Idle
  {
    var s0 := Empty(cfg, ttl, start);
    s := FirstIndexed(cfg, ttl, start, p, b, U);
    s := ReachesScan(s0, s, 1, p, U);
    s := BlockRuns(s0, s, 1, p, U);
    s := MarkRuns(s0, s, 1, true, U);
    assert s.tasks == map[];
    assert |p.CacheKey()| > 0;
    assert forall k :: k in s.table.rows ==> s.table.rows[k].checksum == "";
  }

  /** Third source: the row is given to another file of the same ecosystem, name and version. */
  lemma RenamedOrphans(cfg: RetryConfig, ttl: int, start: int, p: Package, q: Package, b: Bytes, U: iset<Package>) returns (s: State)
    requires cfg.maxAttempts >= 1 && p in U && q in U && p.Id() == q.Id() && p.CacheKey() != q.CacheKey()
    ensures Reachable(Empty(cfg, ttl, start), s, U) && Orphan(s, p.CacheKey()) && s.evictor == Idle
  {
    var s0 := Empty(cfg, ttl, start);
    s := FirstIndexed(cfg, ttl, start, p, b, U);
    s := ReachesScan(s0, s, 1, q, U);
    s := FetchesAgain(s0, s, 1, q, b, U);
    s := StoresAgain(s0, s, 1, q, b, U);
    s := SetRuns(s0, s, 1, true, U);
    s := UpsertRuns(s0, s, 1, true, U);
    assert forall k :: k in s.table.rows ==> s.table.rows[k].checksum == q.CacheKey();
  }

  /** The evictor has deleted p's object and is about to go on. */
  lemma ReachesEviction(cfg: RetryConfig, ttl: int, start: int, p: Package, b: Bytes, U: iset<Package>) returns (s: State)
    requires cfg.maxAttempts >= 1 && p in U
    ensures Reachable(Empty(cfg, ttl, start), s, U) && FlightsFit(s) && BetweenDeletes(s, p.CacheKey())
    ensures s.table == Table(map[p.Id() := Row(0, p.Id(), Cached, p.CacheKey(), |b|, start, None)], 1)
    ensures s.evictor.stage.FromRedis? && s.evictor.queue == [s.table.rows[p.Id()]]
    ensures s.flights.calls == map[] && 1 !in s.requests && 1 !in s.flights.threads && s.cfg == cfg
  {
    var s0 := Empty(cfg, ttl, start);
    s := FirstIndexed(cfg, ttl, start, p, b, U);
    var row := s.table.rows[p.Id()];
    s := Extend(s0, s, Tick(start + (if ttl > 0 then ttl else 0) + 1), U);
    s := StartsEviction(s0, s, row, U);
    ReachableFits(cfg, ttl, start, s, U);
  }

  /** The evictor lists the only row, and deletes its object. */
  lemma StartsEviction(s0: State, s: State, row: Row, U: iset<Package>) returns (s': State)
    requires Reachable(s0, s, U) && s.evictor == Idle && s.table.rows == map[row.key := row]
    requires row.status == Cached && !UsedSince(row, s.now - s.ttl)
    ensures Reachable(s0, s', U)
    ensures s' == s.(store := s.store - {row.checksum}, evictor := s'.evictor)
    ensures s'.evictor.Evicting? && s'.evictor.queue == [row] && s'.evictor.stage.FromRedis?
  {
    assert s.table.rows[row.key] in [row];
    s' := Extend(s0, s, EvictList([row]), U);
    s' := Extend(s0, s', EvictStorage(true), U);
  }

  /** Fourth source: the row is deleted. From an empty cache the evictor comes between its two deletes, a new
      request for the package stores it again, and the row goes. */
  lemma EvictionOrphans(cfg: RetryConfig, ttl: int, start: int, p: Package, b: Bytes, U: iset<Package>) returns (s: State)
    requires cfg.maxAttempts >= 1 && p in U
    ensures Reachable(Empty(cfg, ttl, start), s, U) && Orphan(s, p.CacheKey())
    ensures p.Id() !in s.table.rows && s.evictor == Idle
  {
    var s0 := Empty(cfg, ttl, start);
    s := ReachesEviction(cfg, ttl, start, p, b, U);
    s := ReachesScan(s0, s, 1, p, U);
    s := FetchesAgain(s0, s, 1, p, b, U);
    s := StoresAgain(s0, s, 1, p, b, U);
    s := Extend(s0, s, EvictRedis(true), U);
    s := Extend(s0, s, EvictTable(true), U);
    assert s.table.rows == map[];
  }
}
