/** Transparency of whole runs, and exactly when it holds. */
module Transparency {
  import opened Foundation
  import opened Keys
  import opened ObjectStore
  import opened PackageStore
  import opened Upstream
  import opened CacheSystem
  import opened Provenance
  import SF = SingleFlight
  import Security

  /** Everything sent with status 200 was fetched before for that very package: the whole body, or a prefix
      of it when the copy to the client broke off. */
  ghost predicate Transparent(s: State) {
    forall d :: d in s.deliveries ==> TransparentDelivery(s.gets, d)
  }

  ghost predicate TransparentDelivery(gets: seq<GetRecord>, d: Delivery) {
    && d.after <= |gets|
    && exists b :: GetRecord(d.pkg, Fetched(b)) in gets[..d.after] && d.sent <= b && (d.complete ==> d.sent == b)
  }

  /** Ecosystem, name and version, by which Redis, Postgres and single flight index, fix the artifact. */
  ghost predicate TripleDetermines(U: iset<Package>) {
    forall p, q :: p in U && q in U && p.Id() == q.Id() ==> p == q
  }

  ghost predicate RunsFrom(cfg: RetryConfig, ttl: int, start: int, actions: seq<Action>, U: iset<Package>) {
    IsRun(Empty(cfg, ttl, start), actions, U)
  }

  ghost function Final(cfg: RetryConfig, ttl: int, start: int, actions: seq<Action>, U: iset<Package>): State
    requires RunsFrom(cfg, ttl, start, actions, U)
  {
    Exec(Empty(cfg, ttl, start), actions, U)
  }

  /** Over all runs, a 200 answer for a package is a body fetched before for its ecosystem, name and version. */
  lemma ServedWasFetched(cfg: RetryConfig, ttl: int, start: int, actions: seq<Action>, U: iset<Package>, d: Delivery)
    returns (g: GetRecord)
    requires WellFormedRequests(U) && cfg.maxAttempts >= 1 && RunsFrom(cfg, ttl, start, actions, U)
    requires d in Final(cfg, ttl, start, actions, U).deliveries
    ensures var s := Final(cfg, ttl, start, actions, U);
            && d.after <= |s.gets| && g in s.gets[..d.after]
            && g.pkg in U && d.pkg in U && g.pkg.Id() == d.pkg.Id()
            && g.result.Fetched? && d.sent <= g.result.body && (d.complete ==> d.sent == g.result.body)
  {
    EmptyHasProvenance(cfg, ttl, start, U);
    RunKeepsProvenance(Empty(cfg, ttl, start), actions, U);
    var s := Final(cfg, ttl, start, actions, U);
    assert DeliveryOk(s.gets, d);
    var b :| FlightBody(s.gets[..d.after], FlightKey(d.pkg.Id()), b) && d.sent <= b && (d.complete ==> d.sent == b);
    g :| g in s.gets[..d.after] && g.result == Fetched(b) && FlightKey(g.pkg.Id()) == FlightKey(d.pkg.Id());
    assert g in s.gets;
    FlightKeyInjective(g.pkg.Id(), d.pkg.Id());
  }

  lemma DeterminedRunsAreTransparent(cfg: RetryConfig, ttl: int, start: int, actions: seq<Action>, U: iset<Package>)
    requires WellFormedRequests(U) && TripleDetermines(U) && cfg.maxAttempts >= 1
    requires RunsFrom(cfg, ttl, start, actions, U)
    ensures Transparent(Final(cfg, ttl, start, actions, U))
  {
    var s := Final(cfg, ttl, start, actions, U);
    forall d | d in s.deliveries ensures TransparentDelivery(s.gets, d) {
      var g := ServedWasFetched(cfg, ttl, start, actions, U, d);
      assert g == GetRecord(d.pkg, Fetched(g.result.body));
    }
  }

  // ---- The converse --------------------------------------------------------------------------------

  ghost predicate Reachable(s0: State, s: State, U: iset<Package>) {
    exists actions :: IsRun(s0, actions, U) && Exec(s0, actions, U) == s
  }

  lemma {:induction false} RunExtends(s0: State, actions: seq<Action>, a: Action, U: iset<Package>)
    requires IsRun(s0, actions, U) && Enabled(Exec(s0, actions, U), a) && Requests(a, U)
    ensures IsRun(s0, actions + [a], U) && Exec(s0, actions + [a], U) == Apply(Exec(s0, actions, U), a)
    decreases |actions|
  {
    if actions == [] {
      assert [a][1..] == [];
    } else {
      RunExtends(Apply(s0, actions[0]), actions[1..], a, U);
      assert (actions + [a])[1..] == actions[1..] + [a];
    }
  }

  lemma Extend(s0: State, s: State, a: Action, U: iset<Package>) returns (s': State)
    requires Reachable(s0, s, U) && Enabled(s, a) && Requests(a, U)
    ensures s' == Apply(s, a) && Reachable(s0, s', U)
  {
    s' := Apply(s, a);
    var actions :| IsRun(s0, actions, U) && Exec(s0, actions, U) == s;
    RunExtends(s0, actions, a, U);
    assert Exec(s0, actions + [a], U) == s';
  }

  /** A first request, alone, misses everywhere and is scanned. */
  lemma LoneMiss(s0: State, p: Package, U: iset<Package>) returns (s: State)
    requires exists cfg, ttl, start :: s0 == Empty(cfg, ttl, start)
    requires p in U
    ensures Reachable(s0, s, U) && s == s0.(requests := map[0 := Request(p, Scanning, false, 0, false)])
  {
    assert IsRun(s0, [], U) && Exec(s0, [], U) == s0;
    s := Extend(s0, s0, Arrive(0, p), U);
    s := Extend(s0, s, RedisGet(0, true), U);
    s := Extend(s0, s, TableGet(0, true), U);
  }

  /** It gets as far as leading a flight. */
  lemma LoneLeader(s0: State, p: Package, U: iset<Package>) returns (s: State)
    requires exists cfg, ttl, start :: s0 == Empty(cfg, ttl, start)
    requires p in U
    ensures Reachable(s0, s, U)
    ensures s.requests == map[0 := Request(p, Limiting, true, 0, false)]
    ensures var k := FlightKey(p.Id());
            s.flights == SF.State(map[k := 0], [SF.Cell(k, 0, None, false)], map[0 := SF.Thread(k, SF.Running(0))])
    ensures s.cfg == s0.cfg && s.redis == map[] && s.store == map[] && s.gets == [] && s.deliveries == []
    ensures s.tasks == map[] && s.nextTask == 0
  {
    s := LoneMiss(s0, p, U);
    s := Extend(s0, s, Scanned(0, Security.Allow), U);
    s := Extend(s0, s, DoEnter(0), U);
  }

  function LoneFlight(k: string, result: Option<FetchResult>, done: bool, pc: SF.Pc<FetchResult>): SF.State<FetchResult> {
    SF.State(map[k := 0], [SF.Cell(k, 0, result, done)], map[0 := SF.Thread(k, pc)])
  }

  lemma LoneFlightRuns(k: string, r: FetchResult)
    ensures var f0 := LoneFlight(k, None, false, SF.Running(0));
            && SF.Enabled(f0, SF.FnReturn(0, r))
            && SF.Apply(f0, SF.FnReturn(0, r)) == LoneFlight(k, Some(r), false, SF.Assigned(0))
    ensures var f1 := LoneFlight(k, Some(r), false, SF.Assigned(0));
            && SF.Enabled(f1, SF.Signal(0))
            && SF.Apply(f1, SF.Signal(0)) == LoneFlight(k, Some(r), true, SF.Signalled(0))
    ensures var f2 := LoneFlight(k, Some(r), true, SF.Signalled(0));
            && SF.Enabled(f2, SF.Remove(0))
            && SF.Apply(f2, SF.Remove(0)).threads == map[0 := SF.Thread(k, SF.Returned(0, true, Some(r)))]
  {
  }

  predicate SameStores(s: State, t: State) {
    && s.cfg == t.cfg && s.redis == t.redis && s.store == t.store && s.gets == t.gets
    && s.deliveries == t.deliveries && s.tasks == t.tasks && s.nextTask == t.nextTask
  }

  /** The leader's fn returns r and single flight is left. */
  lemma LoneReturn(s0: State, s1: State, k: string, r: FetchResult, U: iset<Package>) returns (s: State)
    requires Reachable(s0, s1, U) && 0 in s1.requests && s1.requests[0].pc == Fetching(Exit(r))
    requires s1.flights == LoneFlight(k, None, false, SF.Running(0))
    ensures Reachable(s0, s, U) && SameStores(s, s1)
    ensures s.requests == s1.requests[0 := s1.requests[0].(pc := DoReturned(true, Some(r)))]
  {
    s := LoneFn(s0, s1, k, r, U);
    s := LoneExit(s0, s, k, r, U);
    assert s.requests == s1.requests[0 := s1.requests[0].(pc := DoReturned(true, Some(r)))];
  }

  lemma LoneFn(s0: State, s1: State, k: string, r: FetchResult, U: iset<Package>) returns (s: State)
    requires Reachable(s0, s1, U) && 0 in s1.requests && s1.requests[0].pc == Fetching(Exit(r))
    requires s1.flights == LoneFlight(k, None, false, SF.Running(0))
    ensures Reachable(s0, s, U) && SameStores(s, s1) && s.flights == LoneFlight(k, Some(r), false, SF.Assigned(0))
    ensures s.requests == s1.requests[0 := s1.requests[0].(pc := InFlight)]
  {
    LoneFlightRuns(k, r);
    s := Extend(s0, s1, FnReturn(0), U);
  }

  lemma LoneExit(s0: State, s1: State, k: string, r: FetchResult, U: iset<Package>) returns (s: State)
    requires Reachable(s0, s1, U) && 0 in s1.requests && s1.requests[0].pc == InFlight
    requires s1.flights == LoneFlight(k, Some(r), false, SF.Assigned(0))
    ensures Reachable(s0, s, U) && SameStores(s, s1)
    ensures s.requests == s1.requests[0 := s1.requests[0].(pc := DoReturned(true, Some(r)))]
  {
    LoneFlightRuns(k, r);
    s := Extend(s0, s1, DoSignal(0), U);
    assert s.flights == LoneFlight(k, Some(r), true, SF.Signalled(0));
    s := Extend(s0, s, DoRemove(0), U);
  }

  /** A lone leader whose fetch gave body b stores it and is about to reply. */
  lemma LoneStore(s0: State, s1: State, p: Package, b: Bytes, U: iset<Package>) returns (s: State)
    requires Reachable(s0, s1, U) && 0 in s1.requests
    requires s1.requests[0].pkg == p && s1.requests[0].pc == DoReturned(true, Some(Fetched(b)))
    ensures Reachable(s0, s, U)
    ensures s.requests.Keys == s1.requests.Keys && s.requests[0].pkg == p && s.requests[0].pc == Replying(b)
    ensures s.redis == s1.redis && s.gets == s1.gets && s.deliveries == s1.deliveries
    ensures s1.store == map[] ==> s.store == map[p.CacheKey() := b]
    ensures s.tasks == s1.tasks[s1.nextTask := SetThenUpsert(p.Id(), p.CacheKey(), |b|)]
  {
    s := LoneCount(s0, s1, b, U);
    s := Extend(s0, s, Put(0, IfAbsent), U);
  }

  lemma LoneCount(s0: State, s1: State, b: Bytes, U: iset<Package>) returns (s: State)
    requires Reachable(s0, s1, U) && 0 in s1.requests && s1.requests[0].pc == DoReturned(true, Some(Fetched(b)))
    ensures Reachable(s0, s, U) && SameStores(s, s1)
    ensures s.requests == s1.requests[0 := s1.requests[0].(pc := Storing(b), completed := true)]
  {
    s := Extend(s0, s1, CountFetch(0), U);
  }

  /** What a lone leader fetches: b when attempts are allowed, nothing, and without a GET, when none is. */
  lemma LoneFetch(s0: State, p: Package, b: Bytes, U: iset<Package>) returns (s: State)
    requires exists cfg, ttl, start :: s0 == Empty(cfg, ttl, start)
    requires p in U && (s0.cfg.maxAttempts <= 0 ==> b == [])
    ensures Reachable(s0, s, U)
    ensures s.requests.Keys == {0} && s.requests[0].pkg == p && s.requests[0].pc == Fetching(Exit(Fetched(b)))
    ensures s.flights == LoneFlight(FlightKey(p.Id()), None, false, SF.Running(0))
    ensures s.gets == if s0.cfg.maxAttempts <= 0 then [] else [GetRecord(p, Fetched(b))]
    ensures s.redis == map[] && s.store == map[] && s.deliveries == [] && s.tasks == map[] && s.nextTask == 0
  {
    s := LoneLeader(s0, p, U);
    s := LoneAttempt(s0, s, p, b, U);
  }

  lemma LoneAttempt(s0: State, s1: State, p: Package, b: Bytes, U: iset<Package>) returns (s: State)
    requires Reachable(s0, s1, U) && s1.requests == map[0 := Request(p, Limiting, true, 0, false)]
    requires s1.gets == [] && (s1.cfg.maxAttempts <= 0 ==> b == [])
    ensures Reachable(s0, s, U)
    ensures s.requests.Keys == {0} && s.requests[0].pkg == p && s.requests[0].pc == Fetching(Exit(Fetched(b)))
    ensures s.flights == s1.flights && s.gets == if s1.cfg.maxAttempts <= 0 then [] else [GetRecord(p, Fetched(b))]
    ensures s.redis == s1.redis && s.store == s1.store && s.deliveries == s1.deliveries
    ensures s.tasks == s1.tasks && s.nextTask == s1.nextTask
  {
    s := Extend(s0, s1, LimiterWait(0, true), U);
    if s1.cfg.maxAttempts >= 1 {
      s := LoneGet(s0, s, p, b, U);
    }
  }

  lemma LoneGet(s0: State, s1: State, p: Package, b: Bytes, U: iset<Package>) returns (s: State)
    requires Reachable(s0, s1, U) && s1.requests == map[0 := Request(p, Fetching(Get(0)), true, 0, false)] && s1.gets == []
    ensures Reachable(s0, s, U)
    ensures s.requests.Keys == {0} && s.requests[0].pkg == p && s.requests[0].pc == Fetching(Exit(Fetched(b)))
    ensures s == s1.(requests := s.requests, gets := [GetRecord(p, Fetched(b))], counters := s.counters)
  {
    s := Extend(s0, s1, UpstreamGet(0, Fetched(b)), U);
  }

  /** Two packages that share a triple: the second is served what was fetched for the first. */
  lemma SharedTripleConfuses(cfg: RetryConfig, ttl: int, start: int, p: Package, q: Package, b: Bytes, U: iset<Package>)
    returns (s: State)
    requires cfg.maxAttempts >= 1 && p in U && q in U && p != q && p.Id() == q.Id()
    ensures Reachable(Empty(cfg, ttl, start), s, U)
    ensures s.gets == [GetRecord(p, Fetched(b))]
    ensures Delivery(q, Hit, b, true, 1) in s.deliveries
    ensures !Transparent(s)
  {
    var s0 := Empty(cfg, ttl, start);
    s := LoneFetch(s0, p, b, U);
    s := LoneReturn(s0, s, FlightKey(p.Id()), Fetched(b), U);
    s := LoneStore(s0, s, p, b, U);
    s := LoneIndexed(s0, s, p, b, U);
    s := SecondIsServed(s0, s, p, q, b, U);
    var d := Delivery(q, Hit, b, true, 1);
    assert d in s.deliveries;
    assert !TransparentDelivery(s.gets, d);
  }

  /** The goroutine left behind writes the Redis entry. */
  lemma LoneIndexed(s0: State, s1: State, p: Package, b: Bytes, U: iset<Package>) returns (s: State)
    requires Reachable(s0, s1, U) && s1.redis == map[]
    requires 0 in s1.tasks && s1.tasks[0] == SetThenUpsert(p.Id(), p.CacheKey(), |b|)
    ensures Reachable(s0, s, U) && s.redis == map[RedisKey(p.Id()) := p.CacheKey()]
    ensures s.store == s1.store && s.gets == s1.gets && s.deliveries == s1.deliveries && s.requests == s1.requests
  {
    s := Extend(s0, s1, TaskStep(0, true), U);
  }

  lemma SecondIsServed(s0: State, s1: State, p: Package, q: Package, b: Bytes, U: iset<Package>) returns (s: State)
    requires Reachable(s0, s1, U) && q in U && p.Id() == q.Id() && 1 !in s1.requests
    requires s1.redis == map[RedisKey(p.Id()) := p.CacheKey()] && s1.store == map[p.CacheKey() := b]
    requires |s1.gets| == 1
    ensures Reachable(s0, s, U) && s.gets == s1.gets && s.deliveries == s1.deliveries + [Delivery(q, Hit, b, true, 1)]
  {
    s := Extend(s0, s1, Arrive(1, q), U);
    s := Extend(s0, s, RedisGet(1, true), U);
    s := Extend(s0, s, ReadForRedis(1, true, |b|), U);
    assert b[..|b|] == b;
  }

  /** With no attempt allowed, the fetch loop returns no error and no bytes, and that is served and stored. */
  lemma NoAttemptServesNothing(cfg: RetryConfig, ttl: int, start: int, p: Package, U: iset<Package>) returns (s: State)
    requires cfg.maxAttempts <= 0 && p in U
    ensures Reachable(Empty(cfg, ttl, start), s, U)
    ensures s.gets == [] && s.deliveries == [Delivery(p, Miss, [], true, 0)]
    ensures !Transparent(s)
  {
    var s0 := Empty(cfg, ttl, start);
    s := LoneFetch(s0, p, [], U);
    s := LoneReturn(s0, s, FlightKey(p.Id()), Fetched([]), U);
    s := LoneStore(s0, s, p, [], U);
    s := LoneReply(s0, s, p, U);
    assert !TransparentDelivery(s.gets, Delivery(p, Miss, [], true, 0));
  }

  lemma LoneReply(s0: State, s1: State, p: Package, U: iset<Package>) returns (s: State)
    requires Reachable(s0, s1, U) && 0 in s1.requests && s1.requests[0].pkg == p && s1.requests[0].pc == Replying([])
    requires s1.gets == [] && s1.deliveries == []
    ensures Reachable(s0, s, U) && s.gets == [] && s.deliveries == [Delivery(p, Miss, [], true, 0)]
  {
    s := Extend(s0, s1, CacheSystem.Reply(0, 0), U);
    var none: Bytes := [];
    assert s.deliveries == [Delivery(p, Miss, none, true, 0)];
  }

  /** Exactly when every run is transparent: at least one attempt is allowed, and no two of the packages that
      clients ask for share ecosystem, name and version. */
  lemma TransparencyIff(cfg: RetryConfig, ttl: int, start: int, U: iset<Package>)
    requires WellFormedRequests(U) && exists p :: p in U
    ensures (forall s :: Reachable(Empty(cfg, ttl, start), s, U) ==> Transparent(s))
            <==> cfg.maxAttempts >= 1 && TripleDetermines(U)
  {
    var s0 := Empty(cfg, ttl, start);
    if cfg.maxAttempts <= 0 {
      var p :| p in U;
      var s := NoAttemptServesNothing(cfg, ttl, start, p, U);
    } else if !TripleDetermines(U) {
      var p, q :| p in U && q in U && p.Id() == q.Id() && p != q;
      var s := SharedTripleConfuses(cfg, ttl, start, p, q, [1], U);
    } else {
      forall s | Reachable(s0, s, U) ensures Transparent(s) {
        var actions :| IsRun(s0, actions, U) && Exec(s0, actions, U) == s;
        DeterminedRunsAreTransparent(cfg, ttl, start, actions, U);
      }
    }
  }
}
