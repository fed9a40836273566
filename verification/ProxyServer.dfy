/** Proxy.serve as an imperative program over its stores (internal/proxy/proxy.go): what it answers and leaves
    behind, alone, after a miss, after a block and with followers; and that its calls are a run of the system
    in which requests interleave. The requests, fetches and deliveries are history. */
module ProxyServer {
  import opened Foundation
  import opened Keys
  import opened ObjectStore
  import opened PackageStore
  import opened RedisCache
  import opened Upstream
  import opened CacheSystem
  import opened Transparency
  import opened SerialRuns
  import Accounting
  import SF = SingleFlight
  import Security

  /** What the client gets. */
  datatype Answer = Ok200(kind: EventKind, body: Bytes) | Error(code: int)

  /** How the calls that one request makes turn out. */
  datatype Calls = Calls(
    redis: bool, readForRedis: bool, table: bool, readForTable: bool, scan: Security.Outcome,
    wait: bool, responses: nat -> Response, cancelled: nat -> bool, jitter: nat -> real, put: PutMode)

  /** How far a request gets: a hit in Redis or Postgres, a blocked row, a blocking scan, or the upstream. */
  datatype Route = L1(body: Bytes) | L2(body: Bytes) | RowRefuses | ScanRefuses | L3

  class Proxy {
    const cfg: RetryConfig
    const ttl: int
    const cache: Client
    const db: Database
    const store: Backend
    var now: int
    var flights: SF.State<FetchResult>
    var goroutines: map<nat, Task>
    var nextTask: nat
    var counters: Counters
    ghost var requests: map<nat, Request>
    ghost var evictor: Evictor
    ghost var gets: seq<GetRecord>
    ghost var deliveries: seq<Delivery>

    /** The system's state. */
    ghost function System(): State
      reads this, cache, db, store
    {
      State(cfg, ttl, now, Live(cache.entries, now), db.table, db.events, store.objects, flights, requests, goroutines, nextTask,
            evictor, gets, deliveries, counters)
    }

    ghost predicate Valid()
      reads db
    {
      ValidTable(db.table) && cache.ttl > 0
    }

    constructor (cfg: RetryConfig, ttl: int, cacheTtl: int, now: int)
      requires cacheTtl >= 0
      ensures Valid() && fresh(cache) && fresh(db) && fresh(store)
      ensures System() == Empty(cfg, ttl, now)
    {
      this.cfg, this.ttl, this.now := cfg, ttl, now;
      cache := new Client(cacheTtl);
      db := new Database();
      store := new Backend(map[]);
      flights, goroutines, nextTask, counters := SF.Initial(), map[], 0, Counters(0, 0, 0, 0, 0, 0, 0, 0, 0, 0, 0, 0);
      requests, evictor, gets, deliveries := map[], Idle, [], [];
    }

    /** L1: hit says what was streamed from storage. */
    method ReadThroughRedis(ghost s0: State, ghost U: iset<Package>, ghost rid: nat, p: Package, calls: Calls)
      returns (hit: Option<Bytes>)
      requires Reachable(s0, System(), U) && p in U && rid !in requests
      modifies `requests, `deliveries, `goroutines, `nextTask
      ensures Reachable(s0, System(), U)
      ensures hit == if calls.redis && calls.readForRedis then RedisObject(old(System()), p) else None
      ensures System() == if hit.Some?
                          then Answered(old(System()), rid, Fresh(p, Returned(Served(Hit, |hit.value|))), Hit, hit.value,
                                        Some(TouchThenEvent(p.Id(), |hit.value|)))
                          else At(old(System()), rid, Fresh(p, TableLookup))
    {
      ghost var before := System();
      ghost var s := RedisGetRuns(s0, before, rid, p, calls.redis, U);
      var checksum := cache.Get(p.Id(), now, calls.redis);
      if checksum.Some? {
        var c := checksum.value;
        requests := requests[rid := Fresh(p, RedisRead(c))];
        assert System() == s;
        hit := ReadForL1(s0, U, rid, p, c, calls.readForRedis);
        L1Again(before, rid, p, c, if hit.Some? then hit.value else []);
      } else {
        hit := None;
        requests := requests[rid := Fresh(p, TableLookup)];
      }
    }

    method ReadForL1(ghost s0: State, ghost U: iset<Package>, ghost rid: nat, p: Package, c: string, ok: bool)
      returns (hit: Option<Bytes>)
      requires Reachable(s0, System(), U) && rid in requests && requests[rid] == Fresh(p, RedisRead(c))
      modifies `requests, `deliveries, `goroutines, `nextTask
      ensures Reachable(s0, System(), U)
      ensures hit == if ok && c in store.objects then Some(store.objects[c]) else None
      ensures System() == if hit.Some?
                          then Answered(old(System()), rid, Fresh(p, Returned(Served(Hit, |hit.value|))), Hit, hit.value,
                                        Some(TouchThenEvent(p.Id(), |hit.value|)))
                          else At(old(System()), rid, Fresh(p, TableLookup))
    {
      ghost var s := ReadForRedisRuns(s0, System(), rid, p, c, ok, U);
      hit := store.Get(c, ok);
      if hit.Some? {
        deliveries := deliveries + [Delivery(p, Hit, hit.value, true, |gets|)];
        goroutines, nextTask := goroutines[nextTask := TouchThenEvent(p.Id(), |hit.value|)], nextTask + 1;
        requests := requests[rid := Fresh(p, Returned(Served(Hit, |hit.value|)))];
      } else {
        requests := requests[rid := Fresh(p, TableLookup)];
      }
    }

    /** L2: hit says what was streamed from storage, blocked that the row refuses the package. */
    method ReadThroughTable(ghost s0: State, ghost U: iset<Package>, ghost rid: nat, p: Package, calls: Calls)
      returns (blocked: bool, hit: Option<Bytes>)
      requires Reachable(s0, System(), U) && rid in requests && requests[rid] == Fresh(p, TableLookup)
      modifies `requests, `deliveries, `goroutines, `nextTask
      ensures Reachable(s0, System(), U)
      ensures blocked == (calls.table && IsBlocked(old(System()), p))
      ensures hit == if calls.table && calls.readForTable then TableObject(old(System()), p) else None
      ensures hit.Some? ==> p.Id() in db.table.rows
      ensures System() == if hit.Some?
                          then Answered(old(System()), rid, Fresh(p, Returned(Served(Hit, |hit.value|))), Hit, hit.value,
                                        Some(SetThenEvent(p.Id(), db.table.rows[p.Id()].checksum, |hit.value|)))
                          else At(old(System()), rid, Fresh(p, if blocked then Returned(Refused(403)) else Scanning))
    {
      ghost var before := System();
      ghost var s := TableGetRuns(s0, before, rid, p, calls.table, U);
      blocked, hit := false, None;
      var row := db.GetPackage(p.Id(), calls.table);
      if row.None? {
        requests := requests[rid := Fresh(p, Scanning)];
      } else if row.value.status.Blocked? {
        blocked := true;
        requests := requests[rid := Fresh(p, Returned(Refused(403)))];
      } else {
        var c := row.value.checksum;
        requests := requests[rid := Fresh(p, TableRead(c))];
        assert System() == s;
        hit := ReadForL2(s0, U, rid, p, c, calls.readForTable);
        L2Again(before, rid, p, c, if hit.Some? then hit.value else []);
      }
    }

    method ReadForL2(ghost s0: State, ghost U: iset<Package>, ghost rid: nat, p: Package, c: string, ok: bool)
      returns (hit: Option<Bytes>)
      requires Reachable(s0, System(), U) && rid in requests && requests[rid] == Fresh(p, TableRead(c))
      modifies `requests, `deliveries, `goroutines, `nextTask
      ensures Reachable(s0, System(), U)
      ensures hit == if ok && c in store.objects then Some(store.objects[c]) else None
      ensures System() == if hit.Some?
                          then Answered(old(System()), rid, Fresh(p, Returned(Served(Hit, |hit.value|))), Hit, hit.value,
                                        Some(SetThenEvent(p.Id(), c, |hit.value|)))
                          else At(old(System()), rid, Fresh(p, Scanning))
    {
      ghost var s := ReadForTableRuns(s0, System(), rid, p, c, ok, U);
      hit := store.Get(c, ok);
      if hit.Some? {
        deliveries := deliveries + [Delivery(p, Hit, hit.value, true, |gets|)];
        goroutines, nextTask := goroutines[nextTask := SetThenEvent(p.Id(), c, |hit.value|)], nextTask + 1;
        requests := requests[rid := Fresh(p, Returned(Served(Hit, |hit.value|)))];
      } else {
        requests := requests[rid := Fresh(p, Scanning)];
      }
    }

    method RefuseBlocked(ghost s0: State, ghost U: iset<Package>, ghost rid: nat, p: Package)
      requires Reachable(s0, System(), U) && rid in requests && requests[rid] == Fresh(p, Scanning) && rid !in flights.threads
      modifies `requests, `goroutines, `nextTask
      ensures Reachable(s0, System(), U)
      ensures requests == old(requests)[rid := Fresh(p, Returned(Refused(403)))]
      ensures goroutines == old(goroutines)[old(nextTask) := MarkBlocked(p.Id())] && nextTask == old(nextTask) + 1
    {
      ghost var s := BlockRuns(s0, System(), rid, p, U);
      goroutines, nextTask := goroutines[nextTask := MarkBlocked(p.Id())], nextTask + 1;
      requests := requests[rid := Fresh(p, Returned(Refused(403)))];
      assert System() == s;
    }

    /** sf.Do up to the call of fn: nobody else is in a flight for this package. */
    method EnterFlight(ghost s0: State, ghost U: iset<Package>, rid: nat, p: Package, scan: Security.Outcome)
      requires Reachable(s0, System(), U) && rid in requests && requests[rid] == Fresh(p, Scanning)
      requires rid !in flights.threads && FlightKey(p.Id()) !in flights.calls && !scan.Block?
      modifies `requests, `flights
      ensures Reachable(s0, System(), U)
      ensures requests == old(requests)[rid := Request(p, Limiting, true, 0, false)]
      ensures flights == Entered(old(flights), rid, FlightKey(p.Id()))
    {
      ghost var before := System();
      ghost var s := ScanRuns(s0, before, rid, p, scan, U);
      s := EnterRuns(s0, s, rid, p, before.flights, U);
      AtAgain(before, rid, Fresh(p, InFlight), Request(p, Limiting, true, 0, false), Hit, [], None);
      flights := Entered(flights, rid, FlightKey(p.Id()));
      requests := requests[rid := Request(p, Limiting, true, 0, false)];
      assert System() == s;
    }

    /** sf.Do up to the wait: somebody else is in a flight for this package. */
    method JoinFlight(ghost s0: State, ghost U: iset<Package>, rid: nat, p: Package, scan: Security.Outcome)
      requires Reachable(s0, System(), U) && rid in requests && requests[rid] == Fresh(p, Scanning)
      requires rid !in flights.threads && FlightKey(p.Id()) in flights.calls && !scan.Block?
      modifies `requests, `flights
      ensures Reachable(s0, System(), U)
      ensures requests == old(requests)[rid := Fresh(p, InFlight)]
      ensures flights == Joined(old(flights), rid, FlightKey(p.Id()))
    {
      ghost var before := System();
      ghost var s := ScanRuns(s0, before, rid, p, scan, U);
      s := JoinRuns(s0, s, rid, p, before.flights, U);
      flights := Joined(flights, rid, FlightKey(p.Id()));
      requests := requests[rid := Fresh(p, InFlight)];
      assert System() == s;
    }

    /** What fn returns: the error of the limiter, or what fetchFromUpstream returns. */
    method Fetch(ghost s0: State, ghost U: iset<Package>, ghost rid: nat, p: Package, calls: Calls) returns (r: FetchResult, n: nat)
      requires Reachable(s0, System(), U) && rid in requests && requests[rid] == Request(p, Limiting, true, 0, false)
      modifies `requests, `gets, `counters
      ensures Reachable(s0, System(), U)
      ensures IsFetch(cfg, calls, r, n)
      ensures requests == old(requests)[rid := Request(p, Fetching(Exit(r)), true, n, false)]
      ensures gets == old(gets) + Records(p, Results(calls.responses), 0, n)
      ensures counters == old(counters).(waits := old(counters).waits + 1)
    {
      ghost var before := System();
      r, n := CallFn(cfg, calls);
      ghost var s := FetchRuns(s0, before, rid, p, calls.wait, Results(calls.responses), calls.cancelled, r, n, U);
      counters := counters.(waits := counters.waits + 1);
      gets := gets + Records(p, Results(calls.responses), 0, n);
      requests := requests[rid := Request(p, Fetching(Exit(r)), true, n, false)];
      assert System() == s;
    }

    /** sf.Do after fn has returned r. */
    method LeaveFlight(ghost s0: State, ghost U: iset<Package>, rid: nat, p: Package, r: FetchResult, ghost n: nat, ghost c: nat)
      requires Reachable(s0, System(), U) && rid in requests && requests[rid] == Request(p, Fetching(Exit(r)), true, n, false)
      requires RunsFn(flights, rid, FlightKey(p.Id()), c)
      modifies `requests, `flights
      ensures Reachable(s0, System(), U)
      ensures requests == old(requests)[rid := Request(p, DoReturned(true, Some(r)), true, n, false)]
      ensures flights == LeftWith(old(flights), rid, FlightKey(p.Id()), c, r)
    {
      ghost var s := LeaveRuns(s0, System(), rid, p, r, n, c, U);
      LeaderLeaves(flights, rid, FlightKey(p.Id()), c, r);
      flights := SF.Apply(flights, SF.FnReturn(rid, r));
      flights := SF.Apply(flights, SF.Signal(rid));
      flights := SF.Apply(flights, SF.Remove(rid));
      requests := requests[rid := Request(p, DoReturned(true, Some(r)), true, n, false)];
      assert System() == s;
    }

    /** The end of a follower's wait, and its answer: nothing is stored and no goroutine is left. */
    method FinishFollower(ghost s0: State, ghost U: iset<Package>, rid: nat, p: Package, c: nat, r: FetchResult) returns (answer: Answer)
      requires Reachable(s0, System(), U) && rid in requests && requests[rid] == Fresh(p, InFlight)
      requires MayWake(flights, rid, FlightKey(p.Id()), c, r)
      modifies `requests, `flights, `counters, `deliveries
      ensures Reachable(s0, System(), U)
      ensures requests.Keys == old(requests).Keys && (forall i :: i in requests && i != rid ==> requests[i] == old(requests)[i])
      ensures flights == Woken(old(flights), rid, FlightKey(p.Id()), c, r)
      ensures answer == AnswerOf(r)
      ensures deliveries == old(deliveries) + (if r.Fetched? then [Delivery(p, Miss, r.body, true, |gets|)] else [])
    {
      ghost var s := WakeRuns(s0, System(), rid, p, c, r, U);
      flights := Woken(flights, rid, FlightKey(p.Id()), c, r);
      requests := requests[rid := Fresh(p, DoReturned(false, Some(r)))];
      assert System() == s;
      answer := AnswerFollower(s0, U, rid, p, r);
    }

    method AnswerFollower(ghost s0: State, ghost U: iset<Package>, ghost rid: nat, p: Package, r: FetchResult) returns (answer: Answer)
      requires Reachable(s0, System(), U) && rid in requests && requests[rid] == Fresh(p, DoReturned(false, Some(r)))
      modifies `requests, `counters, `deliveries
      ensures Reachable(s0, System(), U)
      ensures requests.Keys == old(requests).Keys && (forall i :: i in requests && i != rid ==> requests[i] == old(requests)[i])
      ensures answer == AnswerOf(r)
      ensures deliveries == old(deliveries) + (if r.Fetched? then [Delivery(p, Miss, r.body, true, |gets|)] else [])
    {
      ghost var s := FollowerCountRuns(s0, System(), rid, p, r, U);
      match r
      case Failed(e) =>
        requests := requests[rid := Fresh(p, Returned(Refused(StatusOf(e))))];
        answer := Error(StatusOf(e));
      case Fetched(b) =>
        counters := counters.(followers := counters.followers + 1);
        requests := requests[rid := Fresh(p, Replying(b))];
        assert System() == s;
        s := FollowerReplyRuns(s0, s, rid, p, b, U);
        deliveries := deliveries + [Delivery(p, Miss, b, true, |gets|)];
        requests := requests[rid := Fresh(p, Returned(Served(Miss, |b|)))];
        answer := Ok200(Miss, b);
    }

    /** The metrics of a leader's fetch. */
    method CountFetch(ghost s0: State, ghost U: iset<Package>, ghost rid: nat, p: Package, r: FetchResult, ghost n: nat)
      requires Reachable(s0, System(), U) && rid in requests && requests[rid] == Request(p, DoReturned(true, Some(r)), true, n, false)
      modifies `requests, `counters
      ensures Reachable(s0, System(), U)
      ensures requests == old(requests)[rid := Request(p,
                if r.Failed? then Returned(Refused(if r.error.RateLimited? then 429 else 502)) else Storing(r.body), true, n, true)]
    {
      ghost var s := CountRuns(s0, System(), rid, p, r, n, U);
      if r.Failed? {
        counters := counters.(fetchErrors := counters.fetchErrors + 1);
        requests := requests[rid := Request(p, Returned(Refused(StatusOf(r.error))), true, n, true)];
      } else {
        counters := counters.(fetchOk := counters.fetchOk + 1);
        requests := requests[rid := Request(p, Storing(r.body), true, n, true)];
      }
      assert System() == s;
    }

    /** storage.Put, and the goroutine that indexes the artifact. */
    method StoreFetched(ghost s0: State, ghost U: iset<Package>, ghost rid: nat, p: Package, b: Bytes, ghost n: nat, put: PutMode)
      requires Reachable(s0, System(), U) && rid in requests && requests[rid] == Request(p, Storing(b), true, n, true)
      modifies `requests, `counters, store`objects, `goroutines, `nextTask
      ensures Reachable(s0, System(), U)
      ensures requests == old(requests)[rid := Request(p, Replying(b), true, n, true)]
      ensures store.objects == StoreAfter(old(store.objects), p.CacheKey(), b, put)
      ensures goroutines == old(goroutines)[old(nextTask) := SetThenUpsert(p.Id(), p.CacheKey(), |b|)] && nextTask == old(nextTask) + 1
    {
      ghost var s := PutRuns(s0, System(), rid, p, b, n, put, U);
      store.Put(p.CacheKey(), b, put);
      counters := counters.(puts := counters.puts + 1);
      goroutines, nextTask := goroutines[nextTask := SetThenUpsert(p.Id(), p.CacheKey(), |b|)], nextTask + 1;
      requests := requests[rid := Request(p, Replying(b), true, n, true)];
      assert System() == s;
    }

    method Reply(ghost s0: State, ghost U: iset<Package>, ghost rid: nat, p: Package, b: Bytes, ghost n: nat)
      requires Reachable(s0, System(), U) && rid in requests && requests[rid] == Request(p, Replying(b), true, n, true)
      modifies `requests, `deliveries
      ensures Reachable(s0, System(), U)
      ensures requests == old(requests)[rid := Request(p, Returned(Served(Miss, |b|)), true, n, true)]
      ensures deliveries == old(deliveries) + [Delivery(p, Miss, b, true, |gets|)]
    {
      ghost var s := ReplyRuns(s0, System(), rid, p, b, n, U);
      deliveries := deliveries + [Delivery(p, Miss, b, true, |gets|)];
      requests := requests[rid := Request(p, Returned(Served(Miss, |b|)), true, n, true)];
      assert System() == s;
    }

    method Conclude(ghost s0: State, ghost U: iset<Package>, ghost rid: nat, p: Package, r: FetchResult, ghost n: nat, put: PutMode)
      returns (answer: Answer)
      requires Reachable(s0, System(), U) && rid in requests && requests[rid] == Request(p, DoReturned(true, Some(r)), true, n, false)
      modifies `requests, `deliveries, `goroutines, `nextTask, `counters, store`objects
      ensures Reachable(s0, System(), U)
      ensures FetchAnswered(old(System()), System(), p, put, r, answer)
      ensures requests.Keys == old(requests).Keys && (forall i :: i in requests && i != rid ==> requests[i] == old(requests)[i])
    {
      CountFetch(s0, U, rid, p, r, n);
      if r.Failed? {
        answer := Error(StatusOf(r.error));
      } else {
        StoreFetched(s0, U, rid, p, r.body, n, put);
        Reply(s0, U, rid, p, r.body, n);
        answer := Ok200(Miss, r.body);
      }
    }

    method EnterAndFetch(ghost s0: State, ghost U: iset<Package>, rid: nat, p: Package, calls: Calls) returns (r: FetchResult, n: nat)
      requires Reachable(s0, System(), U) && rid in requests && requests[rid] == Fresh(p, Scanning) && !calls.scan.Block?
      requires rid !in flights.threads && FlightKey(p.Id()) !in flights.calls
      modifies `requests, `flights, `gets, `counters
      ensures Reachable(s0, System(), U)
      ensures IsFetch(cfg, calls, r, n) && gets == old(gets) + Records(p, Results(calls.responses), 0, n)
      ensures requests == old(requests)[rid := Request(p, Fetching(Exit(r)), true, n, false)]
      ensures flights == Entered(old(flights), rid, FlightKey(p.Id()))
    {
      EnterFlight(s0, U, rid, p, calls.scan);
      r, n := Fetch(s0, U, rid, p, calls);
    }

    method FetchAlone(ghost s0: State, ghost U: iset<Package>, rid: nat, p: Package, calls: Calls) returns (r: FetchResult, n: nat)
      requires Reachable(s0, System(), U) && rid in requests && requests[rid] == Fresh(p, Scanning) && !calls.scan.Block?
      requires rid !in flights.threads && FlightKey(p.Id()) !in flights.calls
      modifies `requests, `flights, `gets, `counters
      ensures Reachable(s0, System(), U)
      ensures IsFetch(cfg, calls, r, n) && gets == old(gets) + Records(p, Results(calls.responses), 0, n)
      ensures requests == old(requests)[rid := Request(p, DoReturned(true, Some(r)), true, n, false)]
      ensures flights.calls == old(flights).calls && flights.threads.Keys == old(flights).threads.Keys + {rid}
    {
      ghost var f, m := flights, requests;
      r, n := EnterAndFetch(s0, U, rid, p, calls);
      LeaveEntered(s0, U, rid, p, r, n, f, m);
    }

    /** sf.Do after fn, for a leader that entered from f, when the requests were m. */
    method LeaveEntered(ghost s0: State, ghost U: iset<Package>, rid: nat, p: Package, r: FetchResult, ghost n: nat,
                        ghost f: SF.State<FetchResult>, ghost m: map<nat, Request>)
      requires Reachable(s0, System(), U) && requests == m[rid := Request(p, Fetching(Exit(r)), true, n, false)]
      requires FlightKey(p.Id()) !in f.calls && flights == Entered(f, rid, FlightKey(p.Id()))
      modifies `requests, `flights
      ensures Reachable(s0, System(), U)
      ensures requests == m[rid := Request(p, DoReturned(true, Some(r)), true, n, false)]
      ensures flights.calls == f.calls && flights.threads.Keys == f.threads.Keys + {rid}
    {
      EnteredAndLeft(f, rid, FlightKey(p.Id()), r);
      SecondUpdateStays(m, rid, Request(p, Fetching(Exit(r)), true, n, false), Request(p, DoReturned(true, Some(r)), true, n, false));
      LeaveFlight(s0, U, rid, p, r, n, |f.cells|);
    }

    /** The scan, and L3. */
    method ServeUpstream(ghost s0: State, ghost U: iset<Package>, rid: nat, p: Package, calls: Calls) returns (answer: Answer, n: nat)
      requires Reachable(s0, System(), U) && rid in requests && requests[rid] == Fresh(p, Scanning)
      requires rid !in flights.threads && FlightKey(p.Id()) !in flights.calls
      modifies `requests, `deliveries, `goroutines, `nextTask, `flights, `gets, `counters, store`objects
      ensures Reachable(s0, System(), U)
      ensures if calls.scan.Block? then answer == Error(403) && n == 0 && Refused403(old(System()), System(), p)
              else Upstreamed(old(System()), System(), p, calls, answer, n)
      ensures requests.Keys == old(requests).Keys && flights.threads.Keys <= old(flights).threads.Keys + {rid}
      ensures flights.calls == old(flights).calls
    {
      if calls.scan.Block? {
        RefuseBlocked(s0, U, rid, p);
        return Error(403), 0;
      }
      var r;
      r, n := FetchAlone(s0, U, rid, p, calls);
      answer := Conclude(s0, U, rid, p, r, n, calls.put);
      assert FetchAnswered(old(System()), System(), p, calls.put, r, answer);
    }

    /** L1 and L2. */
    method ServeFromIndex(ghost s0: State, ghost U: iset<Package>, ghost rid: nat, p: Package, calls: Calls)
      returns (found: Option<Answer>)
      requires Reachable(s0, System(), U) && p in U && rid !in requests
      modifies `requests, `deliveries, `goroutines, `nextTask
      ensures Reachable(s0, System(), U) && requests.Keys == old(requests).Keys + {rid}
      ensures if found.Some? then IsAnswer(old(System()), System(), p, calls, found.value, 0)
              else System() == At(old(System()), rid, Fresh(p, Scanning))
                   && RouteOf(old(System()), p, calls) == if calls.scan.Block? then ScanRefuses else L3
      ensures found.None? <==> RouteOf(old(System()), p, calls).ScanRefuses? || RouteOf(old(System()), p, calls).L3?
    {
      ghost var before := System();
      var hit := ReadThroughRedis(s0, U, rid, p, calls);
      if hit.Some? {
        L1Answers(before, rid, p, calls, hit.value);
        return Some(Ok200(Hit, hit.value));
      }
      found := ServeFromTable(s0, U, rid, p, calls, before);
    }

    /** L2, for a request that L1 has not answered; before is the state that it found. */
    method ServeFromTable(ghost s0: State, ghost U: iset<Package>, ghost rid: nat, p: Package, calls: Calls, ghost before: State)
      returns (found: Option<Answer>)
      requires Reachable(s0, System(), U) && System() == At(before, rid, Fresh(p, TableLookup))
      requires !(calls.redis && calls.readForRedis && RedisObject(before, p).Some?)
      modifies `requests, `deliveries, `goroutines, `nextTask
      ensures Reachable(s0, System(), U) && requests.Keys == old(requests).Keys
      ensures if found.Some? then IsAnswer(before, System(), p, calls, found.value, 0)
              else System() == At(before, rid, Fresh(p, Scanning))
                   && RouteOf(before, p, calls) == if calls.scan.Block? then ScanRefuses else L3
      ensures found.None? <==> RouteOf(before, p, calls).ScanRefuses? || RouteOf(before, p, calls).L3?
    {
      var blocked, hit := ReadThroughTable(s0, U, rid, p, calls);
      if blocked || hit.Some? {
        L2Answers(before, System(), rid, p, calls, blocked, hit);
        return Some(if blocked then Error(403) else Ok200(Hit, hit.value));
      }
      AtAgain(before, rid, Fresh(p, TableLookup), Fresh(p, Scanning), Hit, [], None);
      return None;
    }

    /** serve, when no other request for the package is inside single flight. */
    method Serve(ghost s0: State, ghost U: iset<Package>, rid: nat, p: Package, calls: Calls) returns (answer: Answer, n: nat)
      requires Reachable(s0, System(), U) && p in U && rid !in requests
      requires rid !in flights.threads && FlightKey(p.Id()) !in flights.calls
      modifies `requests, `deliveries, `goroutines, `nextTask, `flights, `gets, `counters, store`objects
      ensures Reachable(s0, System(), U)
      ensures IsAnswer(old(System()), System(), p, calls, answer, n)
      ensures requests.Keys == old(requests).Keys + {rid} && flights.threads.Keys <= old(flights).threads.Keys + {rid}
      ensures flights.calls == old(flights).calls
    {
      ghost var before := System();
      var found := ServeFromIndex(s0, U, rid, p, calls);
      if found.Some? {
        return found.value, 0;
      }
      answer, n := ServeUpstream(s0, U, rid, p, calls);
      UpstreamAnswers(before, System(), rid, p, calls, answer, n);
    }

    // ---- The goroutines ----------------------------------------------------------------------------

    method RecordEvent(ghost s0: State, ghost U: iset<Package>, id: nat, ok: bool)
      requires Reachable(s0, System(), U) && id in goroutines && goroutines[id].RecordEvent?
      modifies db`events, `goroutines, `counters
      ensures Reachable(s0, System(), U)
      ensures goroutines == old(goroutines) - {id}
      ensures var t := old(goroutines)[id];
              db.events == if ok then old(db.events) + [Event(t.key, t.kind, t.bytes, now)] else old(db.events)
    {
      ghost var s := RecordRuns(s0, System(), id, ok, U);
      var t := goroutines[id];
      goroutines := goroutines - {id};
      db.RecordEvent(t.key, t.kind, t.bytes, now, ok);
      counters := if ok then counters
                  else if t.kind.Hit? then counters.(lostHits := counters.lostHits + 1, lostHitBytes := counters.lostHitBytes + t.bytes)
                  else counters.(lostMisses := counters.lostMisses + 1);
      assert System() == s;
    }

    /** After an L1 hit. */
    method FinishTouch(ghost s0: State, ghost U: iset<Package>, id: nat, touch: bool, event: bool)
      requires Valid() && Reachable(s0, System(), U) && id in goroutines && goroutines[id].TouchThenEvent?
      modifies db, `goroutines, `counters
      ensures Valid() && Reachable(s0, System(), U)
      ensures goroutines == old(goroutines) - {id}
      ensures var t := old(goroutines)[id];
              && db.table == (if touch then Execute(old(db.table), TouchHit(t.key), now) else old(db.table))
              && db.events == (if event then old(db.events) + [Event(t.key, Hit, t.bytes, now)] else old(db.events))
    {
      ghost var s := TouchRuns(s0, System(), id, touch, U);
      var t := goroutines[id];
      db.TouchPackage(t.key, now, touch);
      goroutines := goroutines[id := Task.RecordEvent(t.key, Hit, t.bytes)];
      assert System() == s;
      RecordEvent(s0, U, id, event);
    }

    method SetLive(k: Triple, checksum: string, ok: bool)
      requires cache.ttl > 0
      modifies cache`entries
      ensures Live(cache.entries, now)
              == if ok then Live(old(cache.entries), now)[RedisKey(k) := checksum] else Live(old(cache.entries), now)
    {
      SetIsLive(cache.entries, RedisKey(k), checksum, now, cache.ttl);
      cache.Set(k, checksum, now, ok);
    }

    /** A goroutine's cache.Set, after which rest is left of it. */
    method SetEntry(ghost s0: State, ghost U: iset<Package>, id: nat, rest: Task, setOk: bool)
      requires Valid() && Reachable(s0, System(), U) && id in goroutines
      requires goroutines[id].SetThenEvent? || goroutines[id].SetThenUpsert?
      requires rest == AfterSet(goroutines[id])
      modifies cache`entries, `goroutines
      ensures Valid() && Reachable(s0, System(), U) && goroutines == old(goroutines)[id := rest]
      ensures var t := old(goroutines)[id];
              System().redis == if setOk then old(System()).redis[RedisKey(t.key) := t.checksum] else old(System()).redis
    {
      ghost var s := SetRuns(s0, System(), id, setOk, U);
      var t := goroutines[id];
      SetLive(t.key, t.checksum, setOk);
      goroutines := goroutines[id := rest];
      assert System() == s;
    }

    /** After an L2 hit: the Redis entry is written again. */
    method FinishReindex(ghost s0: State, ghost U: iset<Package>, id: nat, setOk: bool, event: bool)
      requires Valid() && Reachable(s0, System(), U) && id in goroutines && goroutines[id].SetThenEvent?
      modifies cache`entries, db`events, `goroutines, `counters
      ensures Valid() && Reachable(s0, System(), U)
      ensures goroutines == old(goroutines) - {id}
      ensures var t := old(goroutines)[id];
              && System().redis == (if setOk then old(System()).redis[RedisKey(t.key) := t.checksum] else old(System()).redis)
              && db.events == (if event then old(db.events) + [Event(t.key, Hit, t.bytes, now)] else old(db.events))
    {
      var t := goroutines[id];
      SetEntry(s0, U, id, Task.RecordEvent(t.key, Hit, t.bytes), setOk);
      RecordEvent(s0, U, id, event);
    }

    /** After a miss. */
    method FinishIndex(ghost s0: State, ghost U: iset<Package>, id: nat, setOk: bool, upsert: bool, event: bool)
      requires Valid() && Reachable(s0, System(), U) && id in goroutines && goroutines[id].SetThenUpsert?
      modifies cache`entries, db, `goroutines, `counters
      ensures Valid() && Reachable(s0, System(), U)
      ensures goroutines == old(goroutines) - {id}
      ensures var t := old(goroutines)[id];
              && System().redis == (if setOk then old(System()).redis[RedisKey(t.key) := t.checksum] else old(System()).redis)
              && db.table == (if upsert then Execute(old(db.table), Upsert(t.key, t.checksum, t.size), now) else old(db.table))
              && db.events == (if event then old(db.events) + [Event(t.key, Miss, t.size, now)] else old(db.events))
    {
      var t := goroutines[id];
      SetEntry(s0, U, id, UpsertThenEvent(t.key, t.checksum, t.size), setOk);
      FinishUpsert(s0, U, id, upsert, event);
    }

    method FinishUpsert(ghost s0: State, ghost U: iset<Package>, id: nat, upsert: bool, event: bool)
      requires Valid() && Reachable(s0, System(), U) && id in goroutines && goroutines[id].UpsertThenEvent?
      modifies db, `goroutines, `counters
      ensures Valid() && Reachable(s0, System(), U)
      ensures goroutines == old(goroutines) - {id}
      ensures var t := old(goroutines)[id];
              && db.table == (if upsert then Execute(old(db.table), Upsert(t.key, t.checksum, t.size), now) else old(db.table))
              && db.events == (if event then old(db.events) + [Event(t.key, Miss, t.size, now)] else old(db.events))
    {
      var t := goroutines[id];
      ghost var s := UpsertRuns(s0, System(), id, upsert, U);
      db.UpsertPackage(t.key, t.checksum, t.size, now, upsert);
      goroutines := goroutines[id := Task.RecordEvent(t.key, Miss, t.size)];
      assert System() == s;
      RecordEvent(s0, U, id, event);
    }

    /** After a scan that blocks. */
    method FinishBlock(ghost s0: State, ghost U: iset<Package>, id: nat, ok: bool)
      requires Valid() && Reachable(s0, System(), U) && id in goroutines && goroutines[id].MarkBlocked?
      modifies db`table, `goroutines
      ensures Valid() && Reachable(s0, System(), U)
      ensures goroutines == old(goroutines) - {id}
      ensures db.table == if ok then Execute(old(db.table), Block(old(goroutines)[id].key), now) else old(db.table)
    {
      ghost var s := MarkRuns(s0, System(), id, ok, U);
      db.UpsertBlockedPackage(goroutines[id].key, now, ok);
      goroutines := goroutines - {id};
      assert System() == s;
    }

    // ---- Requests in succession --------------------------------------------------------------------

    /** A request that gets as far as the upstream, and its goroutine. */
    method ServeMiss(ghost s0: State, ghost U: iset<Package>, rid: nat, p: Package, calls: Calls, setOk: bool, upsertOk: bool)
      returns (a: Answer, n: nat)
      requires Valid() && Reachable(s0, System(), U) && p in U && rid !in requests && nextTask !in goroutines
      requires rid !in flights.threads && FlightKey(p.Id()) !in flights.calls
      requires RouteOf(System(), p, calls) == L3
      modifies this, cache, db, store
      ensures Valid() && Reachable(s0, System(), U)
      ensures requests.Keys == old(requests).Keys + {rid} && flights.threads.Keys <= old(flights).threads.Keys + {rid}
      ensures flights.calls == old(flights).calls
      ensures a.Ok200? ==> a.kind == Miss && Indexed(old(System()), System(), p, a.body, calls.put, setOk, upsertOk)
    {
      var id := nextTask;
      a, n := Serve(s0, U, rid, p, calls);
      if a.Ok200? {
        assert id in goroutines && goroutines[id] == SetThenUpsert(p.Id(), p.CacheKey(), |a.body|);
        FinishIndex(s0, U, id, setOk, upsertOk, true);
      }
    }

    /** The request after a miss. It is a hit exactly if Redis or the row then name an object that is there,
        and that includes a Redis entry from before the miss that no set has replaced; it makes no GET. */
    method MissThenHit(ghost s0: State, ghost U: iset<Package>, first: nat, second: nat, p: Package, calls: Calls, again: Calls,
                       setOk: bool, upsertOk: bool)
      returns (a: Answer, n: nat, b: Answer, m: nat)
      requires Valid() && Reachable(s0, System(), U) && p in U && first !in requests && second !in requests && first != second
      requires first !in flights.threads && second !in flights.threads && FlightKey(p.Id()) !in flights.calls
      requires nextTask !in goroutines && RouteOf(System(), p, calls) == L3
      requires again.redis && again.readForRedis && again.table && again.readForTable
      modifies this, cache, db, store
      ensures Reachable(s0, System(), U)
      ensures a.Ok200? ==> (
                var stored := StoreAfter(old(store.objects), p.CacheKey(), a.body, calls.put);
                forall x :: b == Ok200(Hit, x) <==> NextHit(old(System()), stored, p, setOk, upsertOk) == Some(x))
      ensures a.Ok200? && b.Ok200? && b.kind == Hit ==> m == 0
    {
      a, n := ServeMiss(s0, U, first, p, calls, setOk, upsertOk);
      b, m := a, n;
      if a.Ok200? {
        ghost var between := System();
        b, m := Serve(s0, U, second, p, again);
        HitIff(between, System(), p, again, b, m);
        HitAfterMiss(old(System()), between, p, a.body, calls.put, setOk, upsertOk);
      }
    }

    /** A request that its scan blocks, and its goroutine. */
    method ServeBlocked(ghost s0: State, ghost U: iset<Package>, rid: nat, p: Package, calls: Calls) returns (a: Answer)
      requires Valid() && Reachable(s0, System(), U) && p in U && rid !in requests && rid !in flights.threads
      requires FlightKey(p.Id()) !in flights.calls && nextTask !in goroutines && RouteOf(System(), p, calls) == ScanRefuses
      modifies this, db, store
      ensures Valid() && Reachable(s0, System(), U) && IsBlocked(System(), p)
      ensures a == Error(403) && gets == old(gets) && store.objects == old(store.objects)
      ensures System().redis == old(System()).redis && flights.calls == old(flights).calls
      ensures requests.Keys == old(requests).Keys + {rid} && flights.threads.Keys <= old(flights).threads.Keys + {rid}
    {
      var id, n := nextTask, 0;
      a, n := Serve(s0, U, rid, p, calls);
      FinishBlock(s0, U, id, true);
    }

    /** After a scan has blocked a package and its row is written, the next request is refused if and only if
        its lookup in Redis yields no object; if it yields one, that is served. */
    method BlockThenServe(ghost s0: State, ghost U: iset<Package>, first: nat, second: nat, p: Package, calls: Calls, again: Calls)
      returns (a: Answer, b: Answer, m: nat)
      requires Valid() && Reachable(s0, System(), U) && p in U && first !in requests && second !in requests && first != second
      requires first !in flights.threads && second !in flights.threads && FlightKey(p.Id()) !in flights.calls
      requires nextTask !in goroutines && RouteOf(System(), p, calls) == ScanRefuses && again.table
      modifies this, db, store
      ensures Reachable(s0, System(), U)
      ensures a == Error(403) && m == 0 && gets == old(gets) && store.objects == old(store.objects)
      ensures b == if again.redis && again.readForRedis && RedisObject(old(System()), p).Some?
                   then Ok200(Hit, RedisObject(old(System()), p).value) else Error(403)
    {
      a := ServeBlocked(s0, U, first, p, calls);
      ghost var between := System();
      b, m := Serve(s0, U, second, p, again);
      RefusedIff(between, System(), p, again, b, m);
    }

    // ---- What the proxy reports --------------------------------------------------------------------

    /** GetStats over the whole life of the proxy. When nothing is on its way and no event was lost, it agrees
        with the metrics: hits and saved bytes are the counters, and the miss counter exceeds the recorded
        misses by the followers that were served, which record no event. */
    method Stats(ghost U: iset<Package>, start: int) returns (hits: nat, misses: nat, saved: int)
      requires Reachable(Empty(cfg, ttl, start), System(), U)
      ensures Accounting.Quiet(System()) && counters.lostHits == counters.lostHitBytes == counters.lostMisses == 0 ==>
                hits == counters.hits && saved == counters.hitBytes && misses + counters.followers == counters.misses
    {
      ghost var s0 := Empty(cfg, ttl, start);
      ghost var actions :| IsRun(s0, actions, U) && Exec(s0, actions, U) == System();
      Accounting.RunsBalance(cfg, ttl, start, actions, U);
      hits, misses, saved := db.GetStats(start);
    }

    // ---- A leader and its followers ----------------------------------------------------------------

    /** The requests fs[i..] wait for call c. */
    ghost predicate AllWait(fs: seq<nat>, i: nat, p: Package, c: nat)
      reads `requests, `flights
    {
      i <= |fs| && forall j :: i <= j < |fs| ==> Waits(fs[j], p, c)
    }

    ghost predicate Waits(rid: nat, p: Package, c: nat)
      reads `requests, `flights
    {
      && rid in requests && requests[rid] == Fresh(p, InFlight)
      && rid in flights.threads && flights.threads[rid] == SF.Thread(FlightKey(p.Id()), SF.Waiting(c))
    }

    method JoinOne(ghost s0: State, ghost U: iset<Package>, rid: nat, p: Package, calls: Calls)
      requires Reachable(s0, System(), U) && p in U && rid !in requests && rid !in flights.threads
      requires RouteOf(System(), p, calls) == L3 && FlightKey(p.Id()) in flights.calls
      modifies `requests, `flights, `deliveries, `goroutines, `nextTask
      ensures Reachable(s0, System(), U)
      ensures requests == old(requests)[rid := Fresh(p, InFlight)] && flights == Joined(old(flights), rid, FlightKey(p.Id()))
      ensures deliveries == old(deliveries) && goroutines == old(goroutines) && nextTask == old(nextTask)
    {
      ghost var before := System();
      var found := ServeFromIndex(s0, U, rid, p, calls);
      assert found.None? && System() == At(before, rid, Fresh(p, Scanning));
      JoinFlight(s0, U, rid, p, calls.scan);
    }

    /** The requests fs[..i] wait for call c, and the others are yet to come. */
    ghost predicate Arriving(fs: seq<nat>, i: nat, p: Package, c: nat)
      reads `requests, `flights
    {
      && i <= |fs| && (forall j :: 0 <= j < i ==> Waits(fs[j], p, c))
      && (forall j :: i <= j < |fs| ==> fs[j] !in requests && fs[j] !in flights.threads)
    }

    method JoinNext(ghost s0: State, ghost U: iset<Package>, fs: seq<nat>, i: nat, leader: nat, p: Package, calls: Calls)
      requires Reachable(s0, System(), U) && p in U && RouteOf(System(), p, calls) == L3
      requires forall i, j :: 0 <= i < j < |fs| ==> fs[i] != fs[j]
      requires FlightKey(p.Id()) in flights.calls && Arriving(fs, i, p, flights.calls[FlightKey(p.Id())]) && i < |fs|
      requires leader in requests && leader in flights.threads
      modifies `requests, `flights, `deliveries, `goroutines, `nextTask
      ensures Reachable(s0, System(), U)
      ensures flights.calls == old(flights).calls && flights.cells == old(flights).cells
      ensures Arriving(fs, i + 1, p, flights.calls[FlightKey(p.Id())])
      ensures leader in requests && requests[leader] == old(requests)[leader]
      ensures leader in flights.threads && flights.threads[leader] == old(flights).threads[leader]
      ensures deliveries == old(deliveries) && goroutines == old(goroutines) && nextTask == old(nextTask)
    {
      JoinOne(s0, U, fs[i], p, calls);
    }

    method JoinAll(ghost s0: State, ghost U: iset<Package>, fs: seq<nat>, leader: nat, p: Package, calls: Calls)
      requires Reachable(s0, System(), U) && p in U && RouteOf(System(), p, calls) == L3
      requires forall i, j :: 0 <= i < j < |fs| ==> fs[i] != fs[j]
      requires forall i :: 0 <= i < |fs| ==> fs[i] !in requests && fs[i] !in flights.threads
      requires FlightKey(p.Id()) in flights.calls && leader in requests && leader in flights.threads
      modifies `requests, `flights, `deliveries, `goroutines, `nextTask
      ensures flights.calls == old(flights).calls && flights.cells == old(flights).cells
      ensures Reachable(s0, System(), U) && AllWait(fs, 0, p, flights.calls[FlightKey(p.Id())])
      ensures leader in requests && requests[leader] == old(requests)[leader]
      ensures leader in flights.threads && flights.threads[leader] == old(flights).threads[leader]
      ensures deliveries == old(deliveries) && goroutines == old(goroutines) && nextTask == old(nextTask)
    {
      for i := 0 to |fs|
        invariant Reachable(s0, System(), U)
        invariant flights.calls == old(flights).calls && flights.cells == old(flights).cells
        invariant Arriving(fs, i, p, flights.calls[FlightKey(p.Id())])
        invariant leader in requests && requests[leader] == old(requests)[leader]
        invariant leader in flights.threads && flights.threads[leader] == old(flights).threads[leader]
        invariant deliveries == old(deliveries) && goroutines == old(goroutines) && nextTask == old(nextTask)
      {
        JoinNext(s0, U, fs, i, leader, p, calls);
      }
    }

    /** Every follower of call c gets the leader's result. */
    method FinishAll(ghost s0: State, ghost U: iset<Package>, fs: seq<nat>, p: Package, c: nat, r: FetchResult)
      returns (answers: seq<Answer>)
      requires Reachable(s0, System(), U) && AllWait(fs, 0, p, c)
      requires forall i, j :: 0 <= i < j < |fs| ==> fs[i] != fs[j]
      requires c < |flights.cells| && flights.cells[c].done && flights.cells[c].result == Some(r)
      modifies `requests, `flights, `counters, `deliveries
      ensures Reachable(s0, System(), U) && |answers| == |fs| && forall i :: 0 <= i < |fs| ==> answers[i] == AnswerOf(r)
      ensures deliveries == old(deliveries) + (if r.Fetched? then Copies(Delivery(p, Miss, r.body, true, |gets|), |fs|) else [])
    {
      answers := [];
      for i := 0 to |fs|
        invariant Reachable(s0, System(), U) && AllWait(fs, i, p, c)
        invariant flights.cells == old(flights).cells
        invariant |answers| == i && forall j :: 0 <= j < i ==> answers[j] == AnswerOf(r)
        invariant deliveries == old(deliveries) + (if r.Fetched? then Copies(Delivery(p, Miss, r.body, true, |gets|), i) else [])
      {
        assert Waits(fs[i], p, c);
        var answer := FinishFollower(s0, U, fs[i], p, c, r);
        answers := answers + [answer];
      }
    }

    method LeadAndJoin(ghost s0: State, ghost U: iset<Package>, leader: nat, followers: seq<nat>, p: Package, calls: Calls)
      returns (c: nat)
      requires Reachable(s0, System(), U) && p in U && leader !in requests && leader !in followers
      requires forall i, j :: 0 <= i < j < |followers| ==> followers[i] != followers[j]
      requires forall i :: 0 <= i < |followers| ==> followers[i] !in requests && followers[i] !in flights.threads
      requires leader !in flights.threads && FlightKey(p.Id()) !in flights.calls && RouteOf(System(), p, calls) == L3
      modifies `requests, `flights, `deliveries, `goroutines, `nextTask
      ensures Reachable(s0, System(), U) && AllWait(followers, 0, p, c)
      ensures leader in requests && requests[leader] == Request(p, Limiting, true, 0, false)
      ensures RunsFn(flights, leader, FlightKey(p.Id()), c)
      ensures deliveries == old(deliveries) && goroutines == old(goroutines) && nextTask == old(nextTask)
    {
      ghost var before := System();
      var found := ServeFromIndex(s0, U, leader, p, calls);
      assert found.None? && System() == At(before, leader, Fresh(p, Scanning));
      EnterFlight(s0, U, leader, p, calls.scan);
      c := flights.calls[FlightKey(p.Id())];
      JoinAll(s0, U, followers, leader, p, calls);
    }

    /** The leader's end leaves its followers waiting. */
    method ConcludeBeside(ghost s0: State, ghost U: iset<Package>, leader: nat, followers: seq<nat>, p: Package, r: FetchResult,
                          ghost n: nat, put: PutMode, c: nat)
      returns (answer: Answer)
      requires Reachable(s0, System(), U) && leader in requests
      requires requests[leader] == Request(p, DoReturned(true, Some(r)), true, n, false)
      requires AllWait(followers, 0, p, c) && leader !in followers
      modifies `requests, `deliveries, `goroutines, `nextTask, `counters, store`objects
      ensures Reachable(s0, System(), U) && AllWait(followers, 0, p, c)
      ensures FetchAnswered(old(System()), System(), p, put, r, answer) && answer == AnswerOf(r)
    {
      answer := Conclude(s0, U, leader, p, r, n, put);
      assert forall j :: 0 <= j < |followers| ==> followers[j] != leader && old(Waits(followers[j], p, c));
    }

    /** Requests that come while another one for their package is on its way to the upstream: one fetch, one
        Put and one goroutine for all of them, and each is answered with the leader's result. */
    method ServeTogether(ghost s0: State, ghost U: iset<Package>, leader: nat, followers: seq<nat>, p: Package, calls: Calls)
      returns (answer: Answer, answers: seq<Answer>, n: nat)
      requires Reachable(s0, System(), U) && p in U && leader !in requests && leader !in followers
      requires forall i, j :: 0 <= i < j < |followers| ==> followers[i] != followers[j]
      requires forall i :: 0 <= i < |followers| ==> followers[i] !in requests && followers[i] !in flights.threads
      requires leader !in flights.threads && FlightKey(p.Id()) !in flights.calls && RouteOf(System(), p, calls) == L3
      modifies `requests, `deliveries, `goroutines, `nextTask, `flights, `gets, `counters, store`objects
      ensures Reachable(s0, System(), U)
      ensures |answers| == |followers| && forall i :: 0 <= i < |followers| ==> answers[i] == answer
      ensures gets == old(gets) + Records(p, Results(calls.responses), 0, n)
      ensures Coalesced(old(System()), System(), p, calls, answer, n, |followers|)
      ensures IsMissAnswer(cfg, calls, answer)
    {
      ghost var before := System();
      var c := LeadAndJoin(s0, U, leader, followers, p, calls);
      var r;
      r, n := FetchAndLeave(s0, U, leader, followers, p, calls, c);
      ghost var fetched := System();
      answer := ConcludeBeside(s0, U, leader, followers, p, r, n, calls.put, c);
      ghost var concluded := System();
      answers := FinishAll(s0, U, followers, p, c, r);
      CoalescedAll(before, fetched, concluded, System(), p, calls, answer, r, n, |followers|);
      CoalescedStatus(before, System(), p, calls, answer, n, |followers|);
    }

    method FetchAndLeave(ghost s0: State, ghost U: iset<Package>, leader: nat, followers: seq<nat>, p: Package, calls: Calls, c: nat)
      returns (r: FetchResult, n: nat)
      requires Reachable(s0, System(), U) && leader in requests && requests[leader] == Request(p, Limiting, true, 0, false)
      requires AllWait(followers, 0, p, c) && leader !in followers && RunsFn(flights, leader, FlightKey(p.Id()), c)
      modifies `requests, `flights, `gets, `counters
      ensures Reachable(s0, System(), U) && AllWait(followers, 0, p, c)
      ensures IsFetch(cfg, calls, r, n) && gets == old(gets) + Records(p, Results(calls.responses), 0, n)
      ensures leader in requests && requests[leader] == Request(p, DoReturned(true, Some(r)), true, n, false)
      ensures c < |flights.cells| && flights.cells[c].done && flights.cells[c].result == Some(r)
    {
      r, n := Fetch(s0, U, leader, p, calls);
      LeaveFlight(s0, U, leader, p, r, n, c);
      assert forall j :: 0 <= j < |followers| ==> followers[j] != leader && old(Waits(followers[j], p, c));
    }
  }

  /** The fn of a leader: the limiter, and then the fetch. */
  method CallFn(cfg: RetryConfig, calls: Calls) returns (r: FetchResult, n: nat)
    ensures IsFetch(cfg, calls, r, n)
    ensures calls.wait && cfg.maxAttempts > 0 ==>
              Drive(Get(0), cfg.maxAttempts, Results(calls.responses), calls.cancelled) == (r, n)
  {
    if !calls.wait {
      return Failed(RateLimited), 0;
    }
    var retries, slept;
    r, n, retries, slept := FetchFromUpstream(cfg, calls.responses, calls.cancelled, calls.jitter);
    if cfg.maxAttempts > 0 {
      StepsFollowTheLoop(Results(calls.responses), calls.cancelled, cfg.maxAttempts, r, n, retries, 0);
    }
  }

  /** What a goroutine has to do once the Redis entry is set. */
  function AfterSet(t: Task): Task
    requires t.SetThenEvent? || t.SetThenUpsert?
  {
    if t.SetThenEvent? then Task.RecordEvent(t.key, Hit, t.bytes) else UpsertThenEvent(t.key, t.checksum, t.size)
  }

  lemma SecondUpdateStays(m: map<nat, Request>, rid: nat, a: Request, b: Request)
    ensures m[rid := a][rid := b] == m[rid := b]
  {
  }

  /** A flight that is entered and left again. */
  lemma EnteredAndLeft(f: SF.State<FetchResult>, t: nat, k: string, r: FetchResult)
    requires k !in f.calls
    ensures RunsFn(Entered(f, t, k), t, k, |f.cells|)
    ensures var g := LeftWith(Entered(f, t, k), t, k, |f.cells|, r);
            g.calls == f.calls && g.threads.Keys == f.threads.Keys + {t}
  {
  }

  function Copies(d: Delivery, n: nat): seq<Delivery> { seq(n, i => d) }

  lemma CopiesAdd(d: Delivery, n: nat)
    ensures [d] + Copies(d, n) == Copies(d, n + 1) == Copies(d, n) + [d]
  {
  }

  // ---- What serve answers --------------------------------------------------------------------------

  /** The object that the Redis entry of p names. */
  function RedisObject(s: State, p: Package): Option<Bytes> {
    var k := RedisKey(p.Id());
    if k in s.redis && s.redis[k] in s.store then Some(s.store[s.redis[k]]) else None
  }

  /** The object that the cached row of p names. */
  function TableObject(s: State, p: Package): Option<Bytes> {
    var k := p.Id();
    if k in s.table.rows && s.table.rows[k].status.Cached? && s.table.rows[k].checksum in s.store
    then Some(s.store[s.table.rows[k].checksum]) else None
  }

  predicate IsBlocked(s: State, p: Package) {
    p.Id() in s.table.rows && s.table.rows[p.Id()].status.Blocked?
  }

  /** How far a request for p gets, by what the stores hold and which calls succeed. */
  function RouteOf(s: State, p: Package, calls: Calls): Route {
    if calls.redis && calls.readForRedis && RedisObject(s, p).Some? then L1(RedisObject(s, p).value)
    else if calls.table && IsBlocked(s, p) then RowRefuses
    else if calls.table && calls.readForTable && TableObject(s, p).Some? then L2(TableObject(s, p).value)
    else if calls.scan.Block? then ScanRefuses
    else L3
  }

  /** A full hit: no GET, nothing stored, and the given goroutine. */
  predicate HitWith(s: State, s': State, p: Package, b: Bytes, task: Task) {
    && s'.store == s.store && s'.gets == s.gets && s'.deliveries == s.deliveries + [Delivery(p, Hit, b, true, |s.gets|)]
    && s'.tasks == s.tasks[s.nextTask := task] && s'.nextTask == s.nextTask + 1
  }

  predicate Refused403(s: State, s': State, p: Package) {
    && s'.store == s.store && s'.gets == s.gets && s'.deliveries == s.deliveries
    && s'.tasks == s.tasks[s.nextTask := MarkBlocked(p.Id())] && s'.nextTask == s.nextTask + 1
  }

  function AnswerOf(r: FetchResult): Answer {
    match r
    case Failed(e) => Error(if e.RateLimited? then 429 else 502)
    case Fetched(b) => Ok200(Miss, b)
  }

  predicate FetchAnswered(s: State, s': State, p: Package, put: PutMode, r: FetchResult, answer: Answer) {
    match r
    case Failed(e) =>
      && answer == Error(if e.RateLimited? then 429 else 502) && s'.store == s.store && s'.deliveries == s.deliveries
      && s'.tasks == s.tasks && s'.nextTask == s.nextTask
    case Fetched(b) =>
      && answer == Ok200(Miss, b) && s'.store == StoreAfter(s.store, p.CacheKey(), b, put)
      && s'.deliveries == s.deliveries + [Delivery(p, Miss, b, true, |s'.gets|)]
      && s'.tasks == s.tasks[s.nextTask := SetThenUpsert(p.Id(), p.CacheKey(), |b|)] && s'.nextTask == s.nextTask + 1
  }

  ghost predicate Upstreamed(s: State, s': State, p: Package, calls: Calls, answer: Answer, n: nat) {
    && s'.gets == s.gets + Records(p, Results(calls.responses), 0, n)
    && exists r :: IsFetch(s.cfg, calls, r, n) && FetchAnswered(s, s', p, calls.put, r, answer)
  }

  /** What serve answers, and what it leaves in storage and to its goroutine; the indexes it leaves alone. */
  ghost predicate IsAnswer(s: State, s': State, p: Package, calls: Calls, answer: Answer, n: nat) {
    && s'.redis == s.redis && s'.table == s.table && s'.events == s.events
    && match RouteOf(s, p, calls)
       case L1(b) => answer == Ok200(Hit, b) && n == 0 && HitWith(s, s', p, b, TouchThenEvent(p.Id(), |b|))
       case L2(b) => answer == Ok200(Hit, b) && n == 0 && p.Id() in s.table.rows
                     && HitWith(s, s', p, b, SetThenEvent(p.Id(), s.table.rows[p.Id()].checksum, |b|))
       case RowRefuses => answer == Error(403) && n == 0 && s' == s.(requests := s'.requests)
       case ScanRefuses => answer == Error(403) && n == 0 && Refused403(s, s', p)
       case L3 => Upstreamed(s, s', p, calls, answer, n)
  }

  /** One fetch, one Put and one goroutine, and k + 1 answers. */
  ghost predicate Coalesced(s: State, s': State, p: Package, calls: Calls, answer: Answer, n: nat, k: nat) {
    && s'.gets == s.gets + Records(p, Results(calls.responses), 0, n)
    && exists r :: IsFetch(s.cfg, calls, r, n) && answer == AnswerOf(r) && OneForAll(s, s', p, calls.put, r, k)
  }

  predicate OneForAll(s: State, s': State, p: Package, put: PutMode, r: FetchResult, k: nat) {
    match r
    case Failed(_) => s'.store == s.store && s'.tasks == s.tasks && s'.deliveries == s.deliveries
    case Fetched(b) =>
      && s'.store == StoreAfter(s.store, p.CacheKey(), b, put)
      && s'.tasks == s.tasks[s.nextTask := SetThenUpsert(p.Id(), p.CacheKey(), |b|)]
      && s'.deliveries == s.deliveries + Copies(Delivery(p, Miss, b, true, |s'.gets|), k + 1)
  }

  lemma CoalescedAll(s: State, fetched: State, concluded: State, s': State, p: Package, calls: Calls, answer: Answer,
                     r: FetchResult, n: nat, k: nat)
    requires fetched.cfg == s.cfg && fetched.store == s.store && fetched.tasks == s.tasks && fetched.nextTask == s.nextTask
    requires fetched.deliveries == s.deliveries && fetched.gets == s.gets + Records(p, Results(calls.responses), 0, n)
    requires IsFetch(s.cfg, calls, r, n)
    requires FetchAnswered(fetched, concluded, p, calls.put, r, answer) && answer == AnswerOf(r) && concluded.gets == fetched.gets
    requires s'.gets == fetched.gets && s'.store == concluded.store && s'.tasks == concluded.tasks
    requires s'.deliveries == concluded.deliveries + (if r.Fetched? then Copies(Delivery(p, Miss, r.body, true, |s'.gets|), k) else [])
    ensures Coalesced(s, s', p, calls, answer, n, k)
  {
    if r.Fetched? {
      var d := Delivery(p, Miss, r.body, true, |s'.gets|);
      CopiesAdd(d, k);
      assert s.deliveries + [d] + Copies(d, k) == s.deliveries + ([d] + Copies(d, k));
    } else {
      assert concluded.deliveries + [] == concluded.deliveries;
    }
    assert OneForAll(s, s', p, calls.put, r, k);
  }

  /** What the upstream has for a request whose limiter lets it through. */
  ghost predicate Fetches(cfg: RetryConfig, calls: Calls, b: Bytes) {
    if cfg.maxAttempts <= 0 then b == [] else Yields(calls.responses, calls.cancelled, cfg.maxAttempts, b)
  }

  /** What the client of a miss is told: 429 if the limiter refuses, 200 with what the upstream has, else 502. */
  ghost predicate IsMissAnswer(cfg: RetryConfig, calls: Calls, answer: Answer) {
    && (answer == Error(429) <==> !calls.wait)
    && (forall b :: answer == Ok200(Miss, b) <==> calls.wait && Fetches(cfg, calls, b))
    && (answer == Error(502) <==> calls.wait && forall b :: !Fetches(cfg, calls, b))
    && (answer.Error? ==> answer.code == 429 || answer.code == 502)
  }

  lemma FetchIsTold(cfg: RetryConfig, calls: Calls, r: FetchResult, n: nat)
    requires IsFetch(cfg, calls, r, n)
    ensures IsMissAnswer(cfg, calls, AnswerOf(r))
  {
    if calls.wait && cfg.maxAttempts > 0 {
      var retries :| Outcome(Results(calls.responses), calls.cancelled, cfg.maxAttempts, r, n, retries);
      OutcomeIs(calls.responses, calls.cancelled, cfg.maxAttempts, r, n, retries);
      forall b ensures r == Fetched(b) <==> Fetches(cfg, calls, b) {
        FetchedIff(calls.responses, calls.cancelled, cfg.maxAttempts, r, n, retries, b);
      }
      ClassifyReports(calls.responses(n - 1));
      if r.Fetched? { assert Fetches(cfg, calls, r.body); }
    } else if calls.wait {
      assert Fetches(cfg, calls, []);
    }
  }

  /** The status of a request that misses, and of all requests that share its flight. */
  lemma MissStatus(s: State, s': State, p: Package, calls: Calls, answer: Answer, n: nat)
    requires IsAnswer(s, s', p, calls, answer, n) && RouteOf(s, p, calls) == L3
    ensures IsMissAnswer(s.cfg, calls, answer)
  {
    var r :| IsFetch(s.cfg, calls, r, n) && FetchAnswered(s, s', p, calls.put, r, answer);
    FetchIsTold(s.cfg, calls, r, n);
  }

  lemma CoalescedStatus(s: State, s': State, p: Package, calls: Calls, answer: Answer, n: nat, k: nat)
    requires Coalesced(s, s', p, calls, answer, n, k)
    ensures IsMissAnswer(s.cfg, calls, answer)
  {
    var r :| IsFetch(s.cfg, calls, r, n) && answer == AnswerOf(r) && OneForAll(s, s', p, calls.put, r, k);
    FetchIsTold(s.cfg, calls, r, n);
  }

  /** What every request is told, by the contents of the stores and the fate of its calls: the object that Redis
      names; else 403 if the row is blocked; else the object that the row names; else 403 if the scan blocks;
      else what a miss is told. */
  lemma AnswerIsExact(s: State, s': State, p: Package, calls: Calls, answer: Answer, n: nat)
    requires IsAnswer(s, s', p, calls, answer, n)
    ensures var entry, k := RedisKey(p.Id()), p.Id();
            if calls.redis && calls.readForRedis && entry in s.redis && s.redis[entry] in s.store then
              answer == Ok200(Hit, s.store[s.redis[entry]]) && n == 0
            else if calls.table && k in s.table.rows && s.table.rows[k].status == Blocked then
              answer == Error(403) && n == 0
            else if calls.table && calls.readForTable && k in s.table.rows && s.table.rows[k].checksum in s.store then
              answer == Ok200(Hit, s.store[s.table.rows[k].checksum]) && n == 0
            else if calls.scan.Block? then
              answer == Error(403) && n == 0
            else
              IsMissAnswer(s.cfg, calls, answer)
  {
    if RouteOf(s, p, calls) == L3 { MissStatus(s, s', p, calls, answer, n); }
  }

  // ---- The next request ----------------------------------------------------------------------------

  /** What a miss for p leaves behind when its goroutine is through. */
  predicate Indexed(s: State, s': State, p: Package, b: Bytes, put: PutMode, setOk: bool, upsertOk: bool) {
    && s'.store == StoreAfter(s.store, p.CacheKey(), b, put)
    && s'.redis == (if setOk then s.redis[RedisKey(p.Id()) := p.CacheKey()] else s.redis)
    && s'.table == (if upsertOk then Execute(s.table, Upsert(p.Id(), p.CacheKey(), |b|), s.now) else s.table)
  }

  /** What the lookups of a request find when all of its calls succeed. */
  function Found(s: State, p: Package): Option<Bytes> {
    if RedisObject(s, p).Some? then RedisObject(s, p) else TableObject(s, p)
  }

  /** The object that the next request after a miss is served, if any, in terms of what Redis and the table
      held before the miss: Redis first, with the entry of the miss or else the old one; then the row. */
  function NextHit(s: State, store: map<string, Bytes>, p: Package, setOk: bool, upsertOk: bool): Option<Bytes> {
    var k := p.Id();
    var fromRedis := if setOk then Some(p.CacheKey())
                     else if RedisKey(k) in s.redis then Some(s.redis[RedisKey(k)]) else None;
    var fromRow := if upsertOk then Some(p.CacheKey())
                   else if k in s.table.rows && s.table.rows[k].status.Cached? then Some(s.table.rows[k].checksum) else None;
    if fromRedis.Some? && fromRedis.value in store then Some(store[fromRedis.value])
    else if fromRow.Some? && fromRow.value in store then Some(store[fromRow.value])
    else None
  }

  /** When all calls succeed, a request is a hit exactly if its lookups find an object, and then without a GET. */
  lemma HitIff(s: State, s': State, p: Package, calls: Calls, answer: Answer, n: nat)
    requires IsAnswer(s, s', p, calls, answer, n) && calls.redis && calls.readForRedis && calls.table && calls.readForTable
    ensures forall x :: answer == Ok200(Hit, x) <==> Found(s, p) == Some(x)
    ensures answer.Ok200? && answer.kind == Hit ==> n == 0
  {
  }

  lemma HitAfterMiss(s: State, s': State, p: Package, b: Bytes, put: PutMode, setOk: bool, upsertOk: bool)
    requires Indexed(s, s', p, b, put, setOk, upsertOk)
    ensures Found(s', p) == NextHit(s, s'.store, p, setOk, upsertOk)
  {
  }

  /** So when Redis or the row was written and the object is there, the next request is a hit with it, unless
      an old Redis entry names another object that is there. */
  lemma MissIsFollowedByHit(s: State, p: Package, b: Bytes, put: PutMode, setOk: bool, upsertOk: bool)
    requires setOk || upsertOk
    requires !put.Fails? || p.CacheKey() in s.store
    ensures var store := StoreAfter(s.store, p.CacheKey(), b, put);
            var k := RedisKey(p.Id());
            && NextHit(s, store, p, setOk, upsertOk)
               == Some(if !setOk && k in s.redis && s.redis[k] in store then store[s.redis[k]] else store[p.CacheKey()])
            && (put.Overwrites? || p.CacheKey() !in s.store ==> store[p.CacheKey()] == b)
  {
  }

  /** With a blocked row, and when Postgres answers, a request is refused if and only if its lookup in Redis
      yields no object. */
  lemma RefusedIff(s: State, s': State, p: Package, calls: Calls, answer: Answer, n: nat)
    requires IsAnswer(s, s', p, calls, answer, n) && IsBlocked(s, p) && calls.table
    ensures answer == (if calls.redis && calls.readForRedis && RedisObject(s, p).Some? then Ok200(Hit, RedisObject(s, p).value)
                       else Error(403))
    ensures n == 0 && s'.gets == s.gets && s'.store == s.store
  {
  }

  lemma L1Answers(s: State, rid: nat, p: Package, calls: Calls, b: Bytes)
    requires RouteOf(s, p, calls) == L1(b)
    ensures IsAnswer(s, Answered(s, rid, Fresh(p, Returned(Served(Hit, |b|))), Hit, b, Some(TouchThenEvent(p.Id(), |b|))),
                     p, calls, Ok200(Hit, b), 0)
  {
  }

  lemma L2Answers(s: State, s': State, rid: nat, p: Package, calls: Calls, blocked: bool, hit: Option<Bytes>)
    requires !(calls.redis && calls.readForRedis && RedisObject(s, p).Some?)
    requires blocked == (calls.table && IsBlocked(s, p)) && (blocked || hit.Some?)
    requires hit == if calls.table && calls.readForTable then TableObject(s, p) else None
    requires s' == if hit.Some?
                   then Answered(At(s, rid, Fresh(p, TableLookup)), rid, Fresh(p, Returned(Served(Hit, |hit.value|))), Hit, hit.value,
                                 Some(SetThenEvent(p.Id(), s.table.rows[p.Id()].checksum, |hit.value|)))
                   else At(At(s, rid, Fresh(p, TableLookup)), rid, Fresh(p, Returned(Refused(403))))
    ensures IsAnswer(s, s', p, calls, if blocked then Error(403) else Ok200(Hit, hit.value), 0)
  {
  }

  lemma UpstreamAnswers(s: State, s': State, rid: nat, p: Package, calls: Calls, answer: Answer, n: nat)
    requires RouteOf(s, p, calls) == if calls.scan.Block? then ScanRefuses else L3
    requires s'.redis == s.redis && s'.table == s.table && s'.events == s.events
    requires var t := At(s, rid, Fresh(p, Scanning));
             if calls.scan.Block? then answer == Error(403) && n == 0 && Refused403(t, s', p)
             else Upstreamed(t, s', p, calls, answer, n)
    ensures IsAnswer(s, s', p, calls, answer, n)
  {
    if !calls.scan.Block? {
      var t := At(s, rid, Fresh(p, Scanning));
      var r :| IsFetch(t.cfg, calls, r, n) && FetchAnswered(t, s', p, calls.put, r, answer);
      assert FetchAnswered(s, s', p, calls.put, r, answer);
    }
  }

  /** What the fn of a leader may return after n GETs. */
  ghost predicate IsFetch(cfg: RetryConfig, calls: Calls, r: FetchResult, n: nat) {
    if !calls.wait then r == Failed(RateLimited) && n == 0
    else if cfg.maxAttempts <= 0 then r == Fetched([]) && n == 0
    else exists retries :: Outcome(Results(calls.responses), calls.cancelled, cfg.maxAttempts, r, n, retries)
  }
}
