/** One request on its own, as runs of the system: each lemma takes the steps of one call of Proxy.serve
    (internal/proxy/proxy.go) and states the whole state they lead to. */
module SerialRuns {
  import opened Foundation
  import opened Keys
  import opened ObjectStore
  import opened PackageStore
  import opened Upstream
  import opened CacheSystem
  import opened Transparency
  import SF = SingleFlight
  import Security

  // ---- The fetch loop as steps of the system -------------------------------------------------------

  /** n GETs for p, beginning with attempt i. */
  function Records(p: Package, results: nat -> FetchResult, i: nat, n: nat): seq<GetRecord>
    decreases n
  {
    if n == 0 then [] else [GetRecord(p, results(i))] + Records(p, results, i + 1, n - 1)
  }

  function NextAttempt(l: Loop): nat {
    match l
    case Get(i) => i
    case Backoff(i) => i + 1
    case Exit(_) => 0
  }

  predicate InLoop(s: State, rid: nat) {
    && rid in s.requests && s.requests[rid].pc.Fetching?
    && (var l := s.requests[rid].pc.loop;
        (!l.Exit? ==> l.attempt < s.cfg.maxAttempts) && (l.Backoff? ==> l.attempt < s.cfg.maxAttempts - 1))
  }

  /** The loop of request rid has come to its end with result r after n GETs, from attempt i on. */
  function LoopEnded(s: State, rid: nat, results: nat -> FetchResult, i: nat, r: FetchResult, n: nat): State
    requires rid in s.requests
  {
    var q := s.requests[rid];
    s.(requests := s.requests[rid := q.(pc := Fetching(Exit(r)), gets := q.gets + n)],
       gets := s.gets + Records(q.pkg, results, i, n))
  }

  lemma OneGetFirst(s: State, rid: nat, results: nat -> FetchResult, i: nat, r: FetchResult, n: nat)
    requires rid in s.requests && s.requests[rid].pc == Fetching(Get(i))
    ensures LoopEnded(AfterUpstreamGet(s, rid, results(i)), rid, results, i + 1, r, n) == LoopEnded(s, rid, results, i, r, n + 1)
  {
    var q := s.requests[rid];
    var g := GetRecord(q.pkg, results(i));
    var t := AfterUpstreamGet(s, rid, results(i));
    assert t.requests[rid := t.requests[rid].(pc := Fetching(Exit(r)), gets := q.gets + 1 + n)]
           == s.requests[rid := q.(pc := Fetching(Exit(r)), gets := q.gets + 1 + n)];
    assert s.gets + [g] + Records(q.pkg, results, i + 1, n) == s.gets + ([g] + Records(q.pkg, results, i + 1, n));
  }

  lemma NoGetFirst(s: State, rid: nat, results: nat -> FetchResult, pc: Pc, i: nat, r: FetchResult, n: nat)
    requires rid in s.requests
    ensures LoopEnded(SetPc(s, rid, pc), rid, results, i, r, n) == LoopEnded(s, rid, results, i, r, n)
  {
    var q := s.requests[rid];
    assert s.requests[rid := q.(pc := pc)][rid := q.(pc := Fetching(Exit(r)), gets := q.gets + n)]
           == s.requests[rid := q.(pc := Fetching(Exit(r)), gets := q.gets + n)];
  }

  lemma {:induction false} LoopRuns(s0: State, s: State, rid: nat, results: nat -> FetchResult, cancelled: nat -> bool, U: iset<Package>)
    returns (s': State)
    requires Reachable(s0, s, U) && InLoop(s, rid)
    ensures Reachable(s0, s', U)
    ensures var l := s.requests[rid].pc.loop;
            var end := Drive(l, s.cfg.maxAttempts, results, cancelled);
            s' == LoopEnded(s, rid, results, NextAttempt(l), end.0, end.1)
    decreases var l := s.requests[rid].pc.loop;
              if l.Exit? then 0 else 2 * (s.cfg.maxAttempts - l.attempt) - (if l.Backoff? then 1 else 0)
  {
    match s.requests[rid].pc.loop
    case Exit(r) =>
      s' := s;
      assert s.requests == s.requests[rid := s.requests[rid]];
    case Get(i) => s' := GetRuns(s0, s, rid, results, cancelled, U, i);
    case Backoff(i) => s' := BackoffRuns(s0, s, rid, results, cancelled, U, i);
  }

  lemma {:induction false} GetRuns(s0: State, s: State, rid: nat, results: nat -> FetchResult, cancelled: nat -> bool,
                                   U: iset<Package>, i: nat)
    returns (s': State)
    requires Reachable(s0, s, U) && InLoop(s, rid) && s.requests[rid].pc.loop == Get(i)
    ensures Reachable(s0, s', U)
    ensures var end := Drive(Get(i), s.cfg.maxAttempts, results, cancelled);
            s' == LoopEnded(s, rid, results, i, end.0, end.1)
    decreases 2 * (s.cfg.maxAttempts - i), 0
  {
    var t := Extend(s0, s, UpstreamGet(rid, results(i)), U);
    s' := LoopRuns(s0, t, rid, results, cancelled, U);
    var end := Drive(t.requests[rid].pc.loop, s.cfg.maxAttempts, results, cancelled);
    OneGetFirst(s, rid, results, i, end.0, end.1);
  }

  lemma {:induction false} BackoffRuns(s0: State, s: State, rid: nat, results: nat -> FetchResult, cancelled: nat -> bool,
                                       U: iset<Package>, i: nat)
    returns (s': State)
    requires Reachable(s0, s, U) && InLoop(s, rid) && s.requests[rid].pc.loop == Backoff(i)
    ensures Reachable(s0, s', U)
    ensures var end := Drive(Backoff(i), s.cfg.maxAttempts, results, cancelled);
            s' == LoopEnded(s, rid, results, i + 1, end.0, end.1)
    decreases 2 * (s.cfg.maxAttempts - i) - 1, 0
  {
    var t := Extend(s0, s, BackoffOver(rid, cancelled(i)), U);
    s' := LoopRuns(s0, t, rid, results, cancelled, U);
    var l := t.requests[rid].pc.loop;
    var end := Drive(l, s.cfg.maxAttempts, results, cancelled);
    NoGetFirst(s, rid, results, Fetching(l), i + 1, end.0, end.1);
  }

  // ---- A request on its own, as runs of the system --------------------------------------------------

  function At(s: State, rid: nat, r: Request): State { s.(requests := s.requests[rid := r]) }

  function Fresh(p: Package, pc: Pc): Request { Request(p, pc, false, 0, false) }

  /** Request rid has answered with the whole of body and left a goroutine behind. */
  function Answered(s: State, rid: nat, r: Request, kind: EventKind, body: Bytes, task: Option<Task>): State {
    s.(requests := s.requests[rid := r],
       deliveries := s.deliveries + [Delivery(r.pkg, kind, body, true, |s.gets|)],
       tasks := if task.Some? then s.tasks[s.nextTask := task.value] else s.tasks,
       nextTask := if task.Some? then s.nextTask + 1 else s.nextTask)
  }

  /** A later step of the request overwrites what an earlier one wrote for it. */
  lemma AtAgain(s: State, rid: nat, q: Request, r: Request, kind: EventKind, body: Bytes, task: Option<Task>)
    ensures At(At(s, rid, q), rid, r) == At(s, rid, r)
    ensures Answered(At(s, rid, q), rid, r, kind, body, task) == Answered(s, rid, r, kind, body, task)
  {
    assert s.requests[rid := q][rid := r] == s.requests[rid := r];
  }

  lemma SendsAll(s: State, rid: nat, kind: EventKind, body: Bytes)
    requires rid in s.requests
    ensures Send(s, rid, kind, body, |body|)
            == Answered(s, rid, s.requests[rid].(pc := Returned(Served(kind, |body|))), kind, body, None)
  {
    assert body[..|body|] == body;
  }

  lemma RedisGetRuns(s0: State, s: State, rid: nat, p: Package, ok: bool, U: iset<Package>) returns (s': State)
    requires Reachable(s0, s, U) && p in U && rid !in s.requests
    ensures Reachable(s0, s', U)
    ensures var k := RedisKey(p.Id());
            s' == At(s, rid, Fresh(p, if ok && k in s.redis then RedisRead(s.redis[k]) else TableLookup))
  {
    s' := Extend(s0, s, Arrive(rid, p), U);
    s' := Extend(s0, s', RedisGet(rid, ok), U);
  }

  lemma ReadForRedisRuns(s0: State, s: State, rid: nat, p: Package, c: string, ok: bool, U: iset<Package>)
    returns (s': State)
    requires Reachable(s0, s, U) && rid in s.requests && s.requests[rid] == Fresh(p, RedisRead(c))
    ensures Reachable(s0, s', U)
    ensures s' == if ok && c in s.store
                  then Answered(s, rid, Fresh(p, Returned(Served(Hit, |s.store[c]|))), Hit, s.store[c],
                                Some(TouchThenEvent(p.Id(), |s.store[c]|)))
                  else At(s, rid, Fresh(p, TableLookup))
  {
    s' := Extend(s0, s, ReadForRedis(rid, ok, if c in s.store then |s.store[c]| else 0), U);
    if c in s.store { SendsAll(s, rid, Hit, s.store[c]); }
  }

  lemma L1Again(s: State, rid: nat, p: Package, c: string, body: Bytes)
    ensures At(At(s, rid, Fresh(p, RedisRead(c))), rid, Fresh(p, TableLookup)) == At(s, rid, Fresh(p, TableLookup))
    ensures var r, task := Fresh(p, Returned(Served(Hit, |body|))), Some(TouchThenEvent(p.Id(), |body|));
            Answered(At(s, rid, Fresh(p, RedisRead(c))), rid, r, Hit, body, task) == Answered(s, rid, r, Hit, body, task)
  {
    AtAgain(s, rid, Fresh(p, RedisRead(c)), Fresh(p, TableLookup), Hit, body, None);
    AtAgain(s, rid, Fresh(p, RedisRead(c)), Fresh(p, Returned(Served(Hit, |body|))), Hit, body, Some(TouchThenEvent(p.Id(), |body|)));
  }

  lemma TableGetRuns(s0: State, s: State, rid: nat, p: Package, ok: bool, U: iset<Package>) returns (s': State)
    requires Reachable(s0, s, U) && rid in s.requests && s.requests[rid] == Fresh(p, TableLookup)
    ensures Reachable(s0, s', U)
    ensures var k := p.Id();
            s' == At(s, rid, Fresh(p,
                    if ok && k in s.table.rows then
                      if s.table.rows[k].status.Blocked? then Returned(Refused(403)) else TableRead(s.table.rows[k].checksum)
                    else Scanning))
  {
    s' := Extend(s0, s, TableGet(rid, ok), U);
  }

  lemma ReadForTableRuns(s0: State, s: State, rid: nat, p: Package, c: string, ok: bool, U: iset<Package>)
    returns (s': State)
    requires Reachable(s0, s, U) && rid in s.requests && s.requests[rid] == Fresh(p, TableRead(c))
    ensures Reachable(s0, s', U)
    ensures s' == if ok && c in s.store
                  then Answered(s, rid, Fresh(p, Returned(Served(Hit, |s.store[c]|))), Hit, s.store[c],
                                Some(SetThenEvent(p.Id(), c, |s.store[c]|)))
                  else At(s, rid, Fresh(p, Scanning))
  {
    s' := Extend(s0, s, ReadForTable(rid, ok, if c in s.store then |s.store[c]| else 0), U);
    if c in s.store { SendsAll(s, rid, Hit, s.store[c]); }
  }

  lemma L2Again(s: State, rid: nat, p: Package, c: string, body: Bytes)
    ensures At(At(s, rid, Fresh(p, TableRead(c))), rid, Fresh(p, Scanning)) == At(s, rid, Fresh(p, Scanning))
    ensures var r, task := Fresh(p, Returned(Served(Hit, |body|))), Some(SetThenEvent(p.Id(), c, |body|));
            Answered(At(s, rid, Fresh(p, TableRead(c))), rid, r, Hit, body, task) == Answered(s, rid, r, Hit, body, task)
  {
    AtAgain(s, rid, Fresh(p, TableRead(c)), Fresh(p, Scanning), Hit, body, None);
    AtAgain(s, rid, Fresh(p, TableRead(c)), Fresh(p, Returned(Served(Hit, |body|))), Hit, body, Some(SetThenEvent(p.Id(), c, |body|)));
  }

  lemma BlockRuns(s0: State, s: State, rid: nat, p: Package, U: iset<Package>) returns (s': State)
    requires Reachable(s0, s, U) && rid in s.requests && s.requests[rid] == Fresh(p, Scanning) && rid !in s.flights.threads
    ensures Reachable(s0, s', U)
    ensures s' == At(s, rid, Fresh(p, Returned(Refused(403)))).(
                    tasks := s.tasks[s.nextTask := MarkBlocked(p.Id())], nextTask := s.nextTask + 1)
  {
    s' := Extend(s0, s, Scanned(rid, Security.Block), U);
  }

  /** Thread t leads a flight for k, with nobody else in it. */
  function Entered(f: SF.State<FetchResult>, t: nat, k: string): SF.State<FetchResult> {
    SF.State(f.calls[k := |f.cells|], f.cells + [SF.Cell(k, t, None, false)], f.threads[t := SF.Thread(k, SF.Running(|f.cells|))])
  }

  /** Thread t waits for the flight of k. */
  function Joined(f: SF.State<FetchResult>, t: nat, k: string): SF.State<FetchResult>
    requires k in f.calls
  {
    f.(threads := f.threads[t := SF.Thread(k, SF.Waiting(f.calls[k]))])
  }

  /** Thread t runs fn, for call c of key k. */
  predicate RunsFn(f: SF.State<FetchResult>, t: nat, k: string, c: nat) {
    t in f.threads && f.threads[t] == SF.Thread(k, SF.Running(c)) && c < |f.cells|
  }

  /** It has left with result r; whoever waits for the call may wake. */
  function LeftWith(f: SF.State<FetchResult>, t: nat, k: string, c: nat, r: FetchResult): SF.State<FetchResult>
    requires RunsFn(f, t, k, c)
  {
    SF.State(f.calls - {k}, f.cells[c := f.cells[c].(result := Some(r), done := true)],
             f.threads[t := SF.Thread(k, SF.Returned(c, true, Some(r)))])
  }

  lemma SpawnThenEnter(f: SF.State<FetchResult>, t: nat, k: string)
    requires t !in f.threads && k !in f.calls
    ensures var g := SF.Apply(f, SF.Spawn(t, k)); SF.Enabled(g, SF.Enter(t)) && SF.Apply(g, SF.Enter(t)) == Entered(f, t, k)
  {
    var g := SF.Apply(SF.Apply(f, SF.Spawn(t, k)), SF.Enter(t));
    assert g.threads == f.threads[t := SF.Thread(k, SF.Running(|f.cells|))];
  }

  lemma ScanRuns(s0: State, s: State, rid: nat, p: Package, scan: Security.Outcome, U: iset<Package>) returns (s': State)
    requires Reachable(s0, s, U) && rid in s.requests && s.requests[rid] == Fresh(p, Scanning) && rid !in s.flights.threads && !scan.Block?
    ensures Reachable(s0, s', U)
    ensures s' == At(s, rid, Fresh(p, InFlight)).(flights := SF.Apply(s.flights, SF.Spawn(rid, FlightKey(p.Id()))))
  {
    s' := Extend(s0, s, Scanned(rid, scan), U);
  }

  lemma EnterRuns(s0: State, s: State, rid: nat, p: Package, f: SF.State<FetchResult>, U: iset<Package>) returns (s': State)
    requires Reachable(s0, s, U) && rid in s.requests && s.requests[rid] == Fresh(p, InFlight)
    requires rid !in f.threads && FlightKey(p.Id()) !in f.calls && s.flights == SF.Apply(f, SF.Spawn(rid, FlightKey(p.Id())))
    ensures Reachable(s0, s', U)
    ensures s' == At(s, rid, Request(p, Limiting, true, 0, false)).(flights := Entered(f, rid, FlightKey(p.Id())))
  {
    SpawnThenEnter(f, rid, FlightKey(p.Id()));
    s' := Extend(s0, s, DoEnter(rid), U);
  }

  lemma LimiterRuns(s0: State, s: State, rid: nat, p: Package, ok: bool, U: iset<Package>) returns (s': State)
    requires Reachable(s0, s, U) && rid in s.requests && s.requests[rid] == Request(p, Limiting, true, 0, false)
    ensures Reachable(s0, s', U)
    ensures s' == At(s, rid, Request(p, Fetching(if ok then Start(s.cfg.maxAttempts) else Exit(Failed(RateLimited))), true, 0, false)).(
                    counters := s.counters.(waits := s.counters.waits + 1))
  {
    s' := Extend(s0, s, LimiterWait(rid, ok), U);
  }

  /** The limiter and then the whole loop. */
  lemma FetchRuns(s0: State, s: State, rid: nat, p: Package, wait: bool, results: nat -> FetchResult, cancelled: nat -> bool,
                  r: FetchResult, n: nat, U: iset<Package>) returns (s': State)
    requires Reachable(s0, s, U) && rid in s.requests && s.requests[rid] == Request(p, Limiting, true, 0, false)
    requires if !wait then r == Failed(RateLimited) && n == 0
             else if s.cfg.maxAttempts <= 0 then r == Fetched([]) && n == 0
             else Drive(Get(0), s.cfg.maxAttempts, results, cancelled) == (r, n)
    ensures Reachable(s0, s', U)
    ensures s' == At(s, rid, Request(p, Fetching(Exit(r)), true, n, false)).(
                    gets := s.gets + Records(p, results, 0, n), counters := s.counters.(waits := s.counters.waits + 1))
  {
    var t := LimiterRuns(s0, s, rid, p, wait, U);
    s' := LoopRuns(s0, t, rid, results, cancelled, U);
    AtAgain(s, rid, t.requests[rid], Request(p, Fetching(Exit(r)), true, n, false), Hit, [], None);
  }

  /** The last three steps of Do for a leader. */
  lemma LeaderLeaves(f: SF.State<FetchResult>, t: nat, k: string, c: nat, r: FetchResult)
    requires RunsFn(f, t, k, c)
    ensures SF.Enabled(f, SF.FnReturn(t, r))
    ensures var f1 := SF.Apply(f, SF.FnReturn(t, r));
            && SF.Enabled(f1, SF.Signal(t))
            && var f2 := SF.Apply(f1, SF.Signal(t));
            && SF.Enabled(f2, SF.Remove(t))
            && SF.Apply(f2, SF.Remove(t)) == LeftWith(f, t, k, c, r)
  {
    var f1 := SF.Apply(f, SF.FnReturn(t, r));
    var f2 := SF.Apply(f1, SF.Signal(t));
    var f3 := SF.Apply(f2, SF.Remove(t));
    assert f3.cells == LeftWith(f, t, k, c, r).cells && f3.threads == LeftWith(f, t, k, c, r).threads;
  }

  lemma FnReturnRuns(s0: State, s: State, rid: nat, p: Package, r: FetchResult, n: nat, U: iset<Package>) returns (s': State)
    requires Reachable(s0, s, U) && rid in s.requests && s.requests[rid] == Request(p, Fetching(Exit(r)), true, n, false)
    requires SF.Enabled(s.flights, SF.FnReturn(rid, r))
    ensures Reachable(s0, s', U)
    ensures s' == At(s, rid, Request(p, InFlight, true, n, false)).(flights := SF.Apply(s.flights, SF.FnReturn(rid, r)))
  {
    s' := Extend(s0, s, FnReturn(rid), U);
  }

  lemma SignalRuns(s0: State, s: State, rid: nat, U: iset<Package>) returns (s': State)
    requires Reachable(s0, s, U) && rid in s.requests && s.requests[rid].pc.InFlight? && SF.Enabled(s.flights, SF.Signal(rid))
    ensures Reachable(s0, s', U) && s' == s.(flights := SF.Apply(s.flights, SF.Signal(rid)))
  {
    s' := Extend(s0, s, DoSignal(rid), U);
  }

  lemma RemoveRuns(s0: State, s: State, rid: nat, p: Package, r: FetchResult, n: nat, g: SF.State<FetchResult>, U: iset<Package>)
    returns (s': State)
    requires Reachable(s0, s, U) && rid in s.requests && s.requests[rid] == Request(p, InFlight, true, n, false)
    requires SF.Enabled(s.flights, SF.Remove(rid)) && SF.Apply(s.flights, SF.Remove(rid)) == g
    requires rid in g.threads && g.threads[rid].pc.Returned? && g.threads[rid].pc.result == Some(r)
    ensures Reachable(s0, s', U)
    ensures s' == At(s, rid, Request(p, DoReturned(true, Some(r)), true, n, false)).(flights := g)
  {
    s' := Extend(s0, s, DoRemove(rid), U);
  }

  lemma LeaveRuns(s0: State, s: State, rid: nat, p: Package, r: FetchResult, n: nat, c: nat, U: iset<Package>)
    returns (s': State)
    requires Reachable(s0, s, U) && rid in s.requests && s.requests[rid] == Request(p, Fetching(Exit(r)), true, n, false)
    requires RunsFn(s.flights, rid, FlightKey(p.Id()), c)
    ensures Reachable(s0, s', U)
    ensures s' == At(s, rid, Request(p, DoReturned(true, Some(r)), true, n, false)).(
                    flights := LeftWith(s.flights, rid, FlightKey(p.Id()), c, r))
  {
    LeaderLeaves(s.flights, rid, FlightKey(p.Id()), c, r);
    var q, q' := Request(p, InFlight, true, n, false), Request(p, DoReturned(true, Some(r)), true, n, false);
    var t := FnReturnRuns(s0, s, rid, p, r, n, U);
    var u := SignalRuns(s0, t, rid, U);
    s' := RemoveRuns(s0, u, rid, p, r, n, LeftWith(s.flights, rid, FlightKey(p.Id()), c, r), U);
    AtAgain(s, rid, q, q', Hit, [], None);
    assert u.requests == At(s, rid, q).requests;
  }

  lemma CountRuns(s0: State, s: State, rid: nat, p: Package, r: FetchResult, n: nat, U: iset<Package>) returns (s': State)
    requires Reachable(s0, s, U) && rid in s.requests && s.requests[rid] == Request(p, DoReturned(true, Some(r)), true, n, false)
    ensures Reachable(s0, s', U)
    ensures s' == match r
                  case Failed(e) => At(s, rid, Request(p, Returned(Refused(if e.RateLimited? then 429 else 502)), true, n, true)).(
                                      counters := s.counters.(fetchErrors := s.counters.fetchErrors + 1))
                  case Fetched(b) => At(s, rid, Request(p, Storing(b), true, n, true)).(
                                       counters := s.counters.(fetchOk := s.counters.fetchOk + 1))
  {
    s' := Extend(s0, s, CountFetch(rid), U);
  }

  lemma PutRuns(s0: State, s: State, rid: nat, p: Package, b: Bytes, n: nat, mode: PutMode, U: iset<Package>)
    returns (s': State)
    requires Reachable(s0, s, U) && rid in s.requests && s.requests[rid] == Request(p, Storing(b), true, n, true)
    ensures Reachable(s0, s', U)
    ensures s' == At(s, rid, Request(p, Replying(b), true, n, true)).(
                    store := StoreAfter(s.store, p.CacheKey(), b, mode), counters := s.counters.(puts := s.counters.puts + 1),
                    tasks := s.tasks[s.nextTask := SetThenUpsert(p.Id(), p.CacheKey(), |b|)], nextTask := s.nextTask + 1)
  {
    s' := Extend(s0, s, Put(rid, mode), U);
  }

  lemma ReplyRuns(s0: State, s: State, rid: nat, p: Package, b: Bytes, n: nat, U: iset<Package>) returns (s': State)
    requires Reachable(s0, s, U) && rid in s.requests && s.requests[rid] == Request(p, Replying(b), true, n, true)
    ensures Reachable(s0, s', U)
    ensures s' == Answered(s, rid, Request(p, Returned(Served(Miss, |b|)), true, n, true), Miss, b, None)
  {
    SendsAll(s, rid, Miss, b);
    s' := Extend(s0, s, CacheSystem.Reply(rid, |b|), U);
  }

  // ---- A follower ----------------------------------------------------------------------------------

  lemma SpawnThenJoin(f: SF.State<FetchResult>, t: nat, k: string)
    requires t !in f.threads && k in f.calls
    ensures var g := SF.Apply(f, SF.Spawn(t, k)); SF.Enabled(g, SF.Enter(t)) && SF.Apply(g, SF.Enter(t)) == Joined(f, t, k)
  {
    var g := SF.Apply(SF.Apply(f, SF.Spawn(t, k)), SF.Enter(t));
    assert g.threads == f.threads[t := SF.Thread(k, SF.Waiting(f.calls[k]))];
  }

  lemma JoinRuns(s0: State, s: State, rid: nat, p: Package, f: SF.State<FetchResult>, U: iset<Package>) returns (s': State)
    requires Reachable(s0, s, U) && rid in s.requests && s.requests[rid] == Fresh(p, InFlight)
    requires rid !in f.threads && FlightKey(p.Id()) in f.calls && s.flights == SF.Apply(f, SF.Spawn(rid, FlightKey(p.Id())))
    ensures Reachable(s0, s', U) && s' == s.(flights := Joined(f, rid, FlightKey(p.Id())))
  {
    SpawnThenJoin(f, rid, FlightKey(p.Id()));
    s' := Extend(s0, s, DoEnter(rid), U);
  }

  /** Thread t waits for call c, which has result r. */
  predicate MayWake(f: SF.State<FetchResult>, t: nat, k: string, c: nat, r: FetchResult) {
    && t in f.threads && f.threads[t] == SF.Thread(k, SF.Waiting(c))
    && c < |f.cells| && f.cells[c].done && f.cells[c].result == Some(r)
  }

  function Woken(f: SF.State<FetchResult>, t: nat, k: string, c: nat, r: FetchResult): SF.State<FetchResult> {
    f.(threads := f.threads[t := SF.Thread(k, SF.Returned(c, false, Some(r)))])
  }

  lemma WakeRuns(s0: State, s: State, rid: nat, p: Package, c: nat, r: FetchResult, U: iset<Package>) returns (s': State)
    requires Reachable(s0, s, U) && rid in s.requests && s.requests[rid] == Fresh(p, InFlight)
    requires MayWake(s.flights, rid, FlightKey(p.Id()), c, r)
    ensures Reachable(s0, s', U)
    ensures s' == At(s, rid, Fresh(p, DoReturned(false, Some(r)))).(flights := Woken(s.flights, rid, FlightKey(p.Id()), c, r))
  {
    s' := Extend(s0, s, DoWake(rid), U);
  }

  lemma FollowerCountRuns(s0: State, s: State, rid: nat, p: Package, r: FetchResult, U: iset<Package>) returns (s': State)
    requires Reachable(s0, s, U) && rid in s.requests && s.requests[rid] == Fresh(p, DoReturned(false, Some(r)))
    ensures Reachable(s0, s', U)
    ensures s' == match r
                  case Failed(e) => At(s, rid, Fresh(p, Returned(Refused(if e.RateLimited? then 429 else 502))))
                  case Fetched(b) => At(s, rid, Fresh(p, Replying(b))).(
                                       counters := s.counters.(followers := s.counters.followers + 1))
  {
    s' := Extend(s0, s, CountFetch(rid), U);
  }

  lemma FollowerReplyRuns(s0: State, s: State, rid: nat, p: Package, b: Bytes, U: iset<Package>) returns (s': State)
    requires Reachable(s0, s, U) && rid in s.requests && s.requests[rid] == Fresh(p, Replying(b))
    ensures Reachable(s0, s', U)
    ensures s' == Answered(s, rid, Fresh(p, Returned(Served(Miss, |b|))), Miss, b, None)
  {
    SendsAll(s, rid, Miss, b);
    s' := Extend(s0, s, CacheSystem.Reply(rid, |b|), U);
  }

  // ---- The goroutines left behind ------------------------------------------------------------------

  lemma TouchRuns(s0: State, s: State, id: nat, ok: bool, U: iset<Package>) returns (s': State)
    requires Reachable(s0, s, U) && id in s.tasks && s.tasks[id].TouchThenEvent?
    ensures Reachable(s0, s', U)
    ensures var t := s.tasks[id];
            s' == s.(table := if ok then Execute(s.table, TouchHit(t.key), s.now) else s.table,
                     tasks := s.tasks[id := RecordEvent(t.key, Hit, t.bytes)])
  {
    s' := Extend(s0, s, TaskStep(id, ok), U);
  }

  lemma SetRuns(s0: State, s: State, id: nat, ok: bool, U: iset<Package>) returns (s': State)
    requires Reachable(s0, s, U) && id in s.tasks && (s.tasks[id].SetThenEvent? || s.tasks[id].SetThenUpsert?)
    ensures Reachable(s0, s', U)
    ensures var t := s.tasks[id];
            s' == s.(redis := if ok then s.redis[RedisKey(t.key) := t.checksum] else s.redis,
                     tasks := s.tasks[id := if t.SetThenEvent? then RecordEvent(t.key, Hit, t.bytes)
                                            else UpsertThenEvent(t.key, t.checksum, t.size)])
  {
    s' := Extend(s0, s, TaskStep(id, ok), U);
  }

  lemma UpsertRuns(s0: State, s: State, id: nat, ok: bool, U: iset<Package>) returns (s': State)
    requires Reachable(s0, s, U) && id in s.tasks && s.tasks[id].UpsertThenEvent?
    ensures Reachable(s0, s', U)
    ensures var t := s.tasks[id];
            s' == s.(table := if ok then Execute(s.table, Upsert(t.key, t.checksum, t.size), s.now) else s.table,
                     tasks := s.tasks[id := RecordEvent(t.key, Miss, t.size)])
  {
    s' := Extend(s0, s, TaskStep(id, ok), U);
  }

  lemma RecordRuns(s0: State, s: State, id: nat, ok: bool, U: iset<Package>) returns (s': State)
    requires Reachable(s0, s, U) && id in s.tasks && s.tasks[id].RecordEvent?
    ensures Reachable(s0, s', U)
    ensures var t := s.tasks[id]; s' == AfterRecord(s, id, t.key, t.kind, t.bytes, ok)
  {
    s' := Extend(s0, s, TaskStep(id, ok), U);
  }

  lemma MarkRuns(s0: State, s: State, id: nat, ok: bool, U: iset<Package>) returns (s': State)
    requires Reachable(s0, s, U) && id in s.tasks && s.tasks[id].MarkBlocked?
    ensures Reachable(s0, s', U)
    ensures s' == s.(table := if ok then Execute(s.table, Block(s.tasks[id].key), s.now) else s.table, tasks := s.tasks - {id})
  {
    s' := Extend(s0, s, TaskStep(id, ok), U);
  }
}
