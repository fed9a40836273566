/** The whole cache as one transition system: requests inside Proxy.serve (internal/proxy/proxy.go), the
    goroutines they leave behind, single flight, the eviction worker (internal/eviction/eviction.go), and an
    environment that expires Redis keys, loses objects, fails any call and changes the upstream. One action
    is one call on a store, one step of the single-flight protocol, or one move of the environment; actions
    of different parties interleave freely. */
module CacheSystem {
  import opened Foundation
  import opened Keys
  import opened ObjectStore
  import opened PackageStore
  import opened Upstream
  import SF = SingleFlight
  import Security

  // ---- State ---------------------------------------------------------------------------------------

  datatype Reply = Served(kind: EventKind, sent: nat) | Refused(code: int)

  /** Where a request stands. */
  datatype Pc =
    | RedisLookup
    | RedisRead(checksum: string)                          // storage.Get with the checksum from Redis
    | TableLookup
    | TableRead(checksum: string)                          // storage.Get with the checksum from Postgres
    | Scanning
    | InFlight                                             // inside sf.Do, outside fn
    | Limiting                                             // leader, in limiter.Wait
    | Fetching(loop: Loop)                                 // leader, in fetchFromUpstream
    | DoReturned(leader: bool, result: Option<FetchResult>)
    | Storing(body: Bytes)                                 // leader, before storage.Put
    | Replying(body: Bytes)
    | Returned(reply: Reply)                               // serve has returned to ServeHTTP
    | Done(reply: Reply)

  /** led, gets and completed are history: whether the request became a leader, how many upstream GETs it
      made, and whether its fetch has been counted. */
  datatype Request = Request(pkg: Package, pc: Pc, led: bool, gets: nat, completed: bool)

  /** What a goroutine left behind by serve still has to do. */
  datatype Task =
    | TouchThenEvent(key: Triple, bytes: nat)
    | SetThenEvent(key: Triple, checksum: string, bytes: nat)
    | SetThenUpsert(key: Triple, checksum: string, size: nat)
    | UpsertThenEvent(key: Triple, checksum: string, size: nat)
    | RecordEvent(key: Triple, kind: EventKind, bytes: nat)
    | MarkBlocked(key: Triple)

  datatype Stage = FromStorage | FromRedis | FromTable

  /** The eviction worker: the table it listed, the rows still to evict, and the step due for the first. */
  datatype Evictor = Idle | Evicting(cutoff: int, listing: Table, queue: seq<Row>, stage: Stage)

  datatype GetRecord = GetRecord(pkg: Package, result: FetchResult)

  /** A 200 answer: the bytes sent, whether the copy was complete, and how many GETs preceded it. */
  datatype Delivery = Delivery(pkg: Package, kind: EventKind, sent: Bytes, complete: bool, after: nat)

  /** RequestsTotal, BytesServedTotal{hit} and UpstreamFetchesTotal, and history that no store holds. */
  datatype Counters = Counters(
    hits: nat, misses: nat, errors: nat, hitBytes: nat, fetchOk: nat, fetchErrors: nat,
    waits: nat, puts: nat, followers: nat, lostHits: nat, lostHitBytes: nat, lostMisses: nat)

  datatype State = State(
    cfg: RetryConfig, ttl: int, now: int,
    redis: map<string, string>, table: Table, events: seq<Event>, store: map<string, Bytes>,
    flights: SF.State<FetchResult>, requests: map<nat, Request>, tasks: map<nat, Task>, nextTask: nat,
    evictor: Evictor, gets: seq<GetRecord>, deliveries: seq<Delivery>, counters: Counters)

  function Empty(cfg: RetryConfig, ttl: int, now: int): State {
    State(cfg, ttl, now, map[], Table(map[], 0), [], map[], SF.Initial(), map[], map[], 0, Idle, [], [],
          Counters(0, 0, 0, 0, 0, 0, 0, 0, 0, 0, 0, 0))
  }

  // ---- Actions -------------------------------------------------------------------------------------

  /** ok tells whether the call succeeded; sent is how many bytes io.Copy delivered. */
  datatype Action =
    | Arrive(rid: nat, pkg: Package)
    | RedisGet(rid: nat, ok: bool)
    | ReadForRedis(rid: nat, ok: bool, sent: nat)
    | TableGet(rid: nat, ok: bool)
    | ReadForTable(rid: nat, ok: bool, sent: nat)
    | Scanned(rid: nat, outcome: Security.Outcome)         // a failed scan has outcome Allow
    | DoEnter(rid: nat)
    | LimiterWait(rid: nat, ok: bool)
    | UpstreamGet(rid: nat, result: FetchResult)
    | BackoffOver(rid: nat, cancelled: bool)
    | FnReturn(rid: nat)
    | DoSignal(rid: nat)
    | DoRemove(rid: nat)
    | DoWake(rid: nat)
    | CountFetch(rid: nat)
    | Put(rid: nat, mode: PutMode)
    | Reply(rid: nat, sent: nat)
    | Account(rid: nat)
    | TaskStep(task: nat, ok: bool)
    | RedisExpire(key: string)
    | ObjectLost(checksum: string)
    | EvictList(listed: seq<Row>)
    | EvictStorage(ok: bool)
    | EvictRedis(ok: bool)
    | EvictTable(ok: bool)
    | Tick(to: int)

  function ResultOf(r: Option<FetchResult>): FetchResult {
    match r
    case Some(v) => v
    case None => Fetched([])   // nil, nil
  }

  predicate FlightEnabled(s: State, a: SF.Action<FetchResult>) { SF.Enabled(s.flights, a) }

  ghost predicate Enabled(s: State, a: Action) {
    match a
    case Arrive(rid, _) => rid !in s.requests
    case RedisGet(rid, _) => rid in s.requests && s.requests[rid].pc.RedisLookup?
    case ReadForRedis(rid, _, _) => rid in s.requests && s.requests[rid].pc.RedisRead?
    case TableGet(rid, _) => rid in s.requests && s.requests[rid].pc.TableLookup?
    case ReadForTable(rid, _, _) => rid in s.requests && s.requests[rid].pc.TableRead?
    case Scanned(rid, _) => rid in s.requests && s.requests[rid].pc.Scanning? && rid !in s.flights.threads
    case DoEnter(rid) => rid in s.requests && s.requests[rid].pc.InFlight? && FlightEnabled(s, SF.Enter(rid))
    case LimiterWait(rid, _) => rid in s.requests && s.requests[rid].pc.Limiting?
    case UpstreamGet(rid, _) => rid in s.requests && s.requests[rid].pc.Fetching? && s.requests[rid].pc.loop.Get?
    case BackoffOver(rid, _) => rid in s.requests && s.requests[rid].pc.Fetching? && s.requests[rid].pc.loop.Backoff?
    case FnReturn(rid) =>
      rid in s.requests && s.requests[rid].pc.Fetching? && s.requests[rid].pc.loop.Exit?
      && FlightEnabled(s, SF.FnReturn(rid, s.requests[rid].pc.loop.result))
    case DoSignal(rid) => rid in s.requests && s.requests[rid].pc.InFlight? && FlightEnabled(s, SF.Signal(rid))
    case DoRemove(rid) => rid in s.requests && s.requests[rid].pc.InFlight? && FlightEnabled(s, SF.Remove(rid))
    case DoWake(rid) => rid in s.requests && s.requests[rid].pc.InFlight? && FlightEnabled(s, SF.Wake(rid))
    case CountFetch(rid) => rid in s.requests && s.requests[rid].pc.DoReturned?
    case Put(rid, _) => rid in s.requests && s.requests[rid].pc.Storing?
    case Reply(rid, sent) => rid in s.requests && s.requests[rid].pc.Replying? && sent <= |s.requests[rid].pc.body|
    case Account(rid) => rid in s.requests && s.requests[rid].pc.Returned?
    case TaskStep(id, _) => id in s.tasks
    case EvictList(listed) => s.evictor.Idle? && IsExpiredListing(s.table, s.now - s.ttl, listed)
    case EvictStorage(_) => s.evictor.Evicting? && s.evictor.queue != [] && s.evictor.stage.FromStorage?
    case EvictRedis(_) => s.evictor.Evicting? && s.evictor.queue != [] && s.evictor.stage.FromRedis?
    case EvictTable(_) => s.evictor.Evicting? && s.evictor.queue != [] && s.evictor.stage.FromTable?
    case Tick(to) => s.now <= to
    case RedisExpire(_) => true
    case ObjectLost(_) => true
  }

  // ---- Effects -------------------------------------------------------------------------------------

  function SetPc(s: State, rid: nat, pc: Pc): State
    requires rid in s.requests
  {
    s.(requests := s.requests[rid := s.requests[rid].(pc := pc)])
  }

  function Spawn(s: State, task: Task): State {
    s.(tasks := s.tasks[s.nextTask := task], nextTask := s.nextTask + 1)
  }

  function Fly(s: State, a: SF.Action<FetchResult>): State
    requires FlightEnabled(s, a)
  {
    s.(flights := SF.Apply(s.flights, a))
  }

  /** Send the first sent bytes of body, or all of it, with status 200. */
  function Send(s: State, rid: nat, kind: EventKind, body: Bytes, sent: nat): State
    requires rid in s.requests
  {
    var n := if sent <= |body| then sent else |body|;
    SetPc(s, rid, Returned(Served(kind, n))).(
      deliveries := s.deliveries + [Delivery(s.requests[rid].pkg, kind, body[..n], n == |body|, |s.gets|)])
  }

  /** How many bytes Send sends. */
  function Sent(body: Bytes, sent: nat): nat { if sent <= |body| then sent else |body| }

  function ReadHit(s: State, rid: nat, checksum: string, ok: bool, sent: nat, task: Task, miss: Pc): State
    requires rid in s.requests
  {
    if ok && checksum in s.store then Spawn(Send(s, rid, Hit, s.store[checksum], sent), task)
    else SetPc(s, rid, miss)
  }

  function AfterTableGet(s: State, rid: nat, ok: bool): State
    requires rid in s.requests
  {
    var k := s.requests[rid].pkg.Id();
    if ok && k in s.table.rows then
      if s.table.rows[k].status.Blocked? then SetPc(s, rid, Returned(Refused(403)))
      else SetPc(s, rid, TableRead(s.table.rows[k].checksum))
    else
      SetPc(s, rid, Scanning)
  }

  function AfterScan(s: State, rid: nat, outcome: Security.Outcome): State
    requires rid in s.requests && rid !in s.flights.threads
  {
    var k := s.requests[rid].pkg.Id();
    if outcome.Block? then Spawn(SetPc(s, rid, Returned(Refused(403))), MarkBlocked(k))
    else Fly(SetPc(s, rid, InFlight), SF.Spawn(rid, FlightKey(k)))
  }

  function AfterEnter(s: State, rid: nat): State
    requires rid in s.requests && FlightEnabled(s, SF.Enter(rid))
  {
    var s' := Fly(s, SF.Enter(rid));
    if s'.flights.threads[rid].pc.Running? then
      s'.(requests := s.requests[rid := s.requests[rid].(pc := Limiting, led := true)])
    else s'
  }

  function AfterLimiter(s: State, rid: nat, ok: bool): State
    requires rid in s.requests
  {
    SetPc(s, rid, Fetching(if ok then Start(s.cfg.maxAttempts) else Exit(Failed(RateLimited)))).(
      counters := s.counters.(waits := s.counters.waits + 1))
  }

  function AfterUpstreamGet(s: State, rid: nat, result: FetchResult): State
    requires rid in s.requests && s.requests[rid].pc.Fetching? && s.requests[rid].pc.loop.Get?
  {
    var r := s.requests[rid];
    s.(requests := s.requests[rid := r.(pc := Fetching(AfterGet(r.pc.loop.attempt, s.cfg.maxAttempts, result)),
                                        gets := r.gets + 1)],
       gets := s.gets + [GetRecord(r.pkg, result)])
  }

  function StatusOf(e: FetchError): int { if e.RateLimited? then 429 else 502 }

  /** The upstream metrics, the early return on an error, and the split between leader and followers.
      RewriteResponse is the identity in every handler. */
  function AfterDo(s: State, rid: nat): State
    requires rid in s.requests && s.requests[rid].pc.DoReturned?
  {
    var r := s.requests[rid];
    var result := ResultOf(r.pc.result);
    var pc :=
      match result
      case Failed(e) => Returned(Refused(StatusOf(e)))
      case Fetched(body) => if r.pc.leader then Storing(body) else Replying(body);
    var c := s.counters;
    s.(requests := s.requests[rid := r.(pc := pc, completed := r.pc.leader)],
       counters :=
         if r.pc.leader then
           if result.Fetched? then c.(fetchOk := c.fetchOk + 1) else c.(fetchErrors := c.fetchErrors + 1)
         else if result.Fetched? then c.(followers := c.followers + 1) else c)
  }

  function AfterPut(s: State, rid: nat, mode: PutMode): State
    requires rid in s.requests && s.requests[rid].pc.Storing?
  {
    var p, body := s.requests[rid].pkg, s.requests[rid].pc.body;
    var c := p.CacheKey();
    Spawn(SetPc(s, rid, Replying(body)), SetThenUpsert(p.Id(), c, |body|)).(
      store := StoreAfter(s.store, c, body, mode),
      counters := s.counters.(puts := s.counters.puts + 1))
  }

  /** The counters of ServeHTTP. */
  function AfterAccount(s: State, rid: nat): State
    requires rid in s.requests && s.requests[rid].pc.Returned?
  {
    var reply, c := s.requests[rid].pc.reply, s.counters;
    SetPc(s, rid, Done(reply)).(
      counters :=
        match reply
        case Served(Hit, n) => c.(hits := c.hits + 1, hitBytes := c.hitBytes + n)
        case Served(Miss, _) => c.(misses := c.misses + 1)
        case Refused(_) => c.(errors := c.errors + 1))
  }

  function AfterRecord(s: State, id: nat, key: Triple, kind: EventKind, bytes: nat, ok: bool): State {
    var c := s.counters;
    s.(tasks := s.tasks - {id},
       events := if ok then s.events + [Event(key, kind, bytes, s.now)] else s.events,
       counters :=
         if ok then c
         else if kind.Hit? then c.(lostHits := c.lostHits + 1, lostHitBytes := c.lostHitBytes + bytes)
         else c.(lostMisses := c.lostMisses + 1))
  }

  /** The next call of a goroutine, whose failure is logged and ignored. */
  function AfterTask(s: State, id: nat, ok: bool): State
    requires id in s.tasks
  {
    match s.tasks[id]
    case TouchThenEvent(key, bytes) =>
      s.(table := if ok then Execute(s.table, TouchHit(key), s.now) else s.table,
         tasks := s.tasks[id := RecordEvent(key, Hit, bytes)])
    case SetThenEvent(key, checksum, bytes) =>
      s.(redis := if ok then s.redis[RedisKey(key) := checksum] else s.redis,
         tasks := s.tasks[id := RecordEvent(key, Hit, bytes)])
    case SetThenUpsert(key, checksum, size) =>
      s.(redis := if ok then s.redis[RedisKey(key) := checksum] else s.redis,
         tasks := s.tasks[id := UpsertThenEvent(key, checksum, size)])
    case UpsertThenEvent(key, checksum, size) =>
      s.(table := if ok then Execute(s.table, Upsert(key, checksum, size), s.now) else s.table,
         tasks := s.tasks[id := RecordEvent(key, Miss, size)])
    case RecordEvent(key, kind, bytes) =>
      AfterRecord(s, id, key, kind, bytes, ok)
    case MarkBlocked(key) =>
      s.(table := if ok then Execute(s.table, Block(key), s.now) else s.table,
         tasks := s.tasks - {id})
  }

  function NextRow(s: State): Evictor
    requires s.evictor.Evicting? && s.evictor.queue != []
  {
    if |s.evictor.queue| == 1 then Idle else s.evictor.(queue := s.evictor.queue[1..], stage := FromStorage)
  }

  function AfterEvict(s: State, ok: bool): State
    requires s.evictor.Evicting? && s.evictor.queue != []
  {
    var row := s.evictor.queue[0];
    match s.evictor.stage
    case FromStorage =>   // on failure the artifact still exists: leave Redis and Postgres alone
      if ok then s.(store := s.store - {row.checksum}, evictor := s.evictor.(stage := FromRedis))
      else s.(evictor := NextRow(s))
    case FromRedis =>
      s.(redis := if ok then s.redis - {RedisKey(row.key)} else s.redis, evictor := s.evictor.(stage := FromTable))
    case FromTable =>
      s.(table := if ok then Execute(s.table, DeleteId(row.id), s.now) else s.table, evictor := NextRow(s))
  }

  function Apply(s: State, a: Action): State
    requires Enabled(s, a)
  {
    match a
    case Arrive(rid, pkg) => s.(requests := s.requests[rid := Request(pkg, RedisLookup, false, 0, false)])
    case RedisGet(rid, ok) =>
      var k := RedisKey(s.requests[rid].pkg.Id());
      SetPc(s, rid, if ok && k in s.redis then RedisRead(s.redis[k]) else TableLookup)
    case ReadForRedis(rid, ok, sent) =>
      var c, k := s.requests[rid].pc.checksum, s.requests[rid].pkg.Id();
      ReadHit(s, rid, c, ok, sent, TouchThenEvent(k, if c in s.store then Sent(s.store[c], sent) else 0), TableLookup)
    case TableGet(rid, ok) => AfterTableGet(s, rid, ok)
    case ReadForTable(rid, ok, sent) =>
      var c, k := s.requests[rid].pc.checksum, s.requests[rid].pkg.Id();
      ReadHit(s, rid, c, ok, sent, SetThenEvent(k, c, if c in s.store then Sent(s.store[c], sent) else 0), Scanning)
    case Scanned(rid, outcome) => AfterScan(s, rid, outcome)
    case DoEnter(rid) => AfterEnter(s, rid)
    case LimiterWait(rid, ok) => AfterLimiter(s, rid, ok)
    case UpstreamGet(rid, result) => AfterUpstreamGet(s, rid, result)
    case BackoffOver(rid, cancelled) =>
      SetPc(s, rid, Fetching(AfterBackoff(s.requests[rid].pc.loop.attempt, s.cfg.maxAttempts, cancelled)))
    case FnReturn(rid) => SetPc(Fly(s, SF.FnReturn(rid, s.requests[rid].pc.loop.result)), rid, InFlight)
    case DoSignal(rid) => Fly(s, SF.Signal(rid))
    case DoRemove(rid) =>
      var s' := Fly(s, SF.Remove(rid));
      SetPc(s', rid, DoReturned(true, s'.flights.threads[rid].pc.result))
    case DoWake(rid) =>
      var s' := Fly(s, SF.Wake(rid));
      SetPc(s', rid, DoReturned(false, s'.flights.threads[rid].pc.result))
    case CountFetch(rid) => AfterDo(s, rid)
    case Put(rid, mode) => AfterPut(s, rid, mode)
    case Reply(rid, sent) => Send(s, rid, Miss, s.requests[rid].pc.body, sent)
    case Account(rid) => AfterAccount(s, rid)
    case TaskStep(id, ok) => AfterTask(s, id, ok)
    case RedisExpire(key) => s.(redis := s.redis - {key})
    case ObjectLost(checksum) => s.(store := s.store - {checksum})
    case EvictList(listed) =>
      s.(evictor := if listed == [] then Idle else Evicting(s.now - s.ttl, s.table, listed, FromStorage))
    case EvictStorage(ok) => AfterEvict(s, ok)
    case EvictRedis(ok) => AfterEvict(s, ok)
    case EvictTable(ok) => AfterEvict(s, ok)
    case Tick(to) => s.(now := to)
  }

  // ---- What actions leave alone --------------------------------------------------------------------

  predicate OnLookup(a: Action) {
    a.Arrive? || a.RedisGet? || a.ReadForRedis? || a.TableGet? || a.ReadForTable? || a.Scanned?
  }

  predicate OnFlight(a: Action) {
    a.DoEnter? || a.LimiterWait? || a.UpstreamGet? || a.BackoffOver? || a.FnReturn? || a.DoSignal? || a.DoRemove? || a.DoWake?
  }

  predicate OnAnswer(a: Action) { a.CountFetch? || a.Put? || a.Reply? || a.Account? }

  predicate OnTable(a: Action) { a.TaskStep? || a.EvictStorage? || a.EvictRedis? || a.EvictTable? }

  lemma TaskFrame(s: State, id: nat, ok: bool)
    requires id in s.tasks
    ensures var s' := AfterTask(s, id, ok);
            s'.requests == s.requests && s'.gets == s.gets && s'.now == s.now && s'.evictor == s.evictor
            && s'.flights == s.flights && s'.deliveries == s.deliveries && s'.store == s.store
  {
  }

  lemma EvictFrame(s: State, ok: bool)
    requires s.evictor.Evicting? && s.evictor.queue != []
    ensures var s' := AfterEvict(s, ok);
            && s'.requests == s.requests && s'.gets == s.gets && s'.now == s.now && s'.flights == s.flights
            && s'.deliveries == s.deliveries && s'.counters == s.counters && s'.events == s.events && s'.tasks == s.tasks
            && (s'.evictor.Evicting? ==>
                  && s'.evictor.listing == s.evictor.listing && s'.evictor.cutoff == s.evictor.cutoff
                  && forall r :: r in s'.evictor.queue ==> r in s.evictor.queue)
  {
  }

  lemma EnvironmentFrame(s: State, a: Action)
    requires Enabled(s, a) && !OnLookup(a) && !OnFlight(a) && !OnAnswer(a) && !OnTable(a)
    ensures var s' := Apply(s, a);
            s'.requests == s.requests && s'.gets == s.gets && s'.flights == s.flights && s'.deliveries == s.deliveries
            && s'.counters == s.counters && s'.events == s.events && s'.tasks == s.tasks
  {
  }

  /** Background work changes no request and makes no GET. */
  lemma BackgroundFrame(s: State, a: Action)
    requires Enabled(s, a) && !OnLookup(a) && !OnFlight(a) && !OnAnswer(a)
    ensures var s' := Apply(s, a);
            s'.requests == s.requests && s'.gets == s.gets && s'.flights == s.flights && s'.deliveries == s.deliveries
  {
    if a.TaskStep? {
      TaskFrame(s, a.task, a.ok);
    } else if OnTable(a) {
      EvictFrame(s, a.ok);
    } else {
      EnvironmentFrame(s, a);
    }
  }

  /** A request's step changes that request alone, and never its package. */
  ghost predicate OnlyRequest(s: State, s': State, rid: nat) {
    && s'.requests.Keys == s.requests.Keys && rid in s.requests
    && s'.requests[rid].pkg == s.requests[rid].pkg
    && s'.requests == s.requests[rid := s'.requests[rid]]
  }

  lemma ReadFrame(s: State, rid: nat, checksum: string, ok: bool, sent: nat, task: Task, miss: Pc)
    requires rid in s.requests
    ensures var s' := ReadHit(s, rid, checksum, ok, sent, task, miss);
            s'.gets == s.gets && OnlyRequest(s, s', rid)
  {
  }

  lemma LookupFrame(s: State, a: Action)
    requires Enabled(s, a) && OnLookup(a)
    ensures Apply(s, a).gets == s.gets
    ensures !a.Arrive? ==> OnlyRequest(s, Apply(s, a), a.rid)
    ensures a.Arrive? ==> Apply(s, a).requests == s.requests[a.rid := Request(a.pkg, RedisLookup, false, 0, false)]
  {
    match a
    case Arrive(_, _) =>
    case RedisGet(_, _) =>
    case TableGet(rid, ok) => TableGetFrame(s, rid, ok);
    case Scanned(rid, outcome) => ScannedFrame(s, rid, outcome);
    case ReadForRedis(rid, ok, sent) =>
      var c := s.requests[rid].pc.checksum;
      ReadFrame(s, rid, c, ok, sent,
                TouchThenEvent(s.requests[rid].pkg.Id(), if c in s.store then Sent(s.store[c], sent) else 0), TableLookup);
    case ReadForTable(rid, ok, sent) =>
      var c := s.requests[rid].pc.checksum;
      ReadFrame(s, rid, c, ok, sent,
                SetThenEvent(s.requests[rid].pkg.Id(), c, if c in s.store then Sent(s.store[c], sent) else 0), Scanning);
  }

  lemma TableGetFrame(s: State, rid: nat, ok: bool)
    requires rid in s.requests
    ensures AfterTableGet(s, rid, ok).gets == s.gets && OnlyRequest(s, AfterTableGet(s, rid, ok), rid)
  {
  }

  lemma ScannedFrame(s: State, rid: nat, outcome: Security.Outcome)
    requires rid in s.requests && rid !in s.flights.threads
    ensures AfterScan(s, rid, outcome).gets == s.gets && OnlyRequest(s, AfterScan(s, rid, outcome), rid)
  {
  }

  lemma FlightFrame(s: State, a: Action)
    requires Enabled(s, a) && OnFlight(a) && !a.UpstreamGet?
    ensures var s' := Apply(s, a);
            OnlyRequest(s, s', a.rid) && s'.gets == s.gets && s'.tasks == s.tasks && s'.events == s.events
            && s'.deliveries == s.deliveries
  {
    match a
    case DoEnter(rid) =>
      assert s.requests[rid := s.requests[rid]] == s.requests;
    case DoSignal(rid) =>
      assert s.requests[rid := s.requests[rid]] == s.requests;
    case LimiterWait(_, _) =>
    case BackoffOver(_, _) =>
    case FnReturn(_) =>
    case DoRemove(_) =>
    case DoWake(_) =>
  }

  lemma UpstreamFrame(s: State, a: Action)
    requires Enabled(s, a) && a.UpstreamGet?
    ensures var s' := Apply(s, a);
            OnlyRequest(s, s', a.rid) && s'.gets == s.gets + [GetRecord(s.requests[a.rid].pkg, a.result)]
            && s'.tasks == s.tasks && s'.events == s.events && s'.deliveries == s.deliveries
  {
  }

  lemma AnswerFrame(s: State, a: Action)
    requires Enabled(s, a) && OnAnswer(a)
    ensures var s' := Apply(s, a);
            OnlyRequest(s, s', a.rid) && s'.gets == s.gets && s'.flights == s.flights && s'.cfg == s.cfg
            && s'.events == s.events && s'.now == s.now
  {
  }

  // ---- Runs ----------------------------------------------------------------------------------------

  /** Only packages of U are requested. */
  ghost predicate Requests(a: Action, U: iset<Package>) { a.Arrive? ==> a.pkg in U }

  ghost predicate IsRun(s: State, actions: seq<Action>, U: iset<Package>)
    decreases |actions|
  {
    actions == [] || (Enabled(s, actions[0]) && Requests(actions[0], U) && IsRun(Apply(s, actions[0]), actions[1..], U))
  }

  ghost function Exec(s: State, actions: seq<Action>, U: iset<Package>): State
    requires IsRun(s, actions, U)
    decreases |actions|
  {
    if actions == [] then s else Exec(Apply(s, actions[0]), actions[1..], U)
  }
}
