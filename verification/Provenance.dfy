/** Where bytes come from: whatever the interleaving, what the cache serves for a package was once fetched
    from the upstream for it. The invariant is that index entries may dangle but only ever name a storage
    key of their own package, and that an object only ever holds what a fetch of its own package returned. */
module Provenance {
  import opened Foundation
  import opened Keys
  import opened ObjectStore
  import opened PackageStore
  import opened Upstream
  import opened CacheSystem
  import SF = SingleFlight
  import Security

  /** Storage key c belongs to a package of flight key `key` that was once fetched successfully. */
  ghost predicate Names(gets: seq<GetRecord>, key: string, c: string) {
    exists g :: g in gets && g.result.Fetched? && FlightKey(g.pkg.Id()) == key && g.pkg.CacheKey() == c
  }

  /** b was fetched for the package with storage key c. */
  ghost predicate Stored(gets: seq<GetRecord>, c: string, b: Bytes) {
    exists g :: g in gets && g.result == Fetched(b) && g.pkg.CacheKey() == c
  }

  /** b was fetched for a package of flight key `key`. */
  ghost predicate FlightBody(gets: seq<GetRecord>, key: string, b: Bytes) {
    exists g :: g in gets && g.result == Fetched(b) && FlightKey(g.pkg.Id()) == key
  }

  ghost predicate StoreOk(gets: seq<GetRecord>, store: map<string, Bytes>) {
    forall c :: c in store ==> Stored(gets, c, store[c])
  }

  ghost predicate EntryOk(gets: seq<GetRecord>, redisKey: string, c: string) {
    exists t :: RedisKey(t) == redisKey && Names(gets, FlightKey(t), c)
  }

  ghost predicate RedisOk(gets: seq<GetRecord>, redis: map<string, string>) {
    forall k :: k in redis ==> EntryOk(gets, k, redis[k])
  }

  ghost predicate TableOk(gets: seq<GetRecord>, t: Table) {
    forall k :: k in t.rows && t.rows[k].status.Cached? ==> Names(gets, FlightKey(k), t.rows[k].checksum)
  }

  ghost predicate RequestOk(gets: seq<GetRecord>, r: Request) {
    var key := FlightKey(r.pkg.Id());
    match r.pc
    case RedisRead(c) => Names(gets, key, c)
    case TableRead(c) => Names(gets, key, c)
    case Fetching(loop) => loop.Exit? && loop.result.Fetched? ==> GetRecord(r.pkg, loop.result) in gets
    case DoReturned(leader, result) =>
      && result.Some?
      && (result.value.Fetched? ==>
            FlightBody(gets, key, result.value.body) && (leader ==> GetRecord(r.pkg, result.value) in gets))
    case Storing(b) => GetRecord(r.pkg, Fetched(b)) in gets
    case Replying(b) => FlightBody(gets, key, b)
    case _ => true
  }

  ghost predicate RequestsOk(gets: seq<GetRecord>, requests: map<nat, Request>, U: iset<Package>) {
    && (forall rid :: rid in requests ==> requests[rid].pkg in U && RequestOk(gets, requests[rid]))
    && (forall g :: g in gets ==> g.pkg in U)
  }

  ghost predicate CellFrom(gets: seq<GetRecord>, requests: map<nat, Request>, cell: SF.Cell<FetchResult>) {
    && cell.leader in requests
    && cell.key == FlightKey(requests[cell.leader].pkg.Id())
    && (cell.result.Some? && cell.result.value.Fetched? ==> GetRecord(requests[cell.leader].pkg, cell.result.value) in gets)
  }

  ghost predicate FlightsOk(gets: seq<GetRecord>, requests: map<nat, Request>, flights: SF.State<FetchResult>) {
    && SF.Inv(flights)
    && (forall t :: t in flights.threads ==> t in requests && flights.threads[t].key == FlightKey(requests[t].pkg.Id()))
    && (forall i :: 0 <= i < |flights.cells| ==> CellFrom(gets, requests, flights.cells[i]))
  }

  ghost predicate TaskOk(gets: seq<GetRecord>, t: Task) {
    t.SetThenEvent? || t.SetThenUpsert? || t.UpsertThenEvent? ==> Names(gets, FlightKey(t.key), t.checksum)
  }

  ghost predicate TasksOk(gets: seq<GetRecord>, tasks: map<nat, Task>) {
    forall id :: id in tasks ==> TaskOk(gets, tasks[id])
  }

  /** What was sent is (a prefix of, when the copy broke off) a body fetched before for that flight key. */
  ghost predicate DeliveryOk(gets: seq<GetRecord>, d: Delivery) {
    && d.after <= |gets|
    && exists b :: FlightBody(gets[..d.after], FlightKey(d.pkg.Id()), b) && d.sent <= b && (d.complete ==> d.sent == b)
  }

  ghost predicate DeliveriesOk(gets: seq<GetRecord>, ds: seq<Delivery>, U: iset<Package>) {
    forall d :: d in ds ==> d.pkg in U && DeliveryOk(gets, d)
  }

  /** Storage keys determine their packages' flights. */
  ghost predicate WellFormedRequests(U: iset<Package>) { forall p :: p in U ==> WellFormed(p) }

  ghost predicate Prov(s: State, U: iset<Package>) {
    && s.cfg.maxAttempts >= 1
    && StoreOk(s.gets, s.store)
    && RedisOk(s.gets, s.redis)
    && TableOk(s.gets, s.table)
    && RequestsOk(s.gets, s.requests, U)
    && FlightsOk(s.gets, s.requests, s.flights)
    && TasksOk(s.gets, s.tasks)
    && DeliveriesOk(s.gets, s.deliveries, U)
  }

  lemma EmptyHasProvenance(cfg: RetryConfig, ttl: int, start: int, U: iset<Package>)
    requires cfg.maxAttempts >= 1
    ensures Prov(Empty(cfg, ttl, start), U)
  {
  }

  // ---- Every step keeps it -------------------------------------------------------------------------

  lemma Grow(gets: seq<GetRecord>, g: GetRecord)
    ensures forall k, c :: Names(gets, k, c) ==> Names(gets + [g], k, c)
    ensures forall c, b :: Stored(gets, c, b) ==> Stored(gets + [g], c, b)
    ensures forall k, b :: FlightBody(gets, k, b) ==> FlightBody(gets + [g], k, b)
    ensures forall d :: DeliveryOk(gets, d) ==> DeliveryOk(gets + [g], d)
  {
    assert forall h :: h in gets ==> h in gets + [g];
    forall d | DeliveryOk(gets, d) ensures DeliveryOk(gets + [g], d) {
      assert (gets + [g])[..d.after] == gets[..d.after];
    }
  }

  /** Reading the object that an index entry names gives a body fetched for this flight key. */
  lemma NamedObject(s: State, U: iset<Package>, key: string, c: string)
    requires Prov(s, U) && WellFormedRequests(U)
    requires Names(s.gets, key, c) && c in s.store
    ensures FlightBody(s.gets, key, s.store[c])
  {
    var g :| g in s.gets && g.result.Fetched? && FlightKey(g.pkg.Id()) == key && g.pkg.CacheKey() == c;
    assert Stored(s.gets, c, s.store[c]);
    var h :| h in s.gets && h.result == Fetched(s.store[c]) && h.pkg.CacheKey() == c;
    CacheKeySplits(g.pkg, h.pkg);
  }

  // The effects from which actions are composed.

  lemma KeepsPc(s: State, U: iset<Package>, rid: nat, pc: Pc)
    requires Prov(s, U) && rid in s.requests && RequestOk(s.gets, s.requests[rid].(pc := pc))
    ensures Prov(SetPc(s, rid, pc), U)
  {
    KeepsRequest(s, U, rid, s.requests[rid].(pc := pc));
  }

  lemma KeepsRequest(s: State, U: iset<Package>, rid: nat, r: Request)
    requires Prov(s, U) && RequestOk(s.gets, r) && r.pkg in U
    requires rid in s.requests ==> r.pkg == s.requests[rid].pkg
    ensures Prov(s.(requests := s.requests[rid := r]), U)
  {
    var requests := s.requests[rid := r];
    forall i | 0 <= i < |s.flights.cells| ensures CellFrom(s.gets, requests, s.flights.cells[i]) {
      assert CellFrom(s.gets, s.requests, s.flights.cells[i]);
    }
    assert FlightsOk(s.gets, requests, s.flights);
  }

  lemma KeepsSpawn(s: State, U: iset<Package>, task: Task)
    requires Prov(s, U) && TaskOk(s.gets, task)
    ensures Prov(Spawn(s, task), U)
  {
  }

  lemma KeepsSend(s: State, U: iset<Package>, rid: nat, kind: EventKind, b: Bytes, sent: nat)
    requires Prov(s, U) && rid in s.requests && FlightBody(s.gets, FlightKey(s.requests[rid].pkg.Id()), b)
    ensures Prov(Send(s, rid, kind, b, sent), U)
  {
    var n := Sent(b, sent);
    var d := Delivery(s.requests[rid].pkg, kind, b[..n], n == |b|, |s.gets|);
    assert s.gets[..|s.gets|] == s.gets;
    assert FlightBody(s.gets[..d.after], FlightKey(d.pkg.Id()), b) && d.sent <= b && (d.complete ==> d.sent == b);
    assert DeliveriesOk(s.gets, s.deliveries + [d], U);
    KeepsPc(s, U, rid, Returned(Served(kind, n)));
  }

  lemma KeepsCounters(s: State, U: iset<Package>, c: Counters)
    requires Prov(s, U)
    ensures Prov(s.(counters := c), U)
  {
  }

  lemma FlightStepFits(gets: seq<GetRecord>, requests: map<nat, Request>, f: SF.State<FetchResult>, a: SF.Action<FetchResult>)
    requires FlightsOk(gets, requests, f) && SF.Enabled(f, a)
    requires match a
             case Spawn(t, key) => t in requests && key == FlightKey(requests[t].pkg.Id())
             case FnReturn(t, r) => t in requests && (r.Fetched? ==> GetRecord(requests[t].pkg, r) in gets)
             case _ => true
    ensures forall i :: 0 <= i < |SF.Apply(f, a).cells| ==> CellFrom(gets, requests, SF.Apply(f, a).cells[i])
  {
    var f' := SF.Apply(f, a);
    if !a.Spawn? { assert SF.ThreadOk(f, a.t); }
    forall i | 0 <= i < |f'.cells| ensures CellFrom(gets, requests, f'.cells[i]) {
      if i < |f.cells| { assert CellFrom(gets, requests, f.cells[i]); }
    }
  }

  lemma KeepsFlights(s: State, U: iset<Package>, a: SF.Action<FetchResult>)
    requires Prov(s, U) && FlightEnabled(s, a)
    requires match a
             case Spawn(t, key) => t in s.requests && key == FlightKey(s.requests[t].pkg.Id())
             case FnReturn(t, r) => t in s.requests && (r.Fetched? ==> GetRecord(s.requests[t].pkg, r) in s.gets)
             case _ => true
    ensures Prov(Fly(s, a), U)
  {
    FlightStepFits(s.gets, s.requests, s.flights, a);
    KeepsFlightsOk(s.gets, s.requests, s.flights, a);
  }

  lemma KeepsFlightsOk(gets: seq<GetRecord>, requests: map<nat, Request>, f: SF.State<FetchResult>, a: SF.Action<FetchResult>)
    requires FlightsOk(gets, requests, f) && SF.Enabled(f, a)
    requires a.Spawn? ==> a.t in requests && a.key == FlightKey(requests[a.t].pkg.Id())
    requires forall i :: 0 <= i < |SF.Apply(f, a).cells| ==> CellFrom(gets, requests, SF.Apply(f, a).cells[i])
    ensures FlightsOk(gets, requests, SF.Apply(f, a))
  {
    SF.StepKeepsInv(f, a);
    ThreadsFit(requests, f, a);
  }

  lemma ThreadsFit(requests: map<nat, Request>, f: SF.State<FetchResult>, a: SF.Action<FetchResult>)
    requires SF.Enabled(f, a)
    requires forall t :: t in f.threads ==> t in requests && f.threads[t].key == FlightKey(requests[t].pkg.Id())
    requires a.Spawn? ==> a.t in requests && a.key == FlightKey(requests[a.t].pkg.Id())
    ensures var g := SF.Apply(f, a);
            forall t :: t in g.threads ==> t in requests && g.threads[t].key == FlightKey(requests[t].pkg.Id())
  {
  }

  lemma KeepsRedisSet(s: State, U: iset<Package>, key: Triple, c: string)
    requires Prov(s, U) && Names(s.gets, FlightKey(key), c)
    ensures Prov(s.(redis := s.redis[RedisKey(key) := c]), U)
  {
    var redis := s.redis[RedisKey(key) := c];
    forall k | k in redis ensures EntryOk(s.gets, k, redis[k]) {
      if k in s.redis { assert EntryOk(s.gets, k, s.redis[k]); }
    }
  }

  lemma KeepsRedisDelete(s: State, U: iset<Package>, k: string)
    requires Prov(s, U)
    ensures Prov(s.(redis := s.redis - {k}), U)
  {
    var redis := s.redis - {k};
    assert forall l :: l in redis ==> l in s.redis && EntryOk(s.gets, l, s.redis[l]);
  }

  lemma KeepsStatement(s: State, U: iset<Package>, st: Statement)
    requires Prov(s, U) && (st.Upsert? ==> Names(s.gets, FlightKey(st.k), st.checksum))
    ensures Prov(s.(table := Execute(s.table, st, s.now)), U)
  {
    assert TableOk(s.gets, Execute(s.table, st, s.now));
  }

  lemma KeepsObjects(s: State, U: iset<Package>, c: string)
    requires Prov(s, U)
    ensures Prov(s.(store := s.store - {c}), U)
  {
  }

  /** The evictor's own state, the events and the remaining task of a goroutine name nothing new. */
  lemma KeepsRest(s: State, U: iset<Package>, evictor: Evictor, events: seq<Event>, now: int)
    requires Prov(s, U)
    ensures Prov(s.(evictor := evictor, events := events, now := now), U)
  {
  }

  lemma KeepsTasks(s: State, U: iset<Package>, tasks: map<nat, Task>)
    requires Prov(s, U) && TasksOk(s.gets, tasks)
    ensures Prov(s.(tasks := tasks), U)
  {
  }

  // The actions.

  lemma KeepsHit(s: State, U: iset<Package>, rid: nat, c: string, ok: bool, sent: nat, task: Task, miss: Pc)
    requires Prov(s, U) && WellFormedRequests(U) && rid in s.requests
    requires Names(s.gets, FlightKey(s.requests[rid].pkg.Id()), c)
    requires TaskOk(s.gets, task) && (miss.TableLookup? || miss.Scanning?)
    ensures Prov(ReadHit(s, rid, c, ok, sent, task, miss), U)
  {
    if ok && c in s.store {
      NamedObject(s, U, FlightKey(s.requests[rid].pkg.Id()), c);
      KeepsSend(s, U, rid, Hit, s.store[c], sent);
      KeepsSpawn(Send(s, rid, Hit, s.store[c], sent), U, task);
    } else {
      KeepsPc(s, U, rid, miss);
    }
  }

  lemma KeepsRedisGet(s: State, U: iset<Package>, rid: nat, ok: bool)
    requires Prov(s, U) && Enabled(s, RedisGet(rid, ok))
    ensures Prov(Apply(s, RedisGet(rid, ok)), U)
  {
    var t := s.requests[rid].pkg.Id();
    var k := RedisKey(t);
    if ok && k in s.redis {
      assert EntryOk(s.gets, k, s.redis[k]);
      var u :| RedisKey(u) == k && Names(s.gets, FlightKey(u), s.redis[k]);
      RedisKeyAgrees(t, u);
      KeepsPc(s, U, rid, RedisRead(s.redis[k]));
    } else {
      KeepsPc(s, U, rid, TableLookup);
    }
  }

  lemma KeepsTableGet(s: State, U: iset<Package>, rid: nat, ok: bool)
    requires Prov(s, U) && Enabled(s, TableGet(rid, ok))
    ensures Prov(AfterTableGet(s, rid, ok), U)
  {
    var k := s.requests[rid].pkg.Id();
    var pc := if ok && k in s.table.rows then
                if s.table.rows[k].status.Blocked? then Returned(Refused(403)) else TableRead(s.table.rows[k].checksum)
              else Scanning;
    KeepsPc(s, U, rid, pc);
  }

  lemma KeepsScanned(s: State, U: iset<Package>, rid: nat, outcome: Security.Outcome)
    requires Prov(s, U) && Enabled(s, Scanned(rid, outcome))
    ensures Prov(AfterScan(s, rid, outcome), U)
  {
    var k := s.requests[rid].pkg.Id();
    if outcome.Block? {
      KeepsPc(s, U, rid, Returned(Refused(403)));
      KeepsSpawn(SetPc(s, rid, Returned(Refused(403))), U, MarkBlocked(k));
    } else {
      KeepsPc(s, U, rid, InFlight);
      KeepsFlights(SetPc(s, rid, InFlight), U, SF.Spawn(rid, FlightKey(k)));
    }
  }

  lemma KeepsEnter(s: State, U: iset<Package>, rid: nat)
    requires Prov(s, U) && Enabled(s, DoEnter(rid))
    ensures Prov(AfterEnter(s, rid), U)
  {
    KeepsFlights(s, U, SF.Enter(rid));
    KeepsRequest(Fly(s, SF.Enter(rid)), U, rid, s.requests[rid].(pc := Limiting, led := true));
  }

  lemma KeepsLimiter(s: State, U: iset<Package>, rid: nat, ok: bool)
    requires Prov(s, U) && Enabled(s, LimiterWait(rid, ok))
    ensures Prov(AfterLimiter(s, rid, ok), U)
  {
    KeepsPc(s, U, rid, Fetching(if ok then Start(s.cfg.maxAttempts) else Exit(Failed(RateLimited))));
  }

  lemma KeepsGets(s: State, U: iset<Package>, g: GetRecord)
    requires Prov(s, U) && g.pkg in U
    ensures Prov(s.(gets := s.gets + [g]), U)
  {
    var gets := s.gets + [g];
    Grow(s.gets, g);
    assert forall h :: h in s.gets ==> h in gets;
    assert RedisOk(gets, s.redis) by {
      forall k | k in s.redis ensures EntryOk(gets, k, s.redis[k]) { assert EntryOk(s.gets, k, s.redis[k]); }
    }
    assert FlightsOk(gets, s.requests, s.flights) by {
      forall i | 0 <= i < |s.flights.cells| ensures CellFrom(gets, s.requests, s.flights.cells[i]) {
        assert CellFrom(s.gets, s.requests, s.flights.cells[i]);
      }
    }
    assert RequestsOk(gets, s.requests, U);
    assert TasksOk(gets, s.tasks);
    assert DeliveriesOk(gets, s.deliveries, U);
  }

  lemma KeepsUpstreamGet(s: State, U: iset<Package>, rid: nat, result: FetchResult)
    requires Prov(s, U) && Enabled(s, UpstreamGet(rid, result))
    ensures Prov(AfterUpstreamGet(s, rid, result), U)
  {
    var r := s.requests[rid];
    var g := GetRecord(r.pkg, result);
    var r' := r.(pc := Fetching(AfterGet(r.pc.loop.attempt, s.cfg.maxAttempts, result)), gets := r.gets + 1);
    assert g.pkg in U && g in s.gets + [g];
    var s1 := s.(gets := s.gets + [g]);
    assert Prov(s1, U) by { KeepsGets(s, U, g); }
    assert RequestOk(s1.gets, r');
    assert AfterUpstreamGet(s, rid, result) == s1.(requests := s1.requests[rid := r']);
    KeepsRequest(s1, U, rid, r');
  }

  lemma KeepsFnReturn(s: State, U: iset<Package>, rid: nat)
    requires Prov(s, U) && Enabled(s, FnReturn(rid))
    ensures Prov(Apply(s, FnReturn(rid)), U)
  {
    var a := SF.FnReturn(rid, s.requests[rid].pc.loop.result);
    assert RequestOk(s.gets, s.requests[rid]);
    KeepsFlights(s, U, a);
    KeepsPc(Fly(s, a), U, rid, InFlight);
  }

  /** The result of call c is one that sf.Do may hand back: to the leader what its own fn fetched, to a
      follower the leader's result. */
  lemma ResultFits(s: State, U: iset<Package>, rid: nat, leader: bool)
    requires Prov(s, U) && rid in s.requests && FlightEnabled(s, if leader then SF.Remove(rid) else SF.Wake(rid))
    ensures var c := s.flights.threads[rid].pc.call;
            RequestOk(s.gets, s.requests[rid].(pc := DoReturned(leader, s.flights.cells[c].result)))
  {
    var c := s.flights.threads[rid].pc.call;
    assert SF.ThreadOk(s.flights, rid) && SF.CellOk(s.flights, c);
    assert CellFrom(s.gets, s.requests, s.flights.cells[c]);
  }

  lemma KeepsRemove(s: State, U: iset<Package>, rid: nat)
    requires Prov(s, U) && Enabled(s, DoRemove(rid))
    ensures Prov(Apply(s, DoRemove(rid)), U)
  {
    ResultFits(s, U, rid, true);
    KeepsFlights(s, U, SF.Remove(rid));
    KeepsPc(Fly(s, SF.Remove(rid)), U, rid, DoReturned(true, s.flights.cells[s.flights.threads[rid].pc.call].result));
  }

  lemma KeepsWake(s: State, U: iset<Package>, rid: nat)
    requires Prov(s, U) && Enabled(s, DoWake(rid))
    ensures Prov(Apply(s, DoWake(rid)), U)
  {
    ResultFits(s, U, rid, false);
    KeepsFlights(s, U, SF.Wake(rid));
    KeepsPc(Fly(s, SF.Wake(rid)), U, rid, DoReturned(false, s.flights.cells[s.flights.threads[rid].pc.call].result));
  }

  lemma KeepsCountFetch(s: State, U: iset<Package>, rid: nat)
    requires Prov(s, U) && Enabled(s, CountFetch(rid))
    ensures Prov(AfterDo(s, rid), U)
  {
    assert RequestOk(s.gets, s.requests[rid]);
    KeepsRequest(s, U, rid, AfterDo(s, rid).requests[rid]);
    KeepsCounters(s.(requests := AfterDo(s, rid).requests), U, AfterDo(s, rid).counters);
  }

  lemma KeepsPut(s: State, U: iset<Package>, rid: nat, mode: PutMode)
    requires Prov(s, U) && Enabled(s, Put(rid, mode))
    ensures Prov(AfterPut(s, rid, mode), U)
  {
    var p, b := s.requests[rid].pkg, s.requests[rid].pc.body;
    assert RequestOk(s.gets, s.requests[rid]);
    var g := GetRecord(p, Fetched(b));
    assert g in s.gets && g.result.Fetched? && FlightKey(g.pkg.Id()) == FlightKey(p.Id());
    assert Stored(s.gets, p.CacheKey(), b) && Names(s.gets, FlightKey(p.Id()), p.CacheKey());
    KeepsPc(s, U, rid, Replying(b));
    KeepsSpawn(SetPc(s, rid, Replying(b)), U, SetThenUpsert(p.Id(), p.CacheKey(), |b|));
    assert StoreOk(s.gets, s.store[p.CacheKey() := b]);
  }

  lemma KeepsAccount(s: State, U: iset<Package>, rid: nat)
    requires Prov(s, U) && Enabled(s, Account(rid))
    ensures Prov(AfterAccount(s, rid), U)
  {
    KeepsPc(s, U, rid, Done(s.requests[rid].pc.reply));
    KeepsCounters(SetPc(s, rid, Done(s.requests[rid].pc.reply)), U, AfterAccount(s, rid).counters);
  }

  lemma KeepsSetTask(s: State, U: iset<Package>, id: nat, ok: bool)
    requires Prov(s, U) && id in s.tasks && (s.tasks[id].SetThenEvent? || s.tasks[id].SetThenUpsert?)
    ensures Prov(AfterTask(s, id, ok), U)
  {
    var t := s.tasks[id];
    assert TaskOk(s.gets, t);
    var s1 := s.(tasks := AfterTask(s, id, ok).tasks);
    KeepsTasks(s, U, s1.tasks);
    if ok { KeepsRedisSet(s1, U, t.key, t.checksum); }
  }

  lemma KeepsTableTask(s: State, U: iset<Package>, id: nat, ok: bool)
    requires Prov(s, U) && id in s.tasks
    requires s.tasks[id].TouchThenEvent? || s.tasks[id].UpsertThenEvent? || s.tasks[id].MarkBlocked?
    ensures Prov(AfterTask(s, id, ok), U)
  {
    var t := s.tasks[id];
    assert TaskOk(s.gets, t);
    var s1 := s.(tasks := AfterTask(s, id, ok).tasks);
    KeepsTasks(s, U, s1.tasks);
    if ok {
      var st := if t.TouchThenEvent? then TouchHit(t.key) else if t.MarkBlocked? then Block(t.key)
                else Upsert(t.key, t.checksum, t.size);
      KeepsStatement(s1, U, st);
    }
  }

  lemma KeepsRecordTask(s: State, U: iset<Package>, id: nat, ok: bool)
    requires Prov(s, U) && id in s.tasks && s.tasks[id].RecordEvent?
    ensures Prov(AfterTask(s, id, ok), U)
  {
    var s' := AfterTask(s, id, ok);
    KeepsTasks(s, U, s'.tasks);
    KeepsRest(s.(tasks := s'.tasks), U, s.evictor, s'.events, s.now);
    KeepsCounters(s.(tasks := s'.tasks, events := s'.events), U, s'.counters);
  }

  lemma KeepsTask(s: State, U: iset<Package>, id: nat, ok: bool)
    requires Prov(s, U) && id in s.tasks
    ensures Prov(AfterTask(s, id, ok), U)
  {
    if s.tasks[id].RecordEvent? {
      KeepsRecordTask(s, U, id, ok);
    } else if s.tasks[id].SetThenEvent? || s.tasks[id].SetThenUpsert? {
      KeepsSetTask(s, U, id, ok);
    } else {
      KeepsTableTask(s, U, id, ok);
    }
  }

  lemma KeepsEvict(s: State, U: iset<Package>, ok: bool)
    requires Prov(s, U) && s.evictor.Evicting? && s.evictor.queue != []
    ensures Prov(AfterEvict(s, ok), U)
  {
    var row := s.evictor.queue[0];
    var s1 := s.(evictor := AfterEvict(s, ok).evictor);
    KeepsRest(s, U, s1.evictor, s.events, s.now);
    if ok {
      match s.evictor.stage
      case FromStorage => KeepsObjects(s1, U, row.checksum);
      case FromRedis => KeepsRedisDelete(s1, U, RedisKey(row.key));
      case FromTable => KeepsStatement(s1, U, DeleteId(row.id));
    }
  }

  lemma ReadsKeepProvenance(s: State, U: iset<Package>, a: Action)
    requires Prov(s, U) && WellFormedRequests(U) && Enabled(s, a) && (a.ReadForRedis? || a.ReadForTable?)
    ensures Prov(Apply(s, a), U)
  {
    var c, k := s.requests[a.rid].pc.checksum, s.requests[a.rid].pkg.Id();
    var n := if c in s.store then Sent(s.store[c], a.sent) else 0;
    assert RequestOk(s.gets, s.requests[a.rid]);
    if a.ReadForRedis? {
      KeepsHit(s, U, a.rid, c, a.ok, a.sent, TouchThenEvent(k, n), TableLookup);
    } else {
      KeepsHit(s, U, a.rid, c, a.ok, a.sent, SetThenEvent(k, c, n), Scanning);
    }
  }

  lemma LookupsKeepProvenance(s: State, U: iset<Package>, a: Action)
    requires Prov(s, U) && WellFormedRequests(U) && Enabled(s, a) && Requests(a, U) && OnLookup(a)
    ensures Prov(Apply(s, a), U)
  {
    if a.ReadForRedis? || a.ReadForTable? {
      ReadsKeepProvenance(s, U, a);
    } else {
      IndexLookupsKeepProvenance(s, U, a);
    }
  }

  lemma IndexLookupsKeepProvenance(s: State, U: iset<Package>, a: Action)
    requires Prov(s, U) && Enabled(s, a) && Requests(a, U)
    requires a.Arrive? || a.RedisGet? || a.TableGet? || a.Scanned?
    ensures Prov(Apply(s, a), U)
  {
    match a
    case Arrive(rid, pkg) => KeepsRequest(s, U, rid, Request(pkg, RedisLookup, false, 0, false));
    case RedisGet(rid, ok) => KeepsRedisGet(s, U, rid, ok);
    case TableGet(rid, ok) => KeepsTableGet(s, U, rid, ok);
    case Scanned(rid, outcome) => KeepsScanned(s, U, rid, outcome);
  }

  lemma FlightKeepsProvenance(s: State, U: iset<Package>, a: Action)
    requires Prov(s, U) && Enabled(s, a) && OnFlight(a)
    ensures Prov(Apply(s, a), U)
  {
    if a.LimiterWait? || a.UpstreamGet? || a.BackoffOver? {
      FetchKeepsProvenance(s, U, a);
    } else {
      DoKeepsProvenance(s, U, a);
    }
  }

  lemma FetchKeepsProvenance(s: State, U: iset<Package>, a: Action)
    requires Prov(s, U) && Enabled(s, a) && (a.LimiterWait? || a.UpstreamGet? || a.BackoffOver?)
    ensures Prov(Apply(s, a), U)
  {
    match a
    case LimiterWait(rid, ok) => KeepsLimiter(s, U, rid, ok);
    case UpstreamGet(rid, result) => KeepsUpstreamGet(s, U, rid, result);
    case BackoffOver(rid, cancelled) =>
      KeepsPc(s, U, rid, Fetching(AfterBackoff(s.requests[rid].pc.loop.attempt, s.cfg.maxAttempts, cancelled)));
  }

  lemma DoKeepsProvenance(s: State, U: iset<Package>, a: Action)
    requires Prov(s, U) && Enabled(s, a) && (a.DoEnter? || a.FnReturn? || a.DoSignal? || a.DoRemove? || a.DoWake?)
    ensures Prov(Apply(s, a), U)
  {
    match a
    case DoEnter(rid) => KeepsEnter(s, U, rid);
    case FnReturn(rid) => KeepsFnReturn(s, U, rid);
    case DoSignal(rid) => KeepsFlights(s, U, SF.Signal(rid));
    case DoRemove(rid) => KeepsRemove(s, U, rid);
    case DoWake(rid) => KeepsWake(s, U, rid);
  }

  lemma AnswersKeepProvenance(s: State, U: iset<Package>, a: Action)
    requires Prov(s, U) && Enabled(s, a) && OnAnswer(a)
    ensures Prov(Apply(s, a), U)
  {
    match a
    case CountFetch(rid) => KeepsCountFetch(s, U, rid);
    case Put(rid, mode) => KeepsPut(s, U, rid, mode);
    case Reply(rid, sent) =>
      assert RequestOk(s.gets, s.requests[rid]);
      KeepsSend(s, U, rid, Miss, s.requests[rid].pc.body, sent);
    case Account(rid) => KeepsAccount(s, U, rid);
  }

  lemma BackgroundKeepsProvenance(s: State, U: iset<Package>, a: Action)
    requires Prov(s, U) && Enabled(s, a) && !OnLookup(a) && !OnFlight(a) && !OnAnswer(a)
    ensures Prov(Apply(s, a), U)
  {
    match a
    case TaskStep(id, ok) => KeepsTask(s, U, id, ok);
    case RedisExpire(k) => KeepsRedisDelete(s, U, k);
    case ObjectLost(c) => KeepsObjects(s, U, c);
    case EvictList(_) => KeepsRest(s, U, Apply(s, a).evictor, s.events, s.now);
    case EvictStorage(ok) => KeepsEvict(s, U, ok);
    case EvictRedis(ok) => KeepsEvict(s, U, ok);
    case EvictTable(ok) => KeepsEvict(s, U, ok);
    case Tick(to) => KeepsRest(s, U, s.evictor, s.events, to);
  }

  /** Under any interleaving, with any failures, the invariant holds after every step. */
  lemma StepKeepsProvenance(s: State, U: iset<Package>, a: Action)
    requires Prov(s, U) && WellFormedRequests(U) && Enabled(s, a) && Requests(a, U)
    ensures Prov(Apply(s, a), U)
  {
    if OnLookup(a) {
      LookupsKeepProvenance(s, U, a);
    } else if OnFlight(a) {
      FlightKeepsProvenance(s, U, a);
    } else if OnAnswer(a) {
      AnswersKeepProvenance(s, U, a);
    } else {
      BackgroundKeepsProvenance(s, U, a);
    }
  }

  lemma {:induction false} RunKeepsProvenance(s: State, actions: seq<Action>, U: iset<Package>)
    requires Prov(s, U) && WellFormedRequests(U) && IsRun(s, actions, U)
    ensures Prov(Exec(s, actions, U), U)
    decreases |actions|
  {
    if actions != [] {
      StepKeepsProvenance(s, U, actions[0]);
      RunKeepsProvenance(Apply(s, actions[0]), actions[1..], U);
    }
  }
}
