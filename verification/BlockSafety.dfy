/** A package that the policy blocks never enters the cache. */
module BlockSafety {
  import opened Foundation
  import opened Keys
  import opened PackageStore
  import opened Upstream
  import opened CacheSystem
  import opened Provenance
  import opened EvictionRuns
  import opened Transparency

  /** Every scan of a package with flight key `key` completes with Block. */
  ghost predicate BlocksKey(s: State, a: Action, key: string) {
    a.Scanned? && a.rid in s.requests && FlightKey(s.requests[a.rid].pkg.Id()) == key ==> a.outcome.Block?
  }

  ghost predicate IsBlockedRun(s: State, actions: seq<Action>, U: iset<Package>, key: string)
    requires IsRun(s, actions, U)
    decreases |actions|
  {
    actions == [] || (BlocksKey(s, actions[0], key) && IsBlockedRun(Apply(s, actions[0]), actions[1..], U, key))
  }

  predicate BeforeScan(pc: Pc) {
    pc.RedisLookup? || pc.TableLookup? || pc.Scanning? || (pc.Returned? && pc.reply.Refused?) || (pc.Done? && pc.reply.Refused?)
  }

  ghost predicate NeverFetched(gets: seq<GetRecord>, key: string) {
    forall g :: g in gets ==> FlightKey(g.pkg.Id()) != key
  }

  ghost predicate BlockOk(s: State, key: string) {
    && NeverFetched(s.gets, key)
    && (forall rid :: rid in s.requests && FlightKey(s.requests[rid].pkg.Id()) == key ==> BeforeScan(s.requests[rid].pc))
  }

  /** A package that was never fetched has no index entry to read. */
  lemma NothingNamed(s: State, U: iset<Package>, key: string, c: string)
    requires Prov(s, U) && NeverFetched(s.gets, key)
    ensures !Names(s.gets, key, c)
  {
  }

  lemma RedisIsSilent(s: State, U: iset<Package>, key: string, t: Triple)
    requires Prov(s, U) && NeverFetched(s.gets, key) && FlightKey(t) == key
    ensures RedisKey(t) !in s.redis
  {
    if RedisKey(t) in s.redis {
      assert EntryOk(s.gets, RedisKey(t), s.redis[RedisKey(t)]);
      var u :| RedisKey(u) == RedisKey(t) && Names(s.gets, FlightKey(u), s.redis[RedisKey(t)]);
      RedisKeyAgrees(t, u);
    }
  }

  lemma TableIsSilent(s: State, U: iset<Package>, key: string, t: Triple)
    requires Prov(s, U) && NeverFetched(s.gets, key) && FlightKey(t) == key
    ensures t in s.table.rows ==> s.table.rows[t].status.Blocked?
  {
    if t in s.table.rows && s.table.rows[t].status.Cached? {
      NothingNamed(s, U, key, s.table.rows[t].checksum);
    }
  }

  lemma LookupsKeepBlocked(s: State, U: iset<Package>, a: Action, key: string)
    requires Prov(s, U) && BlockOk(s, key) && Enabled(s, a) && OnLookup(a) && BlocksKey(s, a, key)
    ensures BlockOk(Apply(s, a), key)
  {
    LookupFrame(s, a);
    if !a.Arrive? && FlightKey(s.requests[a.rid].pkg.Id()) == key {
      var t := s.requests[a.rid].pkg.Id();
      assert BeforeScan(s.requests[a.rid].pc);
      assert a.RedisGet? || a.TableGet? || a.Scanned?;
      if a.RedisGet? {
        RedisIsSilent(s, U, key, t);
      } else if a.TableGet? {
        TableIsSilent(s, U, key, t);
      }
      assert BeforeScan(Apply(s, a).requests[a.rid].pc);
    }
  }

  lemma FlightKeepsBlocked(s: State, U: iset<Package>, a: Action, key: string)
    requires Prov(s, U) && BlockOk(s, key) && Enabled(s, a) && OnFlight(a)
    ensures BlockOk(Apply(s, a), key)
  {
    assert FlightKey(s.requests[a.rid].pkg.Id()) != key;
    if a.UpstreamGet? { UpstreamFrame(s, a); } else { FlightFrame(s, a); }
  }

  lemma AnswersKeepBlocked(s: State, U: iset<Package>, a: Action, key: string)
    requires Prov(s, U) && BlockOk(s, key) && Enabled(s, a) && OnAnswer(a)
    ensures BlockOk(Apply(s, a), key)
  {
    AnswerFrame(s, a);
    if FlightKey(s.requests[a.rid].pkg.Id()) == key { RefusalIsAccounted(s, a); }
  }

  lemma RefusalIsAccounted(s: State, a: Action)
    requires Enabled(s, a) && OnAnswer(a) && BeforeScan(s.requests[a.rid].pc)
    ensures a.rid in Apply(s, a).requests && BeforeScan(Apply(s, a).requests[a.rid].pc)
  {
    assert a.Account?;
    assert Apply(s, a) == AfterAccount(s, a.rid);
  }

  lemma BackgroundKeepsBlocked(s: State, U: iset<Package>, a: Action, key: string)
    requires Prov(s, U) && BlockOk(s, key) && Enabled(s, a) && !OnLookup(a) && !OnFlight(a) && !OnAnswer(a)
    ensures BlockOk(Apply(s, a), key)
  {
    BackgroundFrame(s, a);
  }

  lemma StepKeepsBlocked(s: State, U: iset<Package>, a: Action, key: string)
    requires Prov(s, U) && BlockOk(s, key) && Enabled(s, a) && BlocksKey(s, a, key)
    ensures BlockOk(Apply(s, a), key)
  {
    if OnLookup(a) {
      LookupsKeepBlocked(s, U, a, key);
    } else if OnFlight(a) {
      FlightKeepsBlocked(s, U, a, key);
    } else if OnAnswer(a) {
      AnswersKeepBlocked(s, U, a, key);
    } else {
      BackgroundKeepsBlocked(s, U, a, key);
    }
  }

  lemma {:induction false} RunKeepsBlocked(s: State, actions: seq<Action>, U: iset<Package>, key: string)
    requires Prov(s, U) && WellFormedRequests(U) && BlockOk(s, key)
    requires IsRun(s, actions, U) && IsBlockedRun(s, actions, U, key)
    ensures BlockOk(Exec(s, actions, U), key)
    decreases |actions|
  {
    if actions != [] {
      StepKeepsBlocked(s, U, actions[0], key);
      StepKeepsProvenance(s, U, actions[0]);
      RunKeepsBlocked(Apply(s, actions[0]), actions[1..], U, key);
    }
  }

  /** None of the stores, and no client, ever sees a blocked package. */
  ghost predicate Absent(s: State, p: Package) {
    && p.CacheKey() !in s.store
    && RedisKey(p.Id()) !in s.redis
    && (p.Id() in s.table.rows ==> s.table.rows[p.Id()].status.Blocked?)
    && (forall d :: d in s.deliveries ==> d.pkg.Id() != p.Id())
    && (forall g :: g in s.gets ==> g.pkg.Id() != p.Id())
  }

  lemma BlockedIsAbsent(s: State, U: iset<Package>, p: Package)
    requires Prov(s, U) && WellFormedRequests(U) && p in U && NeverFetched(s.gets, FlightKey(p.Id()))
    ensures Absent(s, p)
  {
    var key := FlightKey(p.Id());
    RedisIsSilent(s, U, key, p.Id());
    if p.CacheKey() in s.store {
      assert Stored(s.gets, p.CacheKey(), s.store[p.CacheKey()]);
      var g :| g in s.gets && g.result == Fetched(s.store[p.CacheKey()]) && g.pkg.CacheKey() == p.CacheKey();
      CacheKeySplits(g.pkg, p);
    }
    forall d | d in s.deliveries ensures d.pkg.Id() != p.Id() {
      assert DeliveryOk(s.gets, d);
    }
  }

  /** Over all runs from an empty state: when every scan of a package completes with Block, then it is never
      fetched, stored, indexed or served, whatever interleaves. */
  lemma BlockedNeverEnters(cfg: RetryConfig, ttl: int, start: int, actions: seq<Action>, U: iset<Package>, p: Package)
    requires WellFormedRequests(U) && p in U && cfg.maxAttempts >= 1
    requires RunsFrom(cfg, ttl, start, actions, U)
    requires IsBlockedRun(Empty(cfg, ttl, start), actions, U, FlightKey(p.Id()))
    ensures Absent(Final(cfg, ttl, start, actions, U), p)
  {
    var s0 := Empty(cfg, ttl, start);
    EmptyHasProvenance(cfg, ttl, start, U);
    RunKeepsBlocked(s0, actions, U, FlightKey(p.Id()));
    RunKeepsProvenance(s0, actions, U);
    BlockedIsAbsent(Final(cfg, ttl, start, actions, U), U, p);
  }

  /** The blocked row itself: no step, and in particular none of the evictor, removes it or unblocks it. */
  ghost predicate QueueNames(s: State) {
    s.evictor.Evicting? ==> forall r :: r in s.evictor.queue ==> Names(s.gets, FlightKey(r.key), r.checksum)
  }

  lemma EvictionKeepsQueueNames(s: State, U: iset<Package>, a: Action)
    requires Prov(s, U) && QueueNames(s) && Enabled(s, a) && OnTable(a)
    ensures QueueNames(Apply(s, a))
  {
    EvictorMoves(s, a);
    BackgroundFrame(s, a);
  }

  lemma OthersKeepQueueNames(s: State, U: iset<Package>, a: Action)
    requires Prov(s, U) && QueueNames(s) && Enabled(s, a) && !OnTable(a) && !a.EvictList?
    ensures QueueNames(Apply(s, a))
  {
    TableStays(s, a);
    GetsGrow(s, a);
  }

  lemma StepKeepsQueueNames(s: State, U: iset<Package>, a: Action)
    requires Prov(s, U) && QueueNames(s) && Enabled(s, a)
    ensures QueueNames(Apply(s, a))
  {
    if OnTable(a) {
      EvictionKeepsQueueNames(s, U, a);
    } else if a.EvictList? {
      ListingNames(s, U, a.listed);
    } else {
      OthersKeepQueueNames(s, U, a);
    }
  }

  lemma ListingNames(s: State, U: iset<Package>, listed: seq<Row>)
    requires Prov(s, U) && Enabled(s, EvictList(listed))
    ensures QueueNames(Apply(s, EvictList(listed)))
  {
    forall r | r in listed ensures Names(s.gets, FlightKey(r.key), r.checksum) {
      assert r.key in s.table.rows && s.table.rows[r.key] == r && r.status.Cached?;
    }
  }

  lemma GetsGrow(s: State, a: Action)
    requires Enabled(s, a)
    ensures forall k, c :: Names(s.gets, k, c) ==> Names(Apply(s, a).gets, k, c)
  {
    if a.UpstreamGet? {
      UpstreamFrame(s, a);
      Grow(s.gets, GetRecord(s.requests[a.rid].pkg, a.result));
    } else {
      GetsStay(s, a);
    }
  }

  lemma GetsStay(s: State, a: Action)
    requires Enabled(s, a) && !a.UpstreamGet?
    ensures Apply(s, a).gets == s.gets
  {
    if OnLookup(a) {
      LookupFrame(s, a);
    } else if OnFlight(a) {
      FlightFrame(s, a);
    } else if OnAnswer(a) {
      AnswerFrame(s, a);
    } else {
      BackgroundFrame(s, a);
    }
  }

  lemma StepKeepsBlockedRow(s: State, U: iset<Package>, a: Action, k: Triple)
    requires Prov(s, U) && EvictionOk(s) && QueueNames(s) && BlockOk(s, FlightKey(k)) && Enabled(s, a)
    requires k in s.table.rows && s.table.rows[k].status.Blocked?
    ensures k in Apply(s, a).table.rows
    ensures var r := Apply(s, a).table.rows[k]; r.status.Blocked? && r.id == s.table.rows[k].id
  {
    TableChangesByStatements(s, a);
    var st := StatementOf(s, a);
    if st.Some? {
      StatementsTouchOneRow(s.table, st.value, s.now, k);
      if st.value.Upsert? {
        assert TaskOk(s.gets, s.tasks[a.task]);
        NothingNamed(s, U, FlightKey(k), st.value.checksum);
      } else if st.value.DeleteId? {
        var r := s.evictor.queue[0];
        assert r in s.evictor.queue;
        NothingNamed(s, U, FlightKey(k), r.checksum);
      }
    }
  }

  lemma {:induction false} BlockedRowStays(s: State, actions: seq<Action>, U: iset<Package>, k: Triple)
    requires Prov(s, U) && WellFormedRequests(U) && EvictionOk(s) && QueueNames(s) && BlockOk(s, FlightKey(k))
    requires IsRun(s, actions, U) && IsBlockedRun(s, actions, U, FlightKey(k))
    requires k in s.table.rows && s.table.rows[k].status.Blocked?
    ensures var s' := Exec(s, actions, U);
            k in s'.table.rows && s'.table.rows[k].status.Blocked? && s'.table.rows[k].id == s.table.rows[k].id
    decreases |actions|
  {
    if actions != [] {
      var a := actions[0];
      StepKeepsBlockedRow(s, U, a, k);
      StepKeepsBlocked(s, U, a, FlightKey(k));
      StepKeepsProvenance(s, U, a);
      StepKeepsEviction(s, a);
      StepKeepsQueueNames(s, U, a);
      BlockedRowStays(Apply(s, a), actions[1..], U, k);
    }
  }

  lemma {:induction false} RunKeepsQueueNames(s: State, actions: seq<Action>, U: iset<Package>)
    requires Prov(s, U) && WellFormedRequests(U) && QueueNames(s) && IsRun(s, actions, U)
    ensures QueueNames(Exec(s, actions, U))
    decreases |actions|
  {
    if actions != [] {
      StepKeepsQueueNames(s, U, actions[0]);
      StepKeepsProvenance(s, U, actions[0]);
      RunKeepsQueueNames(Apply(s, actions[0]), actions[1..], U);
    }
  }

  /** From an empty cache, with every scan of the package blocking: once its row is blocked, it stays that
      blocked row in every continuation, evictor included. */
  lemma BlockedRowStaysFromEmpty(cfg: RetryConfig, ttl: int, start: int, before: seq<Action>, after: seq<Action>,
                                 U: iset<Package>, k: Triple)
    requires WellFormedRequests(U) && cfg.maxAttempts >= 1 && RunsFrom(cfg, ttl, start, before, U)
    requires IsBlockedRun(Empty(cfg, ttl, start), before, U, FlightKey(k))
    requires var s := Final(cfg, ttl, start, before, U);
             && k in s.table.rows && s.table.rows[k].status.Blocked?
             && IsRun(s, after, U) && IsBlockedRun(s, after, U, FlightKey(k))
    ensures var s := Final(cfg, ttl, start, before, U);
            var s' := Exec(s, after, U);
            k in s'.table.rows && s'.table.rows[k].status.Blocked? && s'.table.rows[k].id == s.table.rows[k].id
  {
    var s0 := Empty(cfg, ttl, start);
    EmptyHasProvenance(cfg, ttl, start, U);
    RunKeepsProvenance(s0, before, U);
    RunKeepsEviction(s0, before, U);
    RunKeepsQueueNames(s0, before, U);
    RunKeepsBlocked(s0, before, U, FlightKey(k));
    BlockedRowStays(Final(cfg, ttl, start, before, U), after, U, k);
  }
}
