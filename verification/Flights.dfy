/** How the requests of the system stand in single flight: the program counter of a request inside sf.Do
    (internal/proxy/proxy.go) and that of its thread (internal/singleflight/singleflight.go) agree in every
    reachable state, whatever is requested. */
module Flights {
  import opened Keys
  import opened Upstream
  import opened CacheSystem
  import SF = SingleFlight

  /** What the request's program counter says about its thread. */
  ghost predicate PcOk(f: SF.State<FetchResult>, rid: nat, pc: Pc) {
    match pc
    case RedisLookup => rid !in f.threads
    case RedisRead(_) => rid !in f.threads
    case TableLookup => rid !in f.threads
    case TableRead(_) => rid !in f.threads
    case Scanning => rid !in f.threads
    case Limiting => rid in f.threads && f.threads[rid].pc.Running?
    case Fetching(_) => rid in f.threads && f.threads[rid].pc.Running?
    case InFlight =>
      && rid in f.threads
      && (var t := f.threads[rid].pc; t.Ready? || t.Waiting? || t.Assigned? || t.Signalled?)
    case DoReturned(leader, result) =>
      rid in f.threads && f.threads[rid].pc.Returned? && f.threads[rid].pc.leader == leader && f.threads[rid].pc.result == result
    case _ => rid in f.threads ==> f.threads[rid].pc.Returned?
  }

  ghost predicate RequestsFit(requests: map<nat, Request>, f: SF.State<FetchResult>) {
    && (forall t :: t in f.threads ==> t in requests && f.threads[t].key == FlightKey(requests[t].pkg.Id()))
    && (forall rid :: rid in requests ==> PcOk(f, rid, requests[rid].pc))
  }

  ghost predicate FlightsFit(s: State) { SF.Inv(s.flights) && RequestsFit(s.requests, s.flights) }

  lemma EmptyFits(cfg: RetryConfig, ttl: int, start: int)
    ensures FlightsFit(Empty(cfg, ttl, start))
  {
  }

  /** A request moves on without its thread. */
  lemma PcMoves(s: State, s': State, rid: nat)
    requires FlightsFit(s) && OnlyRequest(s, s', rid) && s'.flights == s.flights && PcOk(s.flights, rid, s'.requests[rid].pc)
    ensures FlightsFit(s')
  {
  }

  /** A thread moves on, with its request. */
  lemma ThreadMoves(s: State, s': State, rid: nat, a: SF.Action<FetchResult>)
    requires FlightsFit(s) && OnlyRequest(s, s', rid) && SF.Enabled(s.flights, a) && s'.flights == SF.Apply(s.flights, a)
    requires a.t == rid && (a.Spawn? ==> a.key == FlightKey(s.requests[rid].pkg.Id()))
    requires PcOk(s'.flights, rid, s'.requests[rid].pc)
    ensures FlightsFit(s')
  {
    SF.StepKeepsInv(s.flights, a);
    forall i | i in s'.requests ensures PcOk(s'.flights, i, s'.requests[i].pc) {
      if i != rid { assert s'.requests[i] == s.requests[i] && PcOk(s.flights, i, s.requests[i].pc); }
    }
  }

  lemma ReadFits(s: State, rid: nat, c: string, ok: bool, sent: nat, task: Task, miss: Pc)
    requires FlightsFit(s) && rid in s.requests && rid !in s.flights.threads && (miss.TableLookup? || miss.Scanning?)
    ensures FlightsFit(ReadHit(s, rid, c, ok, sent, task, miss))
  {
    ReadFrame(s, rid, c, ok, sent, task, miss);
    PcMoves(s, ReadHit(s, rid, c, ok, sent, task, miss), rid);
  }

  lemma ReadsFit(s: State, a: Action)
    requires FlightsFit(s) && Enabled(s, a) && (a.ReadForRedis? || a.ReadForTable?)
    ensures FlightsFit(Apply(s, a))
  {
    var c, k := s.requests[a.rid].pc.checksum, s.requests[a.rid].pkg.Id();
    var n := if c in s.store then Sent(s.store[c], a.sent) else 0;
    assert PcOk(s.flights, a.rid, s.requests[a.rid].pc);
    if a.ReadForRedis? {
      ReadFits(s, a.rid, c, a.ok, a.sent, TouchThenEvent(k, n), TableLookup);
    } else {
      ReadFits(s, a.rid, c, a.ok, a.sent, SetThenEvent(k, c, n), Scanning);
    }
  }

  lemma ScannedFits(s: State, rid: nat, a: Action)
    requires FlightsFit(s) && Enabled(s, a) && a.Scanned? && rid == a.rid
    ensures FlightsFit(Apply(s, a))
  {
    LookupFrame(s, a);
    if a.outcome.Block? {
      PcMoves(s, Apply(s, a), rid);
    } else {
      ThreadMoves(s, Apply(s, a), rid, SF.Spawn(rid, FlightKey(s.requests[rid].pkg.Id())));
    }
  }

  lemma IndexFits(s: State, a: Action)
    requires FlightsFit(s) && Enabled(s, a) && (a.RedisGet? || a.TableGet?)
    ensures FlightsFit(Apply(s, a))
  {
    LookupFrame(s, a);
    IndexPcs(s, a);
    PcMoves(s, Apply(s, a), a.rid);
  }

  lemma IndexPcs(s: State, a: Action)
    requires FlightsFit(s) && Enabled(s, a) && (a.RedisGet? || a.TableGet?)
    ensures var s' := Apply(s, a); a.rid in s'.requests && s'.flights == s.flights && PcOk(s.flights, a.rid, s'.requests[a.rid].pc)
  {
    assert PcOk(s.flights, a.rid, s.requests[a.rid].pc);
  }

  lemma LookupsFit(s: State, a: Action)
    requires FlightsFit(s) && Enabled(s, a) && OnLookup(a)
    ensures FlightsFit(Apply(s, a))
  {
    if a.Arrive? {
      assert a.rid !in s.flights.threads;
    } else if a.Scanned? {
      ScannedFits(s, a.rid, a);
    } else if a.RedisGet? || a.TableGet? {
      IndexFits(s, a);
    } else {
      ReadsFit(s, a);
    }
  }

  lemma FetchFits(s: State, a: Action)
    requires FlightsFit(s) && Enabled(s, a) && (a.LimiterWait? || a.UpstreamGet? || a.BackoffOver?)
    ensures FlightsFit(Apply(s, a))
  {
    if a.UpstreamGet? { UpstreamFrame(s, a); } else { FlightFrame(s, a); }
    assert PcOk(s.flights, a.rid, s.requests[a.rid].pc);
    PcMoves(s, Apply(s, a), a.rid);
  }

  lemma EnterFits(s: State, rid: nat)
    requires FlightsFit(s) && Enabled(s, DoEnter(rid))
    ensures FlightsFit(Apply(s, DoEnter(rid)))
  {
    FlightFrame(s, DoEnter(rid));
    ThreadMoves(s, Apply(s, DoEnter(rid)), rid, SF.Enter(rid));
  }

  lemma LeaveFits(s: State, a: Action)
    requires FlightsFit(s) && Enabled(s, a) && (a.FnReturn? || a.DoSignal?)
    ensures FlightsFit(Apply(s, a))
  {
    FlightFrame(s, a);
    if a.FnReturn? {
      ThreadMoves(s, Apply(s, a), a.rid, SF.FnReturn(a.rid, s.requests[a.rid].pc.loop.result));
    } else {
      ThreadMoves(s, Apply(s, a), a.rid, SF.Signal(a.rid));
    }
  }

  lemma ReturnFits(s: State, a: Action)
    requires FlightsFit(s) && Enabled(s, a) && (a.DoRemove? || a.DoWake?)
    ensures FlightsFit(Apply(s, a))
  {
    FlightFrame(s, a);
    ThreadMoves(s, Apply(s, a), a.rid, if a.DoRemove? then SF.Remove(a.rid) else SF.Wake(a.rid));
  }

  lemma FlightsStepFits(s: State, a: Action)
    requires FlightsFit(s) && Enabled(s, a) && OnFlight(a)
    ensures FlightsFit(Apply(s, a))
  {
    if a.DoEnter? {
      EnterFits(s, a.rid);
    } else if a.FnReturn? || a.DoSignal? {
      LeaveFits(s, a);
    } else if a.DoRemove? || a.DoWake? {
      ReturnFits(s, a);
    } else {
      FetchFits(s, a);
    }
  }

  lemma AnswersFit(s: State, a: Action)
    requires FlightsFit(s) && Enabled(s, a) && OnAnswer(a)
    ensures FlightsFit(Apply(s, a))
  {
    AnswerFrame(s, a);
    AnswerPcs(s, a);
    PcMoves(s, Apply(s, a), a.rid);
  }

  lemma CountPcs(s: State, rid: nat)
    requires FlightsFit(s) && Enabled(s, CountFetch(rid))
    ensures var s' := Apply(s, CountFetch(rid)); rid in s'.requests && PcOk(s.flights, rid, s'.requests[rid].pc)
  {
    assert PcOk(s.flights, rid, s.requests[rid].pc);
  }

  lemma AnswerPcs(s: State, a: Action)
    requires FlightsFit(s) && Enabled(s, a) && OnAnswer(a)
    ensures a.rid in Apply(s, a).requests && PcOk(s.flights, a.rid, Apply(s, a).requests[a.rid].pc)
  {
    assert PcOk(s.flights, a.rid, s.requests[a.rid].pc);
    if a.CountFetch? { CountPcs(s, a.rid); }
  }

  /** Every step keeps it, without any hypothesis on what is requested. */
  lemma StepKeepsFit(s: State, a: Action)
    requires FlightsFit(s) && Enabled(s, a)
    ensures FlightsFit(Apply(s, a))
  {
    if OnLookup(a) {
      LookupsFit(s, a);
    } else if OnFlight(a) {
      FlightsStepFits(s, a);
    } else if OnAnswer(a) {
      AnswersFit(s, a);
    } else {
      BackgroundFrame(s, a);
    }
  }

  lemma {:induction false} RunKeepsFit(s: State, actions: seq<Action>, U: iset<Package>)
    requires FlightsFit(s) && IsRun(s, actions, U)
    ensures FlightsFit(Exec(s, actions, U))
    decreases |actions|
  {
    if actions != [] {
      StepKeepsFit(s, actions[0]);
      RunKeepsFit(Apply(s, actions[0]), actions[1..], U);
    }
  }
}
