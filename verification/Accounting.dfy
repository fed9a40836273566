/** Conservation over whole runs: upstream work is bounded by the flights flown, and the counters of
    ServeHTTP balance with the event log and the goroutines still pending. */
module Accounting {
  import opened Foundation
  import opened Keys
  import opened PackageStore
  import opened Upstream
  import opened CacheSystem
  import opened Flights
  import SF = SingleFlight

  // ---- What each request contributes ---------------------------------------------------------------

  function One(b: bool): int { if b then 1 else 0 }

  function GetsOf(r: Request): int { r.gets }
  function Led(r: Request): int { One(r.led) }
  function Completed(r: Request): int { One(r.completed) }
  function Waited(r: Request): int { One(r.led && !r.pc.Limiting?) }

  predicate Answered(pc: Pc) { pc.Replying? || (pc.Returned? && pc.reply.Served?) || (pc.Done? && pc.reply.Served?) }

  function FetchedOk(r: Request): int { One(r.completed && (r.pc.Storing? || Answered(r.pc))) }
  function PutDone(r: Request): int { One(r.completed && Answered(r.pc)) }

  /** The attempts that a configuration allows: none, when it says less than none. */
  function Limit(max: int): nat { if max < 0 then 0 else max }

  /** A leader's GETs follow the attempts of the loop; a request that is no leader makes none. */
  ghost predicate RequestFine(max: int, r: Request) {
    && (r.led ==> r.gets <= Limit(max))
    && (!r.led ==> r.gets == 0 && !r.completed)
    && match r.pc
       case Limiting => r.led && r.gets == 0 && !r.completed
       case Fetching(Get(i)) => r.led && r.gets == i < max && !r.completed
       case Fetching(Backoff(i)) => r.led && r.gets == i + 1 < max && !r.completed
       case Fetching(Exit(_)) => r.led && !r.completed
       case InFlight => !r.completed
       case DoReturned(leader, _) => leader == r.led && !r.completed
       case RedisLookup => !r.led
       case RedisRead(_) => !r.led
       case TableLookup => !r.led
       case TableRead(_) => !r.led
       case Scanning => !r.led
       case Storing(_) => r.led && r.completed
       case _ => r.completed == r.led
  }

  /** A request has led exactly if its thread did not join another's call. */
  ghost predicate LedOk(s: State, rid: nat)
    requires rid in s.requests
  {
    s.requests[rid].led <==>
      && rid in s.flights.threads && !s.flights.threads[rid].pc.Ready?
      && s.flights.threads[rid].pc.call < |s.flights.cells|
      && s.flights.cells[s.flights.threads[rid].pc.call].leader == rid
  }

  ghost predicate UpstreamBooks(s: State) {
    && (forall rid :: rid in s.requests ==> RequestFine(s.cfg.maxAttempts, s.requests[rid]))
    && (forall rid :: rid in s.requests ==> LedOk(s, rid))
    && |s.gets| == Sum(s.requests, GetsOf)
    && |s.flights.cells| == Sum(s.requests, Led)
    && s.counters.fetchOk + s.counters.fetchErrors == Sum(s.requests, Completed)
    && s.counters.fetchOk == Sum(s.requests, FetchedOk)
    && s.counters.waits == Sum(s.requests, Waited)
    && s.counters.puts == Sum(s.requests, PutDone)
  }

  lemma UpdateSums(m: map<nat, Request>, rid: nat, r: Request)
    requires rid in m
    ensures var m' := m[rid := r];
            && Sum(m', GetsOf) == Sum(m, GetsOf) - GetsOf(m[rid]) + GetsOf(r)
            && Sum(m', Led) == Sum(m, Led) - Led(m[rid]) + Led(r)
            && Sum(m', Completed) == Sum(m, Completed) - Completed(m[rid]) + Completed(r)
            && Sum(m', FetchedOk) == Sum(m, FetchedOk) - FetchedOk(m[rid]) + FetchedOk(r)
            && Sum(m', Waited) == Sum(m, Waited) - Waited(m[rid]) + Waited(r)
            && Sum(m', PutDone) == Sum(m, PutDone) - PutDone(m[rid]) + PutDone(r)
  {
    SumUpdate(m, rid, r, GetsOf);
    SumUpdate(m, rid, r, Led);
    SumUpdate(m, rid, r, Completed);
    SumUpdate(m, rid, r, FetchedOk);
    SumUpdate(m, rid, r, Waited);
    SumUpdate(m, rid, r, PutDone);
  }

  /** One request moves, and the counters move with its contribution. */
  lemma BooksFollow(s: State, s': State, rid: nat)
    requires UpstreamBooks(s) && OnlyRequest(s, s', rid) && s'.cfg == s.cfg
    requires var r, r' := s.requests[rid], s'.requests[rid];
             && RequestFine(s.cfg.maxAttempts, r') && (forall i :: i in s'.requests ==> LedOk(s', i))
             && |s'.gets| - |s.gets| == GetsOf(r') - GetsOf(r)
             && |s'.flights.cells| - |s.flights.cells| == Led(r') - Led(r)
             && s'.counters.fetchOk - s.counters.fetchOk == FetchedOk(r') - FetchedOk(r)
             && s'.counters.fetchOk + s'.counters.fetchErrors - s.counters.fetchOk - s.counters.fetchErrors
                == Completed(r') - Completed(r)
             && s'.counters.waits - s.counters.waits == Waited(r') - Waited(r)
             && s'.counters.puts - s.counters.puts == PutDone(r') - PutDone(r)
    ensures UpstreamBooks(s')
  {
    UpdateSums(s.requests, rid, s'.requests[rid]);
    forall i | i in s'.requests ensures RequestFine(s'.cfg.maxAttempts, s'.requests[i]) {
      if i != rid { assert s'.requests[i] == s.requests[i]; }
    }
  }

  /** Flights that only move threads along keep who led what. */
  lemma FlightsKeepLed(s: State, s': State, rid: nat)
    requires (forall i :: i in s.requests ==> LedOk(s, i)) && OnlyRequest(s, s', rid)
    requires s'.requests[rid].led == s.requests[rid].led
    requires s'.flights.threads.Keys == s.flights.threads.Keys
    requires |s'.flights.cells| == |s.flights.cells|
    requires forall c :: 0 <= c < |s.flights.cells| ==> s'.flights.cells[c].leader == s.flights.cells[c].leader
    requires forall t :: t in s.flights.threads ==>
               var p, p' := s.flights.threads[t].pc, s'.flights.threads[t].pc;
               p'.Ready? == p.Ready? && (!p.Ready? ==> p'.call == p.call)
    ensures forall i :: i in s'.requests ==> LedOk(s', i)
  {
    forall i | i in s'.requests ensures LedOk(s', i) {
      assert LedOk(s, i);
      if i != rid { assert s'.requests[i] == s.requests[i]; }
    }
  }

  /** Steps that leave single flight alone. */
  lemma QuietStep(s: State, s': State, rid: nat)
    requires (forall i :: i in s.requests ==> LedOk(s, i)) && OnlyRequest(s, s', rid)
    requires s'.flights == s.flights && s'.requests[rid].led == s.requests[rid].led
    ensures forall i :: i in s'.requests ==> LedOk(s', i)
  {
    FlightsKeepLed(s, s', rid);
  }

  lemma LookupBooks(s: State, a: Action)
    requires UpstreamBooks(s) && Enabled(s, a) && OnLookup(a) && !a.Arrive? && !a.Scanned?
    ensures UpstreamBooks(Apply(s, a))
  {
    LookupFrame(s, a);
    LookupFacts(s, a);
    QuietStep(s, Apply(s, a), a.rid);
    BooksFollow(s, Apply(s, a), a.rid);
  }

  /** A lookup leaves everything but the request's pc, the deliveries and the goroutines alone. */
  ghost predicate LookedUp(s: State, s': State, rid: nat)
    requires rid in s.requests && rid in s'.requests
  {
    && s'.flights == s.flights && s'.counters == s.counters && s'.cfg == s.cfg
    && s'.requests[rid] == s.requests[rid].(pc := s'.requests[rid].pc)
    && (var pc := s'.requests[rid].pc;
        pc.RedisRead? || pc.TableLookup? || pc.TableRead? || pc.Scanning? || pc.Returned?)
  }

  lemma ReadFacts(s: State, rid: nat, c: string, ok: bool, sent: nat, task: Task, miss: Pc)
    requires rid in s.requests && (miss.TableLookup? || miss.Scanning?)
    ensures LookedUp(s, ReadHit(s, rid, c, ok, sent, task, miss), rid)
  {
  }

  lemma LookupFacts(s: State, a: Action)
    requires Enabled(s, a) && OnLookup(a) && !a.Arrive? && !a.Scanned?
    ensures LookedUp(s, Apply(s, a), a.rid)
    ensures var pc := s.requests[a.rid].pc; pc.RedisLookup? || pc.RedisRead? || pc.TableLookup? || pc.TableRead?
  {
    match a
    case RedisGet(_, _) =>
    case TableGet(_, _) =>
    case ReadForRedis(rid, ok, sent) =>
      var c := s.requests[rid].pc.checksum;
      ReadFacts(s, rid, c, ok, sent,
                TouchThenEvent(s.requests[rid].pkg.Id(), if c in s.store then Sent(s.store[c], sent) else 0), TableLookup);
    case ReadForTable(rid, ok, sent) =>
      var c := s.requests[rid].pc.checksum;
      ReadFacts(s, rid, c, ok, sent,
                SetThenEvent(s.requests[rid].pkg.Id(), c, if c in s.store then Sent(s.store[c], sent) else 0), Scanning);
  }

  lemma ArriveBooks(s: State, a: Action)
    requires UpstreamBooks(s) && Enabled(s, a) && a.Arrive? && a.rid !in s.flights.threads
    ensures UpstreamBooks(Apply(s, a))
  {
    var r := Request(a.pkg, RedisLookup, false, 0, false);
    var s' := Apply(s, a);
    SumUpdate(s.requests, a.rid, r, GetsOf);
    SumUpdate(s.requests, a.rid, r, Led);
    SumUpdate(s.requests, a.rid, r, Completed);
    SumUpdate(s.requests, a.rid, r, FetchedOk);
    SumUpdate(s.requests, a.rid, r, Waited);
    SumUpdate(s.requests, a.rid, r, PutDone);
    forall i | i in s'.requests ensures LedOk(s', i) && RequestFine(s'.cfg.maxAttempts, s'.requests[i]) {
      if i != a.rid { assert LedOk(s, i) && s'.requests[i] == s.requests[i]; }
    }
  }

  lemma ScannedFacts(s: State, a: Action)
    requires Enabled(s, a) && a.Scanned?
    ensures var s', r := Apply(s, a), s.requests[a.rid];
            && OnlyRequest(s, s', a.rid) && s'.cfg == s.cfg && s'.gets == s.gets && s'.counters == s.counters
            && (s'.requests[a.rid] == r.(pc := InFlight) || s'.requests[a.rid] == r.(pc := Returned(Refused(403))))
            && s'.flights.cells == s.flights.cells
            && (s'.flights.threads == s.flights.threads
                || s'.flights.threads == s.flights.threads[a.rid := SF.Thread(FlightKey(r.pkg.Id()), SF.Ready)])
  {
    LookupFrame(s, a);
  }

  lemma ScannedBooks(s: State, a: Action)
    requires UpstreamBooks(s) && Enabled(s, a) && a.Scanned?
    ensures UpstreamBooks(Apply(s, a))
  {
    var s' := Apply(s, a);
    ScannedFacts(s, a);
    assert RequestFine(s.cfg.maxAttempts, s.requests[a.rid]);
    forall i | i in s'.requests ensures LedOk(s', i) {
      assert LedOk(s, i);
      if i != a.rid { assert s'.requests[i] == s.requests[i]; }
    }
    BooksFollow(s, s', a.rid);
  }

  lemma EnterBooks(s: State, a: Action)
    requires UpstreamBooks(s) && Enabled(s, a) && a.DoEnter? && SF.Inv(s.flights)
    ensures UpstreamBooks(Apply(s, a))
  {
    var s', f, rid := Apply(s, a), s.flights, a.rid;
    FlightFrame(s, a);
    assert LedOk(s, rid) && !s.requests[rid].led;
    var k := f.threads[rid].key;
    if k in f.calls {
      assert SF.CallOk(f, k) && SF.CellOk(f, f.calls[k]);
      assert f.cells[f.calls[k]].leader != rid;
    }
    forall i | i in s'.requests ensures LedOk(s', i) {
      assert LedOk(s, i);
      if i != rid {
        assert s'.requests[i] == s.requests[i];
        if i in f.threads { assert SF.ThreadOk(f, i); }
      }
    }
    BooksFollow(s, s', rid);
  }

  /** A thread's step in single flight makes no new leader. */
  ghost predicate SameLeaders(f: SF.State<FetchResult>, f': SF.State<FetchResult>) {
    && f'.threads.Keys == f.threads.Keys
    && |f'.cells| == |f.cells|
    && (forall c :: 0 <= c < |f.cells| ==> f'.cells[c].leader == f.cells[c].leader)
    && (forall t :: t in f.threads ==>
          var p, p' := f.threads[t].pc, f'.threads[t].pc;
          p'.Ready? == p.Ready? && (!p.Ready? ==> p'.call == p.call))
  }

  lemma SameLeadersAfter(f: SF.State<FetchResult>, a: SF.Action<FetchResult>)
    requires SF.Enabled(f, a) && !a.Spawn? && !a.Enter?
    ensures SameLeaders(f, SF.Apply(f, a))
  {
  }

  function FlightAction(s: State, a: Action): SF.Action<FetchResult>
    requires a.FnReturn? || a.DoSignal? || a.DoRemove? || a.DoWake?
  {
    match a
    case FnReturn(rid) =>
      SF.FnReturn(rid, if rid in s.requests && s.requests[rid].pc.Fetching? && s.requests[rid].pc.loop.Exit?
                       then s.requests[rid].pc.loop.result else Failed(Network))
    case DoSignal(rid) => SF.Signal(rid)
    case DoRemove(rid) => SF.Remove(rid)
    case DoWake(rid) => SF.Wake(rid)
  }

  lemma FlightMoves(s: State, a: Action)
    requires UpstreamBooks(s) && Enabled(s, a) && (a.FnReturn? || a.DoSignal? || a.DoRemove? || a.DoWake?)
    ensures var s' := Apply(s, a);
            && (forall i :: i in s'.requests ==> LedOk(s', i))
            && s'.requests[a.rid].led == s.requests[a.rid].led
            && |s'.flights.cells| == |s.flights.cells|
  {
    FlightFrame(s, a);
    FlightPcs(s, a);
    SameLeadersAfter(s.flights, FlightAction(s, a));
    FlightsKeepLed(s, Apply(s, a), a.rid);
  }

  lemma LeaderFlag(s: State, a: Action)
    requires UpstreamBooks(s) && Enabled(s, a) && (a.DoRemove? || a.DoWake?) && SF.Inv(s.flights)
    ensures s.requests[a.rid].led == a.DoRemove?
  {
    assert LedOk(s, a.rid) && SF.ThreadOk(s.flights, a.rid);
  }

  lemma DoBooks(s: State, a: Action)
    requires UpstreamBooks(s) && Enabled(s, a) && (a.DoRemove? || a.DoWake?) && SF.Inv(s.flights)
    ensures UpstreamBooks(Apply(s, a))
  {
    FlightFrame(s, a);
    FlightMoves(s, a);
    LeaderFlag(s, a);
    FlightPcs(s, a);
    BooksFollow(s, Apply(s, a), a.rid);
  }

  lemma FlightBooks(s: State, a: Action)
    requires UpstreamBooks(s) && Enabled(s, a) && (a.FnReturn? || a.DoSignal?)
    ensures UpstreamBooks(Apply(s, a))
  {
    FlightFrame(s, a);
    FlightMoves(s, a);
    FlightPcs(s, a);
    BooksFollow(s, Apply(s, a), a.rid);
  }

  lemma FlightPcs(s: State, a: Action)
    requires Enabled(s, a) && (a.FnReturn? || a.DoSignal? || a.DoRemove? || a.DoWake?)
    ensures var s' := Apply(s, a);
            && FlightEnabled(s, FlightAction(s, a)) && s'.flights == SF.Apply(s.flights, FlightAction(s, a))
            && s'.counters == s.counters && s'.cfg == s.cfg
            && s'.requests[a.rid] == s.requests[a.rid].(pc := s'.requests[a.rid].pc)
            && (a.FnReturn? ==> s'.requests[a.rid].pc.InFlight? && s.requests[a.rid].pc.Fetching?)
            && (a.DoSignal? ==> s'.requests[a.rid].pc.InFlight? && s.requests[a.rid].pc.InFlight?)
            && (a.DoRemove? || a.DoWake? ==>
                  s.requests[a.rid].pc.InFlight? && s'.requests[a.rid].pc.DoReturned?
                  && s'.requests[a.rid].pc.leader == a.DoRemove?)
  {
  }

  lemma LoopBooks(s: State, a: Action)
    requires UpstreamBooks(s) && Enabled(s, a) && (a.LimiterWait? || a.BackoffOver?)
    ensures UpstreamBooks(Apply(s, a))
  {
    FlightFrame(s, a);
    assert RequestFine(s.cfg.maxAttempts, s.requests[a.rid]);
    QuietStep(s, Apply(s, a), a.rid);
    BooksFollow(s, Apply(s, a), a.rid);
  }

  lemma GetBooks(s: State, a: Action)
    requires UpstreamBooks(s) && Enabled(s, a) && a.UpstreamGet?
    ensures UpstreamBooks(Apply(s, a))
  {
    UpstreamFrame(s, a);
    assert RequestFine(s.cfg.maxAttempts, s.requests[a.rid]);
    QuietStep(s, Apply(s, a), a.rid);
    BooksFollow(s, Apply(s, a), a.rid);
  }

  lemma AnswerBooks(s: State, a: Action)
    requires UpstreamBooks(s) && Enabled(s, a) && OnAnswer(a)
    ensures UpstreamBooks(Apply(s, a))
  {
    assert RequestFine(s.cfg.maxAttempts, s.requests[a.rid]);
    AnswerFrame(s, a);
    AnswerCounts(s, a);
    QuietStep(s, Apply(s, a), a.rid);
    BooksFollow(s, Apply(s, a), a.rid);
  }

  lemma AnswerCounts(s: State, a: Action)
    requires Enabled(s, a) && OnAnswer(a) && RequestFine(s.cfg.maxAttempts, s.requests[a.rid])
    ensures var s' := Apply(s, a);
            && a.rid in s'.requests
            && var r, r' := s.requests[a.rid], s'.requests[a.rid];
            && RequestFine(s.cfg.maxAttempts, r') && r'.led == r.led && r'.gets == r.gets
            && Waited(r') == Waited(r)
            && s'.counters.fetchOk - s.counters.fetchOk == FetchedOk(r') - FetchedOk(r)
            && s'.counters.fetchOk + s'.counters.fetchErrors - s.counters.fetchOk - s.counters.fetchErrors
               == Completed(r') - Completed(r)
            && s'.counters.waits == s.counters.waits
            && s'.counters.puts - s.counters.puts == PutDone(r') - PutDone(r)
  {
    match a
    case CountFetch(_) =>
    case Put(_, _) =>
    case Reply(_, _) =>
    case Account(_) =>
  }

  lemma BackgroundBooks(s: State, a: Action)
    requires UpstreamBooks(s) && Enabled(s, a) && !OnLookup(a) && !OnFlight(a) && !OnAnswer(a)
    ensures UpstreamBooks(Apply(s, a))
  {
    BackgroundFrame(s, a);
    var s' := Apply(s, a);
    assert s'.cfg == s.cfg && s'.counters.fetchOk == s.counters.fetchOk && s'.counters.fetchErrors == s.counters.fetchErrors
           && s'.counters.waits == s.counters.waits && s'.counters.puts == s.counters.puts by {
      BackgroundCounters(s, a);
    }
    forall i | i in s'.requests ensures LedOk(s', i) { assert LedOk(s, i); }
  }

  lemma BackgroundCounters(s: State, a: Action)
    requires Enabled(s, a) && !OnLookup(a) && !OnFlight(a) && !OnAnswer(a)
    ensures var s', c := Apply(s, a), Apply(s, a).counters;
            s'.cfg == s.cfg && c.fetchOk == s.counters.fetchOk && c.fetchErrors == s.counters.fetchErrors
            && c.waits == s.counters.waits && c.puts == s.counters.puts
            && c.hits == s.counters.hits && c.hitBytes == s.counters.hitBytes && c.misses == s.counters.misses
            && c.followers == s.counters.followers
  {
    if OnTable(a) && !a.TaskStep? { EvictFrame(s, a.ok); } else if !a.TaskStep? { EnvironmentFrame(s, a); }
  }

  lemma OnFlightBooks(s: State, a: Action)
    requires UpstreamBooks(s) && SF.Inv(s.flights) && Enabled(s, a) && OnFlight(a)
    ensures UpstreamBooks(Apply(s, a))
  {
    if a.DoEnter? {
      EnterBooks(s, a);
    } else if a.LimiterWait? || a.BackoffOver? {
      LoopBooks(s, a);
    } else if a.UpstreamGet? {
      GetBooks(s, a);
    } else if a.DoRemove? || a.DoWake? {
      DoBooks(s, a);
    } else {
      FlightBooks(s, a);
    }
  }

  lemma OnLookupBooks(s: State, a: Action)
    requires UpstreamBooks(s) && FlightsFit(s) && Enabled(s, a) && OnLookup(a)
    ensures UpstreamBooks(Apply(s, a))
  {
    if a.Arrive? {
      ArriveBooks(s, a);
    } else if a.Scanned? {
      ScannedBooks(s, a);
    } else {
      LookupBooks(s, a);
    }
  }

  lemma StepKeepsUpstreamBooks(s: State, a: Action)
    requires UpstreamBooks(s) && FlightsFit(s) && Enabled(s, a)
    ensures UpstreamBooks(Apply(s, a))
  {
    if OnLookup(a) {
      OnLookupBooks(s, a);
    } else if OnFlight(a) {
      OnFlightBooks(s, a);
    } else if OnAnswer(a) {
      AnswerBooks(s, a);
    } else {
      BackgroundBooks(s, a);
    }
  }

  /** Over any run: at most the allowed GETs and one rate-limit wait per flight, every stored artifact comes
      from its own successful fetch, and the fetch counters never run ahead of the flights. */
  lemma UpstreamBound(s: State)
    requires UpstreamBooks(s)
    ensures |s.gets| <= Limit(s.cfg.maxAttempts) * |s.flights.cells|
    ensures s.counters.waits <= |s.flights.cells|
    ensures s.counters.puts <= s.counters.fetchOk
    ensures s.counters.fetchOk + s.counters.fetchErrors <= |s.flights.cells|
  {
    var max := s.cfg.maxAttempts;
    forall rid | rid in s.requests
      ensures GetsOf(s.requests[rid]) <= Limit(max) * Led(s.requests[rid])
      ensures Waited(s.requests[rid]) <= 1 * Led(s.requests[rid])
      ensures PutDone(s.requests[rid]) <= 1 * FetchedOk(s.requests[rid])
      ensures Completed(s.requests[rid]) <= 1 * Led(s.requests[rid])
    {
      assert RequestFine(max, s.requests[rid]);
    }
    SumBound(s.requests, GetsOf, Limit(max), Led);
    SumBound(s.requests, Waited, 1, Led);
    SumBound(s.requests, PutDone, 1, FetchedOk);
    SumBound(s.requests, Completed, 1, Led);
  }

  /** When every request is through, each flight has been counted once, as ok or as an error. */
  lemma EveryFlightIsCounted(s: State)
    requires UpstreamBooks(s) && forall rid :: rid in s.requests ==> s.requests[rid].pc.Done?
    ensures s.counters.fetchOk + s.counters.fetchErrors == |s.flights.cells|
    ensures s.counters.puts == s.counters.fetchOk && s.counters.waits == |s.flights.cells|
  {
    forall rid | rid in s.requests
      ensures Led(s.requests[rid]) <= 1 * Completed(s.requests[rid]) && Completed(s.requests[rid]) <= 1 * Led(s.requests[rid])
      ensures FetchedOk(s.requests[rid]) <= 1 * PutDone(s.requests[rid])
      ensures PutDone(s.requests[rid]) <= 1 * FetchedOk(s.requests[rid])
      ensures Waited(s.requests[rid]) <= 1 * Led(s.requests[rid]) && Led(s.requests[rid]) <= 1 * Waited(s.requests[rid])
    {
      assert RequestFine(s.cfg.maxAttempts, s.requests[rid]);
    }
    SumBound(s.requests, Led, 1, Completed);
    SumBound(s.requests, Completed, 1, Led);
    SumBound(s.requests, FetchedOk, 1, PutDone);
    SumBound(s.requests, PutDone, 1, FetchedOk);
    SumBound(s.requests, Waited, 1, Led);
    SumBound(s.requests, Led, 1, Waited);
  }

  // ---- Events and bytes ----------------------------------------------------------------------------

  function HitReturned(r: Request): int { One(r.pc.Returned? && r.pc.reply.Served? && r.pc.reply.kind.Hit?) }
  function HitBytesReturned(r: Request): int {
    if r.pc.Returned? && r.pc.reply.Served? && r.pc.reply.kind.Hit? then r.pc.reply.sent else 0
  }
  function MissReturned(r: Request): int {
    One(r.pc.Replying? || (r.pc.Returned? && r.pc.reply.Served? && r.pc.reply.kind.Miss?))
  }

  predicate HitTask(t: Task) { t.TouchThenEvent? || t.SetThenEvent? || (t.RecordEvent? && t.kind.Hit?) }
  function HitPending(t: Task): int { One(HitTask(t)) }
  function HitBytesPending(t: Task): int { if HitTask(t) then t.bytes else 0 }
  function MissPending(t: Task): int { One(t.SetThenUpsert? || t.UpsertThenEvent? || (t.RecordEvent? && t.kind.Miss?)) }

  /** Every hit and miss that serve returned is either counted or about to be, and its event is recorded,
      pending, or lost to a failed INSERT. A successful follower of a flight is a miss without an event. */
  ghost predicate EventBooks(s: State, since: int) {
    && since <= s.now
    && (forall e :: e in s.events ==> since <= e.at)
    && (forall id :: id in s.tasks ==> id < s.nextTask)
    && s.counters.hits + Sum(s.requests, HitReturned)
       == CountEvents(s.events, Hit, since) + Sum(s.tasks, HitPending) + s.counters.lostHits
    && s.counters.hitBytes + Sum(s.requests, HitBytesReturned)
       == SumBytes(s.events, Hit, since) + Sum(s.tasks, HitBytesPending) + s.counters.lostHitBytes
    && s.counters.misses + Sum(s.requests, MissReturned)
       == CountEvents(s.events, Miss, since) + Sum(s.tasks, MissPending) + s.counters.lostMisses + s.counters.followers
  }

  lemma RequestShares(m: map<nat, Request>, rid: nat, r: Request)
    requires rid in m
    ensures var m' := m[rid := r];
            && Sum(m', HitReturned) == Sum(m, HitReturned) - HitReturned(m[rid]) + HitReturned(r)
            && Sum(m', HitBytesReturned) == Sum(m, HitBytesReturned) - HitBytesReturned(m[rid]) + HitBytesReturned(r)
            && Sum(m', MissReturned) == Sum(m, MissReturned) - MissReturned(m[rid]) + MissReturned(r)
  {
    SumUpdate(m, rid, r, HitReturned);
    SumUpdate(m, rid, r, HitBytesReturned);
    SumUpdate(m, rid, r, MissReturned);
  }

  /** A request moves without an answer: none of its shares changes. */
  lemma SilentMove(s: State, s': State, rid: nat, since: int)
    requires EventBooks(s, since) && OnlyRequest(s, s', rid)
    requires s'.events == s.events && s'.tasks == s.tasks && s'.nextTask == s.nextTask && s.now <= s'.now
    requires var r, r' := s.requests[rid], s'.requests[rid];
             && s'.counters.hits - s.counters.hits == HitReturned(r) - HitReturned(r')
             && s'.counters.hitBytes - s.counters.hitBytes == HitBytesReturned(r) - HitBytesReturned(r')
             && s'.counters.misses - s.counters.misses - s'.counters.followers + s.counters.followers
                == MissReturned(r) - MissReturned(r')
    requires s'.counters.lostHits == s.counters.lostHits && s'.counters.lostHitBytes == s.counters.lostHitBytes
             && s'.counters.lostMisses == s.counters.lostMisses
    ensures EventBooks(s', since)
  {
    RequestShares(s.requests, rid, s'.requests[rid]);
  }

  lemma TaskShares(m: map<nat, Task>, id: nat, t: Task)
    ensures var m' := m[id := t];
            && Sum(m', HitPending) == Sum(m, HitPending) - (if id in m then HitPending(m[id]) else 0) + HitPending(t)
            && Sum(m', HitBytesPending)
               == Sum(m, HitBytesPending) - (if id in m then HitBytesPending(m[id]) else 0) + HitBytesPending(t)
            && Sum(m', MissPending) == Sum(m, MissPending) - (if id in m then MissPending(m[id]) else 0) + MissPending(t)
  {
    SumUpdate(m, id, t, HitPending);
    SumUpdate(m, id, t, HitBytesPending);
    SumUpdate(m, id, t, MissPending);
  }

  /** A request moves and leaves a goroutine with the matching event behind. */
  lemma SpawningMove(s: State, s': State, rid: nat, t: Task, since: int)
    requires EventBooks(s, since) && OnlyRequest(s, s', rid)
    requires s'.events == s.events && s'.tasks == s.tasks[s.nextTask := t] && s'.nextTask == s.nextTask + 1 && s'.now == s.now
    requires var r, r' := s.requests[rid], s'.requests[rid];
             && HitReturned(r') - HitReturned(r) == HitPending(t)
             && HitBytesReturned(r') - HitBytesReturned(r) == HitBytesPending(t)
             && MissReturned(r') - MissReturned(r) == MissPending(t)
    requires var c, c' := s.counters, s'.counters;
             c'.hits == c.hits && c'.hitBytes == c.hitBytes && c'.misses == c.misses && c'.followers == c.followers
             && c'.lostHits == c.lostHits && c'.lostHitBytes == c.lostHitBytes && c'.lostMisses == c.lostMisses
    ensures EventBooks(s', since)
  {
    RequestShares(s.requests, rid, s'.requests[rid]);
    TaskShares(s.tasks, s.nextTask, t);
  }

  lemma ReadEvents(s: State, rid: nat, c: string, ok: bool, sent: nat, task: Task, miss: Pc, since: int)
    requires EventBooks(s, since) && rid in s.requests && (miss.TableLookup? || miss.Scanning?)
    requires s.requests[rid].pc.RedisRead? || s.requests[rid].pc.TableRead?
    requires HitTask(task) && task.bytes == if c in s.store then Sent(s.store[c], sent) else 0
    ensures EventBooks(ReadHit(s, rid, c, ok, sent, task, miss), since)
  {
    var s' := ReadHit(s, rid, c, ok, sent, task, miss);
    ReadFrame(s, rid, c, ok, sent, task, miss);
    if ok && c in s.store {
      SpawningMove(s, s', rid, task, since);
    } else {
      SilentMove(s, s', rid, since);
    }
  }

  lemma ScannedEvents(s: State, a: Action, since: int)
    requires EventBooks(s, since) && Enabled(s, a) && a.Scanned?
    ensures EventBooks(Apply(s, a), since)
  {
    LookupFrame(s, a);
    if a.outcome.Block? {
      SpawningMove(s, Apply(s, a), a.rid, MarkBlocked(s.requests[a.rid].pkg.Id()), since);
    } else {
      SilentMove(s, Apply(s, a), a.rid, since);
    }
  }

  lemma ArriveEvents(s: State, a: Action, since: int)
    requires EventBooks(s, since) && Enabled(s, a) && a.Arrive?
    ensures EventBooks(Apply(s, a), since)
  {
    var r := Request(a.pkg, RedisLookup, false, 0, false);
    SumUpdate(s.requests, a.rid, r, HitReturned);
    SumUpdate(s.requests, a.rid, r, HitBytesReturned);
    SumUpdate(s.requests, a.rid, r, MissReturned);
  }

  /** A lookup that goes on to the next one. */
  lemma SetPcEvents(s: State, rid: nat, pc: Pc, since: int)
    requires EventBooks(s, since) && rid in s.requests
    requires s.requests[rid].pc.RedisLookup? || s.requests[rid].pc.TableLookup?
    requires !pc.Replying? && !(pc.Returned? && pc.reply.Served?)
    ensures EventBooks(SetPc(s, rid, pc), since)
  {
    SilentMove(s, SetPc(s, rid, pc), rid, since);
  }

  lemma RedisEvents(s: State, a: Action, since: int)
    requires EventBooks(s, since) && Enabled(s, a) && a.RedisGet?
    ensures EventBooks(Apply(s, a), since)
  {
    var k := RedisKey(s.requests[a.rid].pkg.Id());
    SetPcEvents(s, a.rid, if a.ok && k in s.redis then RedisRead(s.redis[k]) else TableLookup, since);
  }

  lemma TableEvents(s: State, a: Action, since: int)
    requires EventBooks(s, since) && Enabled(s, a) && a.TableGet?
    ensures EventBooks(Apply(s, a), since)
  {
    SetPcEvents(s, a.rid, AfterTableGet(s, a.rid, a.ok).requests[a.rid].pc, since);
  }

  lemma LookupEvents(s: State, a: Action, since: int)
    requires EventBooks(s, since) && Enabled(s, a) && OnLookup(a)
    ensures EventBooks(Apply(s, a), since)
  {
    match a
    case Arrive(_, _) => ArriveEvents(s, a, since);
    case Scanned(_, _) => ScannedEvents(s, a, since);
    case RedisGet(_, _) => RedisEvents(s, a, since);
    case TableGet(_, _) => TableEvents(s, a, since);
    case ReadForRedis(rid, ok, sent) =>
      var c := s.requests[rid].pc.checksum;
      ReadEvents(s, rid, c, ok, sent,
                 TouchThenEvent(s.requests[rid].pkg.Id(), if c in s.store then Sent(s.store[c], sent) else 0), TableLookup, since);
    case ReadForTable(rid, ok, sent) =>
      var c := s.requests[rid].pc.checksum;
      ReadEvents(s, rid, c, ok, sent,
                 SetThenEvent(s.requests[rid].pkg.Id(), c, if c in s.store then Sent(s.store[c], sent) else 0), Scanning, since);
  }

  /** Inside single flight nothing is answered. */
  predicate Unanswered(pc: Pc) { !pc.Replying? && !pc.Returned? }

  lemma FlightUnanswered(s: State, a: Action)
    requires Enabled(s, a) && OnFlight(a)
    ensures var s' := Apply(s, a);
            && a.rid in s'.requests && Unanswered(s.requests[a.rid].pc) && Unanswered(s'.requests[a.rid].pc)
            && s'.nextTask == s.nextTask && s'.now == s.now
            && s'.counters == s.counters.(waits := s'.counters.waits)
  {
    match a
    case DoEnter(_) =>
    case LimiterWait(_, _) =>
    case UpstreamGet(_, _) =>
    case BackoffOver(_, _) =>
    case FnReturn(_) =>
    case DoSignal(_) =>
    case DoRemove(_) =>
    case DoWake(_) =>
  }

  lemma FlightEvents(s: State, a: Action, since: int)
    requires EventBooks(s, since) && Enabled(s, a) && OnFlight(a)
    ensures EventBooks(Apply(s, a), since)
  {
    if a.UpstreamGet? { UpstreamFrame(s, a); } else { FlightFrame(s, a); }
    FlightUnanswered(s, a);
    SilentMove(s, Apply(s, a), a.rid, since);
  }

  lemma AnswerEvents(s: State, a: Action, since: int)
    requires EventBooks(s, since) && Enabled(s, a) && OnAnswer(a)
    ensures EventBooks(Apply(s, a), since)
  {
    AnswerFrame(s, a);
    match a
    case CountFetch(rid) => SilentMove(s, Apply(s, a), rid, since);
    case Put(rid, _) =>
      var p, body := s.requests[rid].pkg, s.requests[rid].pc.body;
      SpawningMove(s, Apply(s, a), rid, SetThenUpsert(p.Id(), p.CacheKey(), |body|), since);
    case Reply(rid, _) => SilentMove(s, Apply(s, a), rid, since);
    case Account(rid) => SilentMove(s, Apply(s, a), rid, since);
  }

  lemma TaskRemoved(m: map<nat, Task>, id: nat)
    requires id in m
    ensures Sum(m - {id}, HitPending) == Sum(m, HitPending) - HitPending(m[id])
    ensures Sum(m - {id}, HitBytesPending) == Sum(m, HitBytesPending) - HitBytesPending(m[id])
    ensures Sum(m - {id}, MissPending) == Sum(m, MissPending) - MissPending(m[id])
  {
    SumWithout(m, id, HitPending);
    SumWithout(m, id, HitBytesPending);
    SumWithout(m, id, MissPending);
  }

  lemma EventAdded(events: seq<Event>, e: Event, since: int)
    requires since <= e.at
    ensures CountEvents(events + [e], Hit, since) == CountEvents(events, Hit, since) + One(e.kind.Hit?)
    ensures CountEvents(events + [e], Miss, since) == CountEvents(events, Miss, since) + One(e.kind.Miss?)
    ensures SumBytes(events + [e], Hit, since) == SumBytes(events, Hit, since) + (if e.kind.Hit? then e.bytes else 0)
  {
    assert (events + [e])[..|events + [e]| - 1] == events;
  }

  lemma RecordEvents(s: State, id: nat, key: Triple, kind: EventKind, bytes: nat, ok: bool, since: int)
    requires EventBooks(s, since) && id in s.tasks && s.tasks[id] == Task.RecordEvent(key, kind, bytes)
    ensures EventBooks(AfterRecord(s, id, key, kind, bytes, ok), since)
  {
    TaskRemoved(s.tasks, id);
    if ok { EventAdded(s.events, Event(key, kind, bytes, s.now), since); }
  }

  lemma BlockedEvents(s: State, id: nat, ok: bool, since: int)
    requires EventBooks(s, since) && id in s.tasks && s.tasks[id].MarkBlocked?
    ensures EventBooks(AfterTask(s, id, ok), since)
  {
    TaskRemoved(s.tasks, id);
  }

  lemma WriteBackShares(s: State, id: nat, ok: bool)
    requires id in s.tasks && !s.tasks[id].MarkBlocked? && !s.tasks[id].RecordEvent?
    ensures var s' := AfterTask(s, id, ok);
            && s'.counters == s.counters && s'.events == s.events && s'.nextTask == s.nextTask && s'.now == s.now
            && id in s'.tasks && s'.tasks == s.tasks[id := s'.tasks[id]] && SameShares(s.tasks[id], s'.tasks[id])
  {
    match s.tasks[id]
    case TouchThenEvent(_, _) =>
    case SetThenEvent(_, _, _) =>
    case SetThenUpsert(_, _, _) =>
    case UpsertThenEvent(_, _, _) =>
  }

  predicate SameShares(t: Task, t': Task) {
    HitPending(t) == HitPending(t') && HitBytesPending(t) == HitBytesPending(t') && MissPending(t) == MissPending(t')
  }

  lemma WriteBackEvents(s: State, id: nat, ok: bool, since: int)
    requires EventBooks(s, since) && id in s.tasks && !s.tasks[id].MarkBlocked? && !s.tasks[id].RecordEvent?
    ensures EventBooks(AfterTask(s, id, ok), since)
  {
    TaskFrame(s, id, ok);
    WriteBackShares(s, id, ok);
    TaskShares(s.tasks, id, AfterTask(s, id, ok).tasks[id]);
  }

  lemma TaskEvents(s: State, id: nat, ok: bool, since: int)
    requires EventBooks(s, since) && id in s.tasks
    ensures EventBooks(AfterTask(s, id, ok), since)
  {
    match s.tasks[id]
    case RecordEvent(key, kind, bytes) => RecordEvents(s, id, key, kind, bytes, ok, since);
    case MarkBlocked(_) => BlockedEvents(s, id, ok, since);
    case _ => WriteBackEvents(s, id, ok, since);
  }

  lemma BackgroundEvents(s: State, a: Action, since: int)
    requires EventBooks(s, since) && Enabled(s, a) && !OnLookup(a) && !OnFlight(a) && !OnAnswer(a)
    ensures EventBooks(Apply(s, a), since)
  {
    if a.TaskStep? {
      TaskEvents(s, a.task, a.ok, since);
    } else if OnTable(a) {
      EvictFrame(s, a.ok);
    } else {
      EnvironmentFrame(s, a);
      assert s.now <= Apply(s, a).now && Apply(s, a).nextTask == s.nextTask;
    }
  }

  lemma StepKeepsEventBooks(s: State, a: Action, since: int)
    requires EventBooks(s, since) && Enabled(s, a)
    ensures EventBooks(Apply(s, a), since)
  {
    if OnLookup(a) {
      LookupEvents(s, a, since);
    } else if OnFlight(a) {
      FlightEvents(s, a, since);
    } else if OnAnswer(a) {
      AnswerEvents(s, a, since);
    } else {
      BackgroundEvents(s, a, since);
    }
  }

  predicate Quiet(s: State) {
    s.tasks == map[] && forall rid :: rid in s.requests ==> s.requests[rid].pc.Done?
  }

  /** When every request is accounted for and no goroutine is left, and no INSERT of an event failed, the
      counters are what GetStats reports, and the misses exceed the recorded ones by the successful
      followers. */
  lemma CountersMatchEvents(s: State, since: int)
    requires EventBooks(s, since) && Quiet(s)
    ensures s.counters.lostHits == 0 ==> s.counters.hits == CountEvents(s.events, Hit, since)
    ensures s.counters.lostHitBytes == 0 ==> s.counters.hitBytes == SumBytes(s.events, Hit, since)
    ensures s.counters.lostMisses == 0 ==>
              s.counters.misses == CountEvents(s.events, Miss, since) + s.counters.followers
  {
    SumZero(s.requests, HitReturned);
    SumZero(s.requests, HitBytesReturned);
    SumZero(s.requests, MissReturned);
    SumZero(s.tasks, HitPending);
    SumZero(s.tasks, HitBytesPending);
    SumZero(s.tasks, MissPending);
  }

  // ---- Over runs -----------------------------------------------------------------------------------

  lemma EmptyBooks(cfg: RetryConfig, ttl: int, start: int)
    ensures UpstreamBooks(Empty(cfg, ttl, start)) && EventBooks(Empty(cfg, ttl, start), start)
  {
  }

  lemma {:induction false} RunKeepsBooks(s: State, actions: seq<Action>, U: iset<Package>, since: int)
    requires UpstreamBooks(s) && EventBooks(s, since) && FlightsFit(s) && IsRun(s, actions, U)
    ensures UpstreamBooks(Exec(s, actions, U)) && EventBooks(Exec(s, actions, U), since)
    decreases |actions|
  {
    if actions != [] {
      var a := actions[0];
      StepKeepsUpstreamBooks(s, a);
      StepKeepsEventBooks(s, a, since);
      StepKeepsFit(s, a);
      RunKeepsBooks(Apply(s, a), actions[1..], U, since);
    }
  }

  /** The bounds and the balance, for every run from an empty cache, whatever is requested. */
  lemma RunsBalance(cfg: RetryConfig, ttl: int, start: int, actions: seq<Action>, U: iset<Package>)
    requires IsRun(Empty(cfg, ttl, start), actions, U)
    ensures var s := Exec(Empty(cfg, ttl, start), actions, U);
            && |s.gets| <= Limit(s.cfg.maxAttempts) * |s.flights.cells|
            && s.counters.waits <= |s.flights.cells|
            && s.counters.puts <= s.counters.fetchOk
            && s.counters.fetchOk + s.counters.fetchErrors <= |s.flights.cells|
            && (Quiet(s) ==> s.counters.fetchOk + s.counters.fetchErrors == |s.flights.cells|)
            && (Quiet(s) && s.counters.lostHits == s.counters.lostHitBytes == s.counters.lostMisses == 0 ==>
                  && s.counters.hits == CountEvents(s.events, Hit, start)
                  && s.counters.hitBytes == SumBytes(s.events, Hit, start)
                  && s.counters.misses == CountEvents(s.events, Miss, start) + s.counters.followers)
  {
    var s0 := Empty(cfg, ttl, start);
    EmptyBooks(cfg, ttl, start);
    EmptyFits(cfg, ttl, start);
    RunKeepsBooks(s0, actions, U, start);
    var s := Exec(s0, actions, U);
    UpstreamBound(s);
    if Quiet(s) {
      EveryFlightIsCounted(s);
      CountersMatchEvents(s, start);
    }
  }

  // ---- Every answer is counted ---------------------------------------------------------------------

  function HitDone(r: Request): int { One(r.pc.Done? && r.pc.reply.Served? && r.pc.reply.kind.Hit?) }
  function MissDone(r: Request): int { One(r.pc.Done? && r.pc.reply.Served? && r.pc.reply.kind.Miss?) }
  function ErrorDone(r: Request): int { One(r.pc.Done? && r.pc.reply.Refused?) }
  function HitBytesDone(r: Request): int {
    if r.pc.Done? && r.pc.reply.Served? && r.pc.reply.kind.Hit? then r.pc.reply.sent else 0
  }

  /** The metrics are those of the requests that are through, each as a hit, a miss or an error. */
  ghost predicate DoneBooks(s: State) {
    && s.counters.hits == Sum(s.requests, HitDone) && s.counters.misses == Sum(s.requests, MissDone)
    && s.counters.errors == Sum(s.requests, ErrorDone) && s.counters.hitBytes == Sum(s.requests, HitBytesDone)
  }

  predicate SameAnswers(c: Counters, c': Counters) {
    c'.hits == c.hits && c'.misses == c.misses && c'.errors == c.errors && c'.hitBytes == c.hitBytes
  }

  lemma LookupsLeaveCounters(s: State, a: Action)
    requires Enabled(s, a) && OnLookup(a)
    ensures SameAnswers(s.counters, Apply(s, a).counters)
  {
  }

  lemma ReadsAreNotThrough(s: State, a: Action)
    requires Enabled(s, a) && (a.ReadForRedis? || a.ReadForTable?)
    ensures a.rid in Apply(s, a).requests && !Apply(s, a).requests[a.rid].pc.Done?
  {
  }

  lemma QueriesAreNotThrough(s: State, a: Action)
    requires Enabled(s, a) && (a.Arrive? || a.RedisGet? || a.TableGet? || a.Scanned?)
    ensures a.rid in Apply(s, a).requests && !Apply(s, a).requests[a.rid].pc.Done?
  {
  }

  lemma LookupsAreNotThrough(s: State, a: Action)
    requires Enabled(s, a) && OnLookup(a)
    ensures a.rid in Apply(s, a).requests && !Apply(s, a).requests[a.rid].pc.Done?
    ensures a.rid in s.requests ==> !s.requests[a.rid].pc.Done?
  {
    if a.ReadForRedis? || a.ReadForTable? { ReadsAreNotThrough(s, a); } else { QueriesAreNotThrough(s, a); }
  }

  lemma FlightsCountNoAnswer(s: State, a: Action)
    requires Enabled(s, a) && OnFlight(a)
    ensures SameAnswers(s.counters, Apply(s, a).counters)
    ensures a.rid in Apply(s, a).requests && !Apply(s, a).requests[a.rid].pc.Done?
    ensures a.rid in s.requests && !s.requests[a.rid].pc.Done?
  {
  }

  lemma StoringCountsNoAnswer(s: State, a: Action)
    requires Enabled(s, a) && (a.CountFetch? || a.Put? || a.Reply?)
    ensures SameAnswers(s.counters, Apply(s, a).counters)
    ensures a.rid in Apply(s, a).requests && !Apply(s, a).requests[a.rid].pc.Done?
    ensures a.rid in s.requests && !s.requests[a.rid].pc.Done?
  {
  }

  lemma BackgroundCountsNoAnswer(s: State, a: Action)
    requires Enabled(s, a) && !OnLookup(a) && !OnFlight(a) && !OnAnswer(a)
    ensures SameAnswers(s.counters, Apply(s, a).counters)
  {
  }

  /** A request that is not through moves on without an answer, or comes. */
  lemma UnansweredMove(s: State, s': State, rid: nat)
    requires DoneBooks(s) && SameAnswers(s.counters, s'.counters)
    requires rid in s'.requests && !s'.requests[rid].pc.Done? && s'.requests == s.requests[rid := s'.requests[rid]]
    requires rid in s.requests ==> !s.requests[rid].pc.Done?
    ensures DoneBooks(s')
  {
    var r := s'.requests[rid];
    SumUpdate(s.requests, rid, r, HitDone);
    SumUpdate(s.requests, rid, r, MissDone);
    SumUpdate(s.requests, rid, r, ErrorDone);
    SumUpdate(s.requests, rid, r, HitBytesDone);
  }

  lemma AccountCountsAnswer(s: State, rid: nat)
    requires DoneBooks(s) && Enabled(s, Account(rid))
    ensures DoneBooks(Apply(s, Account(rid)))
  {
    var r := s.requests[rid].(pc := Done(s.requests[rid].pc.reply));
    SumUpdate(s.requests, rid, r, HitDone);
    SumUpdate(s.requests, rid, r, MissDone);
    SumUpdate(s.requests, rid, r, ErrorDone);
    SumUpdate(s.requests, rid, r, HitBytesDone);
  }

  lemma StepKeepsDoneBooks(s: State, a: Action)
    requires DoneBooks(s) && Enabled(s, a)
    ensures DoneBooks(Apply(s, a))
  {
    if a.Account? {
      AccountCountsAnswer(s, a.rid);
    } else if OnLookup(a) {
      LookupsLeaveCounters(s, a);
      LookupsAreNotThrough(s, a);
      LookupFrame(s, a);
      UnansweredMove(s, Apply(s, a), a.rid);
    } else if OnFlight(a) {
      FlightsCountNoAnswer(s, a);
      if a.UpstreamGet? { UpstreamFrame(s, a); } else { FlightFrame(s, a); }
      UnansweredMove(s, Apply(s, a), a.rid);
    } else if OnAnswer(a) {
      StoringCountsNoAnswer(s, a);
      AnswerFrame(s, a);
      UnansweredMove(s, Apply(s, a), a.rid);
    } else {
      BackgroundCountsNoAnswer(s, a);
      BackgroundFrame(s, a);
    }
  }

  lemma {:induction false} RunKeepsDoneBooks(s: State, actions: seq<Action>, U: iset<Package>)
    requires DoneBooks(s) && IsRun(s, actions, U)
    ensures DoneBooks(Exec(s, actions, U))
    decreases |actions|
  {
    if actions != [] {
      StepKeepsDoneBooks(s, actions[0]);
      RunKeepsDoneBooks(Apply(s, actions[0]), actions[1..], U);
    }
  }

  lemma {:induction false} AnswersAddUp(m: map<nat, Request>)
    requires forall rid :: rid in m ==> m[rid].pc.Done?
    ensures Sum(m, HitDone) + Sum(m, MissDone) + Sum(m, ErrorDone) == |m|
    decreases m.Keys
  {
    if m.Keys == {} {
      assert m == map[];
    } else {
      var rid :| rid in m.Keys;
      SumWithout(m, rid, HitDone);
      SumWithout(m, rid, MissDone);
      SumWithout(m, rid, ErrorDone);
      AnswersAddUp(m - {rid});
      assert |m - {rid}| == |m| - 1;
    }
  }

  /** For every run from an empty cache: when all requests are through, each has been counted once, as a hit,
      a miss or an error. */
  lemma EveryAnswerIsCounted(cfg: RetryConfig, ttl: int, start: int, actions: seq<Action>, U: iset<Package>)
    requires IsRun(Empty(cfg, ttl, start), actions, U)
    ensures var s := Exec(Empty(cfg, ttl, start), actions, U);
            && s.counters.hits == Sum(s.requests, HitDone) && s.counters.misses == Sum(s.requests, MissDone)
            && s.counters.errors == Sum(s.requests, ErrorDone) && s.counters.hitBytes == Sum(s.requests, HitBytesDone)
            && ((forall rid :: rid in s.requests ==> s.requests[rid].pc.Done?) ==>
                  s.counters.hits + s.counters.misses + s.counters.errors == |s.requests|)
  {
    var s := Exec(Empty(cfg, ttl, start), actions, U);
    RunKeepsDoneBooks(Empty(cfg, ttl, start), actions, U);
    if forall rid :: rid in s.requests ==> s.requests[rid].pc.Done? { AnswersAddUp(s.requests); }
  }
}
