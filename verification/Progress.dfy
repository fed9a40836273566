/** Which requests may still come to store an artifact (internal/proxy/proxy.go): exactly those that have
    passed the scan, do not wait for another's flight, and have not failed. */
module Progress {
  import opened Keys
  import opened Upstream
  import opened CacheSystem
  import opened Flights
  import opened Transparency
  import SF = SingleFlight

  /** Request rid is between its scan and its Put, and on the way there. */
  ghost predicate MayStore(s: State, rid: nat) {
    rid in s.requests &&
    match s.requests[rid].pc
    case InFlight => rid in s.flights.threads && MayLead(s.flights, rid)
    case Limiting => true
    case Fetching(l) => l.Exit? ==> l.result.Fetched?
    case DoReturned(leader, r) => leader && ResultOf(r).Fetched?
    case Storing(_) => true
    case _ => false
  }

  /** A thread that can still become leader, or a leader whose fn has succeeded. */
  ghost predicate MayLead(f: SF.State<FetchResult>, t: nat)
    requires t in f.threads
  {
    match f.threads[t].pc
    case Ready => true
    case Assigned(c) => c < |f.cells| && ResultOf(f.cells[c].result).Fetched?
    case Signalled(c) => c < |f.cells| && ResultOf(f.cells[c].result).Fetched?
    case _ => false
  }

  /** The scan of request rid lets it pass. */
  predicate Passes(a: Action, rid: nat) { a.Scanned? && a.rid == rid && !a.outcome.Block? }

  // ---- Only the scan lets a request in -------------------------------------------------------------

  lemma LookupsLetNobodyIn(s: State, a: Action, rid: nat)
    requires FlightsFit(s) && Enabled(s, a) && OnLookup(a) && !Passes(a, rid) && MayStore(Apply(s, a), rid)
    ensures MayStore(s, rid)
  {
    LookupFrame(s, a);
    if !a.Arrive? && a.rid == rid {
      LookupPcs(s, a);
    } else if a.Scanned? {
      ScanLeavesOthers(s, a, rid);
    } else {
      LookupsLeaveFlights(s, a);
    }
  }

  lemma LookupPcs(s: State, a: Action)
    requires FlightsFit(s) && Enabled(s, a) && OnLookup(a) && !a.Arrive? && !Passes(a, a.rid)
    ensures !MayStore(Apply(s, a), a.rid)
  {
  }

  lemma LookupsLeaveFlights(s: State, a: Action)
    requires Enabled(s, a) && OnLookup(a) && !a.Scanned?
    ensures Apply(s, a).flights == s.flights
  {
  }

  lemma ScanLeavesOthers(s: State, a: Action, rid: nat)
    requires Enabled(s, a) && a.Scanned? && rid != a.rid
    ensures var f, f' := s.flights, Apply(s, a).flights;
            f'.cells == f.cells && (rid in f'.threads <==> rid in f.threads) && (rid in f.threads ==> f'.threads[rid] == f.threads[rid])
  {
  }

  /** A thread's step changes neither another thread nor the result of another's call. */
  lemma ThreadsKeepMayLead(f: SF.State<FetchResult>, a: SF.Action<FetchResult>, t: nat)
    requires SF.Inv(f) && SF.Enabled(f, a) && t in f.threads && a.t != t
    ensures t in SF.Apply(f, a).threads && (MayLead(SF.Apply(f, a), t) <==> MayLead(f, t))
  {
    assert SF.ThreadOk(f, t);
    if !a.Spawn? { assert SF.ThreadOk(f, a.t); }
  }

  lemma FetchLetsNobodyIn(s: State, a: Action, rid: nat)
    requires FlightsFit(s) && Enabled(s, a) && (a.LimiterWait? || a.UpstreamGet? || a.BackoffOver?) && MayStore(Apply(s, a), rid)
    ensures MayStore(s, rid)
  {
    if a.UpstreamGet? { UpstreamFrame(s, a); } else { FlightFrame(s, a); }
    FetchLeavesFlights(s, a);
  }

  lemma FetchLeavesFlights(s: State, a: Action)
    requires Enabled(s, a) && (a.LimiterWait? || a.UpstreamGet? || a.BackoffOver?)
    ensures Apply(s, a).flights == s.flights
  {
  }

  function FlightStep(s: State, a: Action): SF.Action<FetchResult>
    requires a.DoEnter? || a.DoSignal? || a.DoRemove? || a.DoWake?
  {
    match a
    case DoEnter(t) => SF.Enter(t)
    case DoSignal(t) => SF.Signal(t)
    case DoRemove(t) => SF.Remove(t)
    case DoWake(t) => SF.Wake(t)
  }

  lemma DoLetsNobodyIn(s: State, a: Action, rid: nat)
    requires FlightsFit(s) && Enabled(s, a) && (a.DoEnter? || a.DoSignal? || a.DoRemove? || a.DoWake?) && MayStore(Apply(s, a), rid)
    ensures MayStore(s, rid)
  {
    FlightFrame(s, a);
    assert SF.ThreadOk(s.flights, a.rid);
    if a.rid == rid {
      OwnStepKeepsOut(s, a);
    } else if rid in s.flights.threads {
      ThreadsKeepMayLead(s.flights, FlightStep(s, a), rid);
    }
  }

  lemma OwnStepKeepsOut(s: State, a: Action)
    requires FlightsFit(s) && Enabled(s, a) && (a.DoEnter? || a.DoSignal? || a.DoRemove? || a.DoWake?) && MayStore(Apply(s, a), a.rid)
    ensures MayStore(s, a.rid)
  {
    assert SF.ThreadOk(s.flights, a.rid);
  }

  lemma FnLetsNobodyIn(s: State, a: Action, rid: nat)
    requires FlightsFit(s) && Enabled(s, a) && a.FnReturn? && MayStore(Apply(s, a), rid)
    ensures MayStore(s, rid)
  {
    FlightFrame(s, a);
    if a.rid != rid && rid in s.flights.threads {
      ThreadsKeepMayLead(s.flights, SF.FnReturn(a.rid, s.requests[a.rid].pc.loop.result), rid);
    }
  }

  lemma AnswersLetNobodyIn(s: State, a: Action, rid: nat)
    requires FlightsFit(s) && Enabled(s, a) && OnAnswer(a) && MayStore(Apply(s, a), rid)
    ensures MayStore(s, rid)
  {
    AnswerFrame(s, a);
  }

  /** A request that is not on the way to its Put gets there only by passing the scan. */
  lemma NobodySlipsIn(s: State, a: Action, rid: nat)
    requires FlightsFit(s) && Enabled(s, a) && !Passes(a, rid) && MayStore(Apply(s, a), rid)
    ensures MayStore(s, rid)
  {
    if OnLookup(a) {
      LookupsLetNobodyIn(s, a, rid);
    } else if a.LimiterWait? || a.UpstreamGet? || a.BackoffOver? {
      FetchLetsNobodyIn(s, a, rid);
    } else if a.FnReturn? {
      FnLetsNobodyIn(s, a, rid);
    } else if OnFlight(a) {
      DoLetsNobodyIn(s, a, rid);
    } else if OnAnswer(a) {
      AnswersLetNobodyIn(s, a, rid);
    } else {
      BackgroundFrame(s, a);
    }
  }

  // ---- Everybody on the way can arrive -------------------------------------------------------------

  /** Nothing but single flight, the limiter and the upstream is used, by requests that are past the scan. */
  ghost predicate InsideDo(s: State, s': State) {
    && s'.store == s.store && s'.redis == s.redis && s'.table == s.table && s'.events == s.events
    && s'.tasks == s.tasks && s'.nextTask == s.nextTask && s'.evictor == s.evictor && s'.now == s.now && s'.cfg == s.cfg
    && s'.requests.Keys == s.requests.Keys
    && (forall i :: i in s.requests ==> s'.requests[i].pkg == s.requests[i].pkg)
  }

  /** A run from s to s' in which no scan is made. */
  ghost predicate Leads(s: State, s': State, actions: seq<Action>, U: iset<Package>) {
    && IsRun(s, actions, U) && Exec(s, actions, U) == s'
    && (forall a :: a in actions ==> !a.Scanned? && !a.Arrive? && !a.EvictTable?)
  }

  ghost predicate CanReach(s: State, s': State, U: iset<Package>) { exists actions :: Leads(s, s', actions, U) }

  lemma StaysHere(s: State, U: iset<Package>)
    ensures CanReach(s, s, U)
  {
    assert Leads(s, s, [], U);
  }

  lemma Further(s0: State, s: State, a: Action, U: iset<Package>) returns (s': State)
    requires CanReach(s0, s, U) && Enabled(s, a) && !a.Scanned? && !a.Arrive? && !a.EvictTable?
    ensures s' == Apply(s, a) && CanReach(s0, s', U)
  {
    s' := Apply(s, a);
    var actions :| Leads(s0, s, actions, U);
    RunExtends(s0, actions, a, U);
    assert Leads(s0, s', actions + [a], U);
  }

  /** Only request u and its thread have moved. */
  ghost predicate OnlyMoved(s: State, s': State, u: nat) {
    && InsideDo(s, s') && FlightsFit(s')
    && u in s'.requests && s'.requests == s.requests[u := s'.requests[u]]
    && s'.flights.threads.Keys == s.flights.threads.Keys
    && (forall t :: t in s.flights.threads && t != u ==> s'.flights.threads[t] == s.flights.threads[t])
  }

  lemma MovedTwice(s: State, t: State, s': State, u: nat)
    requires OnlyMoved(s, t, u) && OnlyMoved(t, s', u)
    ensures OnlyMoved(s, s', u)
  {
  }

  lemma FetchStepMoves(s: State, a: Action)
    requires FlightsFit(s) && Enabled(s, a) && (a.LimiterWait? || a.UpstreamGet? || a.BackoffOver?)
    ensures OnlyMoved(s, Apply(s, a), a.rid) && Apply(s, a).flights == s.flights
  {
    StepKeepsFit(s, a);
    FetchLeavesFlights(s, a);
    FetchFrame(s, a);
  }

  lemma FetchFrame(s: State, a: Action)
    requires Enabled(s, a) && (a.LimiterWait? || a.UpstreamGet? || a.BackoffOver?)
    ensures var s' := Apply(s, a);
            InsideDo(s, s') && a.rid in s'.requests && s'.requests == s.requests[a.rid := s'.requests[a.rid]]
  {
    if a.UpstreamGet? { UpstreamFrame(s, a); } else { FlightFrame(s, a); }
  }

  lemma EnterStaysInside(s: State, u: nat)
    requires Enabled(s, DoEnter(u))
    ensures InsideDo(s, AfterEnter(s, u))
  {
  }

  lemma EnterLeavesOthers(f: SF.State<FetchResult>, u: nat)
    requires SF.Enabled(f, SF.Enter(u))
    ensures var g := SF.Apply(f, SF.Enter(u));
            g.threads.Keys == f.threads.Keys && forall t :: t in f.threads && t != u ==> g.threads[t] == f.threads[t]
  {
  }

  lemma EnterMoves(s: State, u: nat)
    requires FlightsFit(s) && Enabled(s, DoEnter(u))
    ensures OnlyMoved(s, Apply(s, DoEnter(u)), u)
  {
    StepKeepsFit(s, DoEnter(u));
    FlightFrame(s, DoEnter(u));
    EnterStaysInside(s, u);
    EnterLeavesOthers(s.flights, u);
    assert Apply(s, DoEnter(u)) == AfterEnter(s, u);
    assert AfterEnter(s, u).flights == SF.Apply(s.flights, SF.Enter(u));
  }

  lemma FnMoves(s: State, u: nat)
    requires FlightsFit(s) && Enabled(s, FnReturn(u))
    ensures OnlyMoved(s, Apply(s, FnReturn(u)), u)
  {
    StepKeepsFit(s, FnReturn(u));
    FlightFrame(s, FnReturn(u));
  }

  lemma SignalMoves(s: State, u: nat)
    requires FlightsFit(s) && Enabled(s, DoSignal(u))
    ensures OnlyMoved(s, Apply(s, DoSignal(u)), u)
  {
    StepKeepsFit(s, DoSignal(u));
    FlightFrame(s, DoSignal(u));
  }

  lemma RemoveMoves(s: State, u: nat)
    requires FlightsFit(s) && Enabled(s, DoRemove(u))
    ensures OnlyMoved(s, Apply(s, DoRemove(u)), u)
  {
    StepKeepsFit(s, DoRemove(u));
    FlightFrame(s, DoRemove(u));
  }

  lemma NotMoved(s: State, u: nat)
    requires FlightsFit(s) && u in s.requests
    ensures OnlyMoved(s, s, u)
  {
    assert s.requests == s.requests[u := s.requests[u]];
  }

  /** Someone who fetches gets a result, and none that fails if there was no failure yet. */
  lemma FetchEnds(s0: State, s: State, u: nat, U: iset<Package>) returns (s': State)
    requires CanReach(s0, s, U) && FlightsFit(s) && u in s.requests && s.requests[u].pc.Fetching?
    ensures CanReach(s0, s', U) && OnlyMoved(s, s', u) && s'.flights == s.flights
    ensures s'.requests[u].pc.Fetching? && s'.requests[u].pc.loop.Exit?
    ensures MayStore(s, u) ==> s'.requests[u].pc.loop.result.Fetched?
  {
    match s.requests[u].pc.loop
    case Exit(_) =>
      NotMoved(s, u);
      s' := s;
    case Get(_) =>
      s' := GetSucceeds(s0, s, u, U);
    case Backoff(_) =>
      var t := BackoffEnds(s0, s, u, U);
      s' := GetSucceeds(s0, t, u, U);
      MovedTwice(s, t, s', u);
  }

  lemma BackoffEnds(s0: State, s: State, u: nat, U: iset<Package>) returns (s': State)
    requires CanReach(s0, s, U) && FlightsFit(s) && u in s.requests && s.requests[u].pc.Fetching? && s.requests[u].pc.loop.Backoff?
    ensures CanReach(s0, s', U) && OnlyMoved(s, s', u) && s'.flights == s.flights
    ensures s'.requests[u].pc.Fetching? && s'.requests[u].pc.loop.Get?
  {
    FetchStepMoves(s, BackoffOver(u, false));
    s' := Further(s0, s, BackoffOver(u, false), U);
  }

  lemma GetSucceeds(s0: State, s: State, u: nat, U: iset<Package>) returns (s': State)
    requires CanReach(s0, s, U) && FlightsFit(s) && u in s.requests && s.requests[u].pc.Fetching? && s.requests[u].pc.loop.Get?
    ensures CanReach(s0, s', U) && OnlyMoved(s, s', u) && s'.flights == s.flights
    ensures s'.requests[u].pc == Fetching(Exit(Fetched([])))
  {
    FetchStepMoves(s, UpstreamGet(u, Fetched([])));
    s' := Further(s0, s, UpstreamGet(u, Fetched([])), U);
  }

  lemma LimiterLets(s0: State, s: State, u: nat, U: iset<Package>) returns (s': State)
    requires CanReach(s0, s, U) && FlightsFit(s) && u in s.requests && s.requests[u].pc.Limiting?
    ensures CanReach(s0, s', U) && OnlyMoved(s, s', u) && s'.flights == s.flights
    ensures s'.requests[u].pc.Fetching? && MayStore(s', u)
  {
    FetchStepMoves(s, LimiterWait(u, true));
    s' := Further(s0, s, LimiterWait(u, true), U);
  }

  lemma FnReturns(s0: State, s: State, u: nat, U: iset<Package>) returns (s': State)
    requires CanReach(s0, s, U) && FlightsFit(s) && u in s.requests && s.requests[u].pc.Fetching? && s.requests[u].pc.loop.Exit?
    ensures CanReach(s0, s', U) && OnlyMoved(s, s', u)
    ensures SF.Leads(s'.flights, u) && s'.requests[u].pc.InFlight? && s'.flights.threads[u].pc.Assigned?
    ensures MayStore(s, u) ==> MayStore(s', u)
  {
    assert PcOk(s.flights, u, s.requests[u].pc) && SF.ThreadOk(s.flights, u);
    FnMoves(s, u);
    FnAssigns(s, u);
    s' := Further(s0, s, FnReturn(u), U);
  }

  lemma FnAssigns(s: State, u: nat)
    requires FlightsFit(s) && u in s.requests && s.requests[u].pc.Fetching? && s.requests[u].pc.loop.Exit?
    ensures Enabled(s, FnReturn(u))
    ensures var s' := Apply(s, FnReturn(u));
            && u in s'.requests && u in s'.flights.threads && s'.requests[u].pc.InFlight? && s'.flights.threads[u].pc.Assigned?
            && (s.requests[u].pc.loop.result.Fetched? ==> MayStore(s', u))
  {
    assert PcOk(s.flights, u, s.requests[u].pc) && SF.ThreadOk(s.flights, u);
  }

  lemma Signals(s0: State, s: State, u: nat, U: iset<Package>) returns (s': State)
    requires CanReach(s0, s, U) && FlightsFit(s) && u in s.requests && s.requests[u].pc.InFlight?
    requires u in s.flights.threads && s.flights.threads[u].pc.Assigned?
    ensures CanReach(s0, s', U) && OnlyMoved(s, s', u)
    ensures s'.requests[u].pc.InFlight? && s'.flights.threads[u].pc.Signalled?
    ensures MayStore(s, u) ==> MayStore(s', u)
  {
    assert SF.ThreadOk(s.flights, u);
    SignalMoves(s, u);
    s' := Further(s0, s, DoSignal(u), U);
  }

  lemma Removes(s0: State, s: State, u: nat, U: iset<Package>) returns (s': State)
    requires CanReach(s0, s, U) && FlightsFit(s) && u in s.requests && s.requests[u].pc.InFlight?
    requires u in s.flights.threads && s.flights.threads[u].pc.Signalled?
    ensures CanReach(s0, s', U) && OnlyMoved(s, s', u)
    ensures s'.requests[u].pc.DoReturned? && FlightKey(s.requests[u].pkg.Id()) !in s'.flights.calls
    ensures MayStore(s, u) ==> MayStore(s', u)
  {
    assert SF.ThreadOk(s.flights, u);
    RemoveMoves(s, u);
    s' := Further(s0, s, DoRemove(u), U);
  }

  /** A leader can always come to the end of its fn. */
  lemma LeaderFetches(s0: State, s: State, u: nat, U: iset<Package>) returns (s': State)
    requires CanReach(s0, s, U) && FlightsFit(s) && u in s.requests && s.requests[u].pc.Fetching?
    ensures CanReach(s0, s', U) && OnlyMoved(s, s', u) && SF.Leads(s'.flights, u) && s'.requests[u].pc.InFlight?
    ensures MayStore(s, u) ==> MayStore(s', u)
  {
    var t := FetchEnds(s0, s, u, U);
    s' := FnReturns(s0, t, u, U);
    MovedTwice(s, t, s', u);
  }

  lemma LeaderWaits(s0: State, s: State, u: nat, U: iset<Package>) returns (s': State)
    requires CanReach(s0, s, U) && FlightsFit(s) && u in s.requests && s.requests[u].pc.Limiting?
    ensures CanReach(s0, s', U) && OnlyMoved(s, s', u) && SF.Leads(s'.flights, u) && s'.requests[u].pc.InFlight?
    ensures MayStore(s', u)
  {
    var t := LimiterLets(s0, s, u, U);
    s' := LeaderFetches(s0, t, u, U);
    MovedTwice(s, t, s', u);
  }

  /** A leader can always leave its flight. */
  lemma LeaderLeaves(s0: State, s: State, u: nat, U: iset<Package>) returns (s': State)
    requires CanReach(s0, s, U) && FlightsFit(s) && SF.Leads(s.flights, u)
    ensures CanReach(s0, s', U) && u in s.requests && OnlyMoved(s, s', u)
    ensures s'.requests[u].pc.DoReturned? && FlightKey(s.requests[u].pkg.Id()) !in s'.flights.calls
    ensures MayStore(s, u) ==> MayStore(s', u)
  {
    assert u in s.requests && PcOk(s.flights, u, s.requests[u].pc);
    var t;
    if s.requests[u].pc.Limiting? {
      t := LeaderWaits(s0, s, u, U);
    } else if s.requests[u].pc.Fetching? {
      t := LeaderFetches(s0, s, u, U);
    } else {
      NotMoved(s, u);
      t := s;
    }
    s' := AssignedLeaves(s0, t, u, U);
    MovedTwice(s, t, s', u);
  }

  lemma AssignedLeaves(s0: State, s: State, u: nat, U: iset<Package>) returns (s': State)
    requires CanReach(s0, s, U) && FlightsFit(s) && SF.Leads(s.flights, u) && u in s.requests && s.requests[u].pc.InFlight?
    ensures CanReach(s0, s', U) && OnlyMoved(s, s', u)
    ensures s'.requests[u].pc.DoReturned? && FlightKey(s.requests[u].pkg.Id()) !in s'.flights.calls
    ensures MayStore(s, u) ==> MayStore(s', u)
  {
    assert PcOk(s.flights, u, s.requests[u].pc);
    var t;
    if s.flights.threads[u].pc.Assigned? {
      t := Signals(s0, s, u, U);
    } else {
      NotMoved(s, u);
      t := s;
    }
    s' := Removes(s0, t, u, U);
    MovedTwice(s, t, s', u);
  }

  lemma Enters(s0: State, s: State, rid: nat, U: iset<Package>) returns (s': State)
    requires CanReach(s0, s, U) && FlightsFit(s) && rid in s.requests && s.requests[rid].pc.InFlight?
    requires rid in s.flights.threads && s.flights.threads[rid].pc.Ready? && FlightKey(s.requests[rid].pkg.Id()) !in s.flights.calls
    ensures CanReach(s0, s', U) && OnlyMoved(s, s', rid) && SF.Leads(s'.flights, rid) && MayStore(s', rid)
  {
    EnterMoves(s, rid);
    s' := Further(s0, s, DoEnter(rid), U);
  }

  /** A thread that is about to enter can become leader: whoever leads its key can leave first. */
  lemma ReadyLeads(s0: State, s: State, rid: nat, U: iset<Package>) returns (s': State)
    requires CanReach(s0, s, U) && FlightsFit(s) && rid in s.requests && s.requests[rid].pc.InFlight?
    requires rid in s.flights.threads && s.flights.threads[rid].pc.Ready?
    ensures CanReach(s0, s', U) && InsideDo(s, s') && FlightsFit(s') && SF.Leads(s'.flights, rid) && MayStore(s', rid)
  {
    var k := FlightKey(s.requests[rid].pkg.Id());
    if k in s.flights.calls {
      var t := FlightEnds(s0, s, rid, k, U);
      s' := Enters(s0, t, rid, U);
    } else {
      s' := Enters(s0, s, rid, U);
    }
  }

  lemma FlightEnds(s0: State, s: State, rid: nat, k: string, U: iset<Package>) returns (s': State)
    requires CanReach(s0, s, U) && FlightsFit(s) && rid in s.requests && k in s.flights.calls
    requires rid in s.flights.threads && s.flights.threads[rid].pc.Ready?
    ensures CanReach(s0, s', U) && InsideDo(s, s') && FlightsFit(s') && k !in s'.flights.calls
    ensures s'.requests[rid] == s.requests[rid] && rid in s'.flights.threads && s'.flights.threads[rid] == s.flights.threads[rid]
  {
    var u := LeaderOf(s, rid, k);
    s' := LeaderLeaves(s0, s, u, U);
  }

  /** The flight of k has a leader, which is not rid. */
  lemma LeaderOf(s: State, rid: nat, k: string) returns (u: nat)
    requires FlightsFit(s) && k in s.flights.calls && rid in s.flights.threads && s.flights.threads[rid].pc.Ready?
    ensures SF.Leads(s.flights, u) && u != rid && u in s.requests && FlightKey(s.requests[u].pkg.Id()) == k
  {
    SF.MutualExclusion(s.flights, k);
    u :| SF.Leads(s.flights, u) && s.flights.threads[u].key == k;
  }

  /** Every request on the way can come to the point where it stores what was fetched; nothing else changes
      on the way there. */
  lemma ReachesStoring(s0: State, s: State, rid: nat, U: iset<Package>) returns (s': State)
    requires CanReach(s0, s, U) && FlightsFit(s) && MayStore(s, rid)
    ensures CanReach(s0, s', U) && InsideDo(s, s') && FlightsFit(s') && rid in s'.requests && s'.requests[rid].pc.Storing?
  {
    assert PcOk(s.flights, rid, s.requests[rid].pc);
    if s.requests[rid].pc.Storing? {
      s' := s;
    } else {
      var t := s;
      if s.requests[rid].pc.InFlight? && s.flights.threads[rid].pc.Ready? {
        t := ReadyLeads(s0, s, rid, U);
      }
      if !t.requests[rid].pc.DoReturned? {
        t := LeaderLeaves(s0, t, rid, U);
      }
      s' := Counts(s0, t, rid, U);
    }
  }

  lemma Counts(s0: State, s: State, rid: nat, U: iset<Package>) returns (s': State)
    requires CanReach(s0, s, U) && FlightsFit(s) && MayStore(s, rid) && s.requests[rid].pc.DoReturned?
    ensures CanReach(s0, s', U) && InsideDo(s, s') && FlightsFit(s') && rid in s'.requests && s'.requests[rid].pc.Storing?
  {
    StepKeepsFit(s, CountFetch(rid));
    AnswerFrame(s, CountFetch(rid));
    s' := Further(s0, s, CountFetch(rid), U);
  }
}
