/** The coalescing protocol of singleflight.Group.Do (internal/singleflight/singleflight.go), as a state
    machine over the threads that are inside Do. One action is one critical section, the return of fn,
    the wg.Done, or the end of a wg.Wait; threads interleave freely. */
module SingleFlight {
  import opened Foundation

  /** A *call: done says that wg.Done has run, and a result of None is Go's zero value, not yet assigned. */
  datatype Cell<R> = Cell(key: string, leader: nat, result: Option<R>, done: bool)

  datatype Pc<R> =
    | Ready                                                   // about to lock the mutex
    | Waiting(call: nat)                                      // in c.wg.Wait()
    | Running(call: nat)                                      // inside fn
    | Assigned(call: nat)                                     // c.val, c.err are set
    | Signalled(call: nat)                                    // wg.Done has run
    | Returned(call: nat, leader: bool, result: Option<R>)    // Do has returned

  datatype Thread<R> = Thread(key: string, pc: Pc<R>)

  /** A pointer to a call is its position in cells, which holds every call ever made. */
  datatype State<R> = State(calls: map<string, nat>, cells: seq<Cell<R>>, threads: map<nat, Thread<R>>)

  datatype Action<R> =
    | Spawn(t: nat, key: string)
    | Enter(t: nat)
    | FnReturn(t: nat, r: R)
    | Signal(t: nat)
    | Remove(t: nat)
    | Wake(t: nat)

  function Initial<R>(): State<R> { State(map[], [], map[]) }

  predicate Enabled<R>(s: State<R>, a: Action<R>) {
    match a
    case Spawn(t, _) => t !in s.threads
    case Enter(t) => t in s.threads && s.threads[t].pc.Ready?
    case FnReturn(t, _) => t in s.threads && s.threads[t].pc.Running? && s.threads[t].pc.call < |s.cells|
    case Signal(t) => t in s.threads && s.threads[t].pc.Assigned? && s.threads[t].pc.call < |s.cells|
    case Remove(t) => t in s.threads && s.threads[t].pc.Signalled? && s.threads[t].pc.call < |s.cells|
    case Wake(t) =>
      t in s.threads && s.threads[t].pc.Waiting? && s.threads[t].pc.call < |s.cells|
      && s.cells[s.threads[t].pc.call].done
  }

  function Move<R>(s: State<R>, t: nat, pc: Pc<R>): State<R>
    requires t in s.threads
  {
    s.(threads := s.threads[t := s.threads[t].(pc := pc)])
  }

  function Apply<R>(s: State<R>, a: Action<R>): State<R>
    requires Enabled(s, a)
  {
    match a
    case Spawn(t, key) => s.(threads := s.threads[t := Thread(key, Ready)])
    case Enter(t) =>
      var k := s.threads[t].key;
      if k in s.calls then
        Move(s, t, Waiting(s.calls[k]))
      else
        Move(s, t, Running(|s.cells|)).(
          calls := s.calls[k := |s.cells|],
          cells := s.cells + [Cell(k, t, None, false)])
    case FnReturn(t, r) =>
      var c := s.threads[t].pc.call;
      Move(s, t, Assigned(c)).(cells := s.cells[c := s.cells[c].(result := Some(r))])
    case Signal(t) =>
      var c := s.threads[t].pc.call;
      Move(s, t, Signalled(c)).(cells := s.cells[c := s.cells[c].(done := true)])
    case Remove(t) =>
      var c := s.threads[t].pc.call;
      Move(s, t, Returned(c, true, s.cells[c].result)).(calls := s.calls - {s.threads[t].key})
    case Wake(t) =>
      var c := s.threads[t].pc.call;
      Move(s, t, Returned(c, false, s.cells[c].result))
  }

  // ---- Safety -------------------------------------------------------------------------------------

  /** t is between its insert into calls and its delete. */
  predicate Leads<R>(s: State<R>, t: nat) {
    t in s.threads && (s.threads[t].pc.Running? || s.threads[t].pc.Assigned? || s.threads[t].pc.Signalled?)
  }

  ghost predicate ThreadOk<R>(s: State<R>, t: nat)
    requires t in s.threads
  {
    var th := s.threads[t];
    th.pc.Ready? || (
      && th.pc.call < |s.cells|
      && var cell := s.cells[th.pc.call];
      && cell.key == th.key
      && match th.pc
         case Waiting(_) => cell.leader != t
         case Running(c) => cell.leader == t && cell.result.None? && !cell.done && th.key in s.calls && s.calls[th.key] == c
         case Assigned(c) => cell.leader == t && cell.result.Some? && !cell.done && th.key in s.calls && s.calls[th.key] == c
         case Signalled(c) => cell.leader == t && cell.done && th.key in s.calls && s.calls[th.key] == c
         case Returned(_, leader, r) => cell.done && r == cell.result && leader == (cell.leader == t))
  }

  /** A call that is not finished has a leader at work on it. */
  ghost predicate CellOk<R>(s: State<R>, c: nat)
    requires c < |s.cells|
  {
    var cell := s.cells[c];
    && cell.leader in s.threads
    && !s.threads[cell.leader].pc.Ready?
    && s.threads[cell.leader].pc.call == c
    && (cell.done ==> cell.result.Some?)
  }

  ghost predicate CallOk<R>(s: State<R>, k: string)
    requires k in s.calls
  {
    && s.calls[k] < |s.cells|
    && s.cells[s.calls[k]].key == k
    && Leads(s, s.cells[s.calls[k]].leader)
  }

  ghost predicate Inv<R>(s: State<R>) {
    && (forall t :: t in s.threads ==> ThreadOk(s, t))
    && (forall c :: 0 <= c < |s.cells| ==> CellOk(s, c))
    && (forall k :: k in s.calls ==> CallOk(s, k))
  }

  lemma StepKeepsThreads<R>(s: State<R>, a: Action<R>, t: nat)
    requires Inv(s) && Enabled(s, a) && t in Apply(s, a).threads
    ensures ThreadOk(Apply(s, a), t)
  {
    if t in s.threads { assert ThreadOk(s, t); }
    if !a.Spawn? && t != a.t { assert ThreadOk(s, a.t); }
    if a.Enter? && s.threads[a.t].key in s.calls {
      assert CallOk(s, s.threads[a.t].key);
    }
  }

  lemma StepKeepsCells<R>(s: State<R>, a: Action<R>, c: nat)
    requires Inv(s) && Enabled(s, a) && c < |Apply(s, a).cells|
    ensures CellOk(Apply(s, a), c)
  {
    if c < |s.cells| { assert CellOk(s, c); }
    if !a.Spawn? { assert ThreadOk(s, a.t); }
  }

  lemma StepKeepsCalls<R>(s: State<R>, a: Action<R>, k: string)
    requires Inv(s) && Enabled(s, a) && k in Apply(s, a).calls
    ensures CallOk(Apply(s, a), k)
  {
    if !a.Spawn? { assert ThreadOk(s, a.t); }
    if k in s.calls {
      assert CallOk(s, k) && CellOk(s, s.calls[k]);
      assert ThreadOk(s, s.cells[s.calls[k]].leader);
    }
  }

  /** What every step of the protocol keeps. */
  lemma StepKeepsInv<R>(s: State<R>, a: Action<R>)
    requires Inv(s) && Enabled(s, a)
    ensures Inv(Apply(s, a))
  {
    var s' := Apply(s, a);
    forall t | t in s'.threads ensures ThreadOk(s', t) { StepKeepsThreads(s, a, t); }
    forall c | 0 <= c < |s'.cells| ensures CellOk(s', c) { StepKeepsCells(s, a, c); }
    forall k | k in s'.calls ensures CallOk(s', k) { StepKeepsCalls(s, a, k); }
  }

  /** At most one thread leads a key, and a key is in calls exactly while some thread leads it. So at most
      one fn runs per key. */
  lemma MutualExclusion<R>(s: State<R>, k: string)
    requires Inv(s)
    ensures k in s.calls <==> exists t :: Leads(s, t) && s.threads[t].key == k
    ensures forall t, u :: Leads(s, t) && Leads(s, u) && s.threads[t].key == k == s.threads[u].key ==> t == u
  {
    if k in s.calls {
      var t := s.cells[s.calls[k]].leader;
      assert CallOk(s, k) && CellOk(s, s.calls[k]);
      assert ThreadOk(s, t);
      assert Leads(s, t) && s.threads[t].key == k;
    }
    forall t | Leads(s, t) && s.threads[t].key == k ensures k in s.calls && t == s.cells[s.calls[k]].leader {
      assert ThreadOk(s, t);
    }
  }

  /** The delete by key removes the leader's own call and no other. */
  lemma RemoveIsOwn<R>(s: State<R>, t: nat)
    requires Inv(s) && Enabled(s, Remove(t))
    ensures s.threads[t].key in s.calls && s.calls[s.threads[t].key] == s.threads[t].pc.call
    ensures forall k, u :: k in s.calls && k != s.threads[t].key && Leads(s, u) && s.threads[u].key == k ==>
                             var s' := Apply(s, Remove(t)); k in s'.calls && s'.calls[k] == s.calls[k] && Leads(s', u)
  {
    assert ThreadOk(s, t);
  }

  /** A joiner enters the call of the one thread that leads its key. */
  lemma JoinsTheLeader<R>(s: State<R>, t: nat)
    requires Inv(s) && Enabled(s, Enter(t))
    ensures var s' := Apply(s, Enter(t)); var k := s.threads[t].key;
            if exists u :: Leads(s, u) && s.threads[u].key == k
            then exists u :: Leads(s, u) && s.threads[u].key == k && s'.threads[t].pc == Waiting(s.threads[u].pc.call)
            else Leads(s', t) && s'.cells[s'.threads[t].pc.call].leader == t
  {
    var k := s.threads[t].key;
    MutualExclusion(s, k);
    if k in s.calls {
      var u := s.cells[s.calls[k]].leader;
      assert CallOk(s, k) && CellOk(s, s.calls[k]);
      assert ThreadOk(s, u);
      assert Leads(s, u) && s.threads[u].key == k;
    }
  }

  /** Once assigned, the result of a call never changes, and a returned thread keeps what it returned. */
  lemma ResultsAreStable<R>(s: State<R>, a: Action<R>)
    requires Inv(s) && Enabled(s, a)
    ensures var s' := Apply(s, a);
            && |s.cells| <= |s'.cells|
            && (forall c :: 0 <= c < |s.cells| ==>
                  s'.cells[c].key == s.cells[c].key && s'.cells[c].leader == s.cells[c].leader
                  && (s.cells[c].result.Some? ==> s'.cells[c].result == s.cells[c].result))
            && (forall t :: t in s.threads && s.threads[t].pc.Returned? ==> t in s'.threads && s'.threads[t] == s.threads[t])
  {
    if !a.Spawn? { assert ThreadOk(s, a.t); }
  }

  /** Any two threads that returned from one call return the same, assigned, result; exactly one of them
      can have been told that it led. */
  lemma ReturnsAgree<R>(s: State<R>, t: nat, u: nat)
    requires Inv(s) && t in s.threads && u in s.threads
    requires s.threads[t].pc.Returned? && s.threads[u].pc.Returned?
    requires s.threads[t].pc.call == s.threads[u].pc.call
    ensures s.threads[t].pc.result == s.threads[u].pc.result && s.threads[t].pc.result.Some?
    ensures s.threads[t].key == s.threads[u].key
    ensures s.threads[t].pc.leader && s.threads[u].pc.leader ==> t == u
  {
    assert ThreadOk(s, t) && ThreadOk(s, u);
    assert CellOk(s, s.threads[t].pc.call);
  }

  // ---- Runs ---------------------------------------------------------------------------------------

  predicate IsRun<R>(s: State<R>, actions: seq<Action<R>>)
    decreases |actions|
  {
    actions == [] || (Enabled(s, actions[0]) && IsRun(Apply(s, actions[0]), actions[1..]))
  }

  function Exec<R>(s: State<R>, actions: seq<Action<R>>): State<R>
    requires IsRun(s, actions)
    decreases |actions|
  {
    if actions == [] then s else Exec(Apply(s, actions[0]), actions[1..])
  }

  /** In every run, each caller that returns gets the very result that its call's leader got from fn. */
  lemma {:induction false} EveryCallerGetsTheLeadersResult<R>(s: State<R>, actions: seq<Action<R>>, t: nat)
    requires Inv(s) && IsRun(s, actions)
    requires t in s.threads && !s.threads[t].pc.Returned?
    requires forall c :: 0 <= c < |s.cells| ==> s.cells[c].result.None?
    ensures var s' := Exec(s, actions);
            && Inv(s') && t in s'.threads
            && (s'.threads[t].pc.Returned? ==>
                  && s'.threads[t].pc.result.Some?
                  && s'.threads[t].pc.call < |s'.cells|
                  && FnReturn(s'.cells[s'.threads[t].pc.call].leader, s'.threads[t].pc.result.value) in actions)
  {
    ResultsComeFromFn(s, actions);
    ThreadsStay(s, actions, t);
    var s' := Exec(s, actions);
    assert ThreadOk(s', t);
    if s'.threads[t].pc.Returned? { assert CellOk(s', s'.threads[t].pc.call); }
  }

  lemma {:induction false} ThreadsStay<R>(s: State<R>, actions: seq<Action<R>>, t: nat)
    requires IsRun(s, actions) && t in s.threads
    ensures t in Exec(s, actions).threads && Exec(s, actions).threads[t].key == s.threads[t].key
    decreases |actions|
  {
    if actions != [] { ThreadsStay(Apply(s, actions[0]), actions[1..], t); }
  }

  lemma {:induction false} ResultsComeFromFn<R>(s: State<R>, actions: seq<Action<R>>)
    requires Inv(s) && IsRun(s, actions)
    ensures var s' := Exec(s, actions);
            && Inv(s') && |s.cells| <= |s'.cells|
            && (forall c :: 0 <= c < |s.cells| && s.cells[c].result.Some? ==> s'.cells[c].result == s.cells[c].result)
            && (forall c :: (0 <= c < |s'.cells| && s'.cells[c].result.Some?
                             && !(c < |s.cells| && s.cells[c].result.Some?)) ==>
                  FnReturn(s'.cells[c].leader, s'.cells[c].result.value) in actions)
            && (forall c :: 0 <= c < |s.cells| ==> s'.cells[c].leader == s.cells[c].leader)
    decreases |actions|
  {
    if actions != [] {
      var a, rest := actions[0], actions[1..];
      var m := Apply(s, a);
      StepKeepsInv(s, a);
      ResultsAreStable(s, a);
      ResultsComeFromFn(m, rest);
      var s' := Exec(m, rest);
      forall c | 0 <= c < |s'.cells| && s'.cells[c].result.Some? && !(c < |s.cells| && s.cells[c].result.Some?)
        ensures FnReturn(s'.cells[c].leader, s'.cells[c].result.value) in actions
      {
        if c < |m.cells| && m.cells[c].result.Some? {
          assert a == FnReturn(s'.cells[c].leader, s'.cells[c].result.value) by {
            if a.FnReturn? { assert ThreadOk(s, a.t); }
          }
        } else {
          assert FnReturn(s'.cells[c].leader, s'.cells[c].result.value) in rest;
        }
      }
    }
  }

  // ---- Progress -----------------------------------------------------------------------------------

  function Rank<R>(th: Thread<R>): int {
    match th.pc
    case Ready => 4
    case Running(_) => 3
    case Assigned(_) => 2
    case Signalled(_) => 1
    case Waiting(_) => 1
    case Returned(_, _, _) => 0
  }

  ghost function Work<R>(s: State<R>): int { Sum(s.threads, Rank) }

  /** As long as some thread has not returned, some thread can move: a waiter whose call is unfinished has
      a leader that can. Taking the return of fn as enabled says that fn terminates. */
  lemma NeverStuck<R>(s: State<R>, t: nat, r: R) returns (a: Action<R>)
    requires Inv(s) && t in s.threads && !s.threads[t].pc.Returned?
    ensures Enabled(s, a) && !a.Spawn?
  {
    assert ThreadOk(s, t);
    match s.threads[t].pc
    case Ready => a := Enter(t);
    case Running(_) => a := FnReturn(t, r);
    case Assigned(_) => a := Signal(t);
    case Signalled(_) => a := Remove(t);
    case Waiting(c) =>
      if s.cells[c].done {
        a := Wake(t);
      } else {
        var u := s.cells[c].leader;
        assert CellOk(s, c) && ThreadOk(s, u);
        a := if s.threads[u].pc.Running? then FnReturn(u, r) else Signal(u);
      }
  }

  lemma {:induction false} WorkIsNatural<R>(m: map<nat, Thread<R>>)
    ensures Sum(m, Rank) >= 0
    decreases m.Keys
  {
    if m.Keys != {} {
      var t :| t in m.Keys;
      SumWithout(m, t, Rank);
      WorkIsNatural(m - {t});
    }
  }

  /** Every step of a thread uses up work. */
  lemma StepUsesWork<R>(s: State<R>, a: Action<R>)
    requires Enabled(s, a) && !a.Spawn?
    ensures Work(Apply(s, a)) < Work(s)
  {
    SumUpdate(s.threads, a.t, Apply(s, a).threads[a.t], Rank);
  }

  /** A run in which no further caller arrives ends within Work(s) steps; with NeverStuck, it can only end
      with every caller returned. */
  lemma {:induction false} RunsEnd<R>(s: State<R>, actions: seq<Action<R>>)
    requires IsRun(s, actions) && forall a :: a in actions ==> !a.Spawn?
    ensures |actions| <= Work(s) - Work(Exec(s, actions)) && |actions| <= Work(s)
    decreases |actions|
  {
    WorkIsNatural(s.threads);
    if actions != [] {
      StepUsesWork(s, actions[0]);
      RunsEnd(Apply(s, actions[0]), actions[1..]);
      WorkIsNatural(Exec(s, actions).threads);
    }
  }
}
