/** The Group of internal/singleflight/singleflight.go on the heap: a map of pointers to calls, updated in
    place. Each critical section is proved to be one action of the protocol. */
module SingleFlightGroup {
  import opened Foundation
  import opened SingleFlight

  class Call<R> {
    var result: Option<R>
    var done: bool

    constructor ()
      ensures result == None && !done
    {
      result := None;
      done := false;
    }
  }

  class Group<R> {
    var calls: map<string, Call<R>>
    ghost var made: seq<Call<R>>           // every call, in order of creation
    ghost var owners: seq<(string, nat)>   // the key and the leader of each
    ghost var slots: map<string, nat>      // where in made the pointers of calls lie

    ghost predicate Valid()
      reads this
    {
      && |owners| == |made|
      && (forall i, j :: 0 <= i < j < |made| ==> made[i] != made[j])
      && slots.Keys == calls.Keys
      && (forall k :: k in calls ==> slots[k] < |made| && made[slots[k]] == calls[k])
    }

    ghost function Cells(): (cells: seq<Cell<R>>)
      requires Valid()
      reads this, made
      ensures |cells| == |made|
    {
      seq(|made|, i requires 0 <= i < |made| && Valid() reads this, made =>
        Cell(owners[i].0, owners[i].1, made[i].result, made[i].done))
    }

    /** The protocol state that this heap and the given threads stand for. */
    ghost function View(threads: map<nat, Thread<R>>): State<R>
      requires Valid()
      reads this, made
    {
      State(slots, Cells(), threads)
    }

    constructor ()
      ensures Valid() && View(map[]) == Initial()
    {
      calls, made, owners, slots := map[], [], [], map[];
    }

    /** From Lock to Unlock: find the call of k, or insert a new one. */
    method Join(k: string, ghost t: nat, ghost threads: map<nat, Thread<R>>)
      returns (c: Call<R>, leader: bool, ghost threads': map<nat, Thread<R>>)
      requires Valid() && t in threads && threads[t] == Thread(k, Ready)
      modifies this
      ensures Valid() && old(made) <= made
      ensures View(threads') == Apply(old(View(threads)), Enter(t))
      ensures leader == threads'[t].pc.Running? && (leader || threads'[t].pc.Waiting?)
      ensures threads'[t].pc.call < |made| && made[threads'[t].pc.call] == c
      ensures !leader ==> k in old(calls) && c == old(calls)[k] && made == old(made) && calls == old(calls)
      ensures leader ==> fresh(c) && k !in old(calls) && made == old(made) + [c] && calls == old(calls)[k := c]
    {
      threads' := Apply(View(threads), Enter(t)).threads;
      if k in calls {
        return calls[k], false, threads';
      }
      ghost var before := Cells();
      c := new Call<R>();
      leader := true;
      slots := slots[k := |made|];
      made, owners := made + [c], owners + [(k, t)];
      calls := calls[k := c];
      assert Cells() == before + [Cell(k, t, None, false)];
    }

    /** c.val, c.err = fn() */
    method Assign(c: Call<R>, r: R, ghost t: nat, ghost threads: map<nat, Thread<R>>)
      returns (ghost threads': map<nat, Thread<R>>)
      requires Valid() && t in threads && threads[t].pc.Running?
      requires threads[t].pc.call < |made| && made[threads[t].pc.call] == c
      modifies c
      ensures Valid() && View(threads') == Apply(old(View(threads)), FnReturn(t, r))
      ensures c.result == Some(r) && c.done == old(c.done)
    {
      ghost var s := View(threads);
      threads' := Apply(s, FnReturn(t, r)).threads;
      c.result := Some(r);
      assert Cells() == Apply(s, FnReturn(t, r)).cells;
    }

    /** c.wg.Done() */
    method Done(c: Call<R>, ghost t: nat, ghost threads: map<nat, Thread<R>>)
      returns (ghost threads': map<nat, Thread<R>>)
      requires Valid() && t in threads && threads[t].pc.Assigned?
      requires threads[t].pc.call < |made| && made[threads[t].pc.call] == c
      modifies c
      ensures Valid() && View(threads') == Apply(old(View(threads)), Signal(t))
      ensures c.result == old(c.result) && c.done
    {
      ghost var s := View(threads);
      threads' := Apply(s, Signal(t)).threads;
      c.done := true;
      assert Cells() == Apply(s, Signal(t)).cells;
    }

    /** delete(g.calls, k) under the mutex, then the leader's return. */
    method Forget(c: Call<R>, k: string, ghost t: nat, ghost threads: map<nat, Thread<R>>)
      returns (r: Option<R>, ghost threads': map<nat, Thread<R>>)
      requires Valid() && t in threads && threads[t].pc.Signalled? && threads[t].key == k
      requires threads[t].pc.call < |made| && made[threads[t].pc.call] == c
      modifies this`calls, this`slots
      ensures Valid() && View(threads') == Apply(old(View(threads)), Remove(t))
      ensures r == threads'[t].pc.result && calls == old(calls) - {k}
    {
      threads' := Apply(View(threads), Remove(t)).threads;
      calls, slots := calls - {k}, slots - {k};
      r := c.result;
    }

    /** c.wg.Wait() returning, then the joiner's return. */
    method Await(c: Call<R>, ghost t: nat, ghost threads: map<nat, Thread<R>>)
      returns (r: Option<R>, ghost threads': map<nat, Thread<R>>)
      requires Valid() && t in threads && threads[t].pc.Waiting? && c.done
      requires threads[t].pc.call < |made| && made[threads[t].pc.call] == c
      ensures r == c.result
      ensures Enabled(View(threads), Wake(t)) && View(threads') == Apply(View(threads), Wake(t))
    {
      threads' := Apply(View(threads), Wake(t)).threads;
      r := c.result;
    }

    /** What the leader does after its insert. */
    method Lead(c: Call<R>, k: string, r: R, ghost t: nat, ghost threads: map<nat, Thread<R>>)
      returns (result: Option<R>, ghost threads': map<nat, Thread<R>>)
      requires Valid() && t in threads && threads[t].pc.Running? && threads[t].key == k
      requires threads[t].pc.call < |made| && made[threads[t].pc.call] == c
      modifies this`calls, this`slots, c
      ensures Valid() && result == Some(r) && calls == old(calls) - {k}
      ensures var run := [FnReturn(t, r), Signal(t), Remove(t)];
              IsRun(old(View(threads)), run) && View(threads') == Exec(old(View(threads)), run)
    {
      ghost var s := View(threads);
      threads' := Assign(c, r, t, threads);
      threads' := Done(c, t, threads');
      result, threads' := Forget(c, k, t, threads');
      UnrollThree(s, FnReturn(t, r), Signal(t), Remove(t));
    }

    /** The leader l of c gets theirs from its fn, if fn has not returned. */
    method LeaderReturns(c: Call<R>, theirs: R, ghost l: nat, ghost threads: map<nat, Thread<R>>)
      returns (ghost threads': map<nat, Thread<R>>, ghost run: seq<Action<R>>)
      requires Valid() && IsAtWork(View(threads), l) && made[threads[l].pc.call] == c
      modifies c
      ensures Valid() && IsAtWork(View(threads'), l) && made[threads'[l].pc.call] == c && c.done == old(c.done)
      ensures c.result == if old(c.result).Some? then old(c.result) else Some(theirs)
      ensures IsRun(old(View(threads)), run) && View(threads') == Exec(old(View(threads)), run)
      ensures OnlyMoves(threads, threads', l)
    {
      ghost var s := View(threads);
      threads', run := threads, [];
      if c.result.None? {
        UnrollOne(s, FnReturn(l, theirs), []);
        threads' := Assign(c, theirs, l, threads');
        run := [FnReturn(l, theirs)] + [];
      }
    }

    /** What a joiner of c waits for: fn returns and wg.Done runs, each unless it already has. */
    method LeaderFinishes(c: Call<R>, theirs: R, ghost l: nat, ghost threads: map<nat, Thread<R>>)
      returns (ghost threads': map<nat, Thread<R>>, ghost run: seq<Action<R>>)
      requires Valid() && IsAtWork(View(threads), l) && made[threads[l].pc.call] == c
      modifies c
      ensures Valid() && c.done && c.result == (if old(c.result).Some? then old(c.result) else Some(theirs))
      ensures IsRun(old(View(threads)), run) && View(threads') == Exec(old(View(threads)), run)
      ensures OnlyMoves(threads, threads', l)
    {
      ghost var s := View(threads);
      threads', run := LeaderReturns(c, theirs, l, threads);
      if !c.done {
        AppendOne(s, run, Signal(l));
        threads' := Done(c, l, threads');
        run := run + [Signal(l)];
      }
    }

    /** The joiner's path. */
    method Follow(c: Call<R>, k: string, theirs: R, ghost t: nat, ghost threads: map<nat, Thread<R>>)
      returns (result: Option<R>, ghost threads': map<nat, Thread<R>>, ghost run: seq<Action<R>>)
      requires Valid() && Inv(View(threads)) && k in calls && calls[k] == c
      requires t in threads && threads[t] == Thread(k, Waiting(slots[k]))
      modifies c
      ensures Valid() && result == if old(c.result).Some? then old(c.result) else Some(theirs)
      ensures IsRun(old(View(threads)), run) && View(threads') == Exec(old(View(threads)), run)
    {
      ghost var s := View(threads);
      ghost var l := LeaderIsAtWork(s, k, t);
      threads', run := LeaderFinishes(c, theirs, l, threads);
      assert threads'[t] == threads[t] && Enabled(View(threads'), Wake(t));
      AppendOne(s, run, Wake(t));
      result, threads' := Await(c, t, threads');
      run := run + [Wake(t)];
    }

    /** Do of a caller that finds no call. */
    method DoAlone(k: string, r: R, ghost t: nat, ghost threads: map<nat, Thread<R>>)
      returns (result: Option<R>, ghost threads': map<nat, Thread<R>>, ghost run: seq<Action<R>>)
      requires Valid() && t in threads && threads[t] == Thread(k, Ready) && k !in calls
      modifies this
      ensures Valid() && calls == old(calls) && result == Some(r)
      ensures IsRun(old(View(threads)), run) && View(threads') == Exec(old(View(threads)), run)
    {
      ghost var s := View(threads);
      var c, leader;
      c, leader, threads' := Join(k, t, threads);
      run := [FnReturn(t, r), Signal(t), Remove(t)];
      result, threads' := Lead(c, k, r, t, threads');
      assert old(calls)[k := c] - {k} == old(calls);
      UnrollOne(s, Enter(t), run);
      run := [Enter(t)] + run;
    }

    /** Do of a caller that finds a call. */
    method DoJoined(k: string, theirs: R, ghost t: nat, ghost threads: map<nat, Thread<R>>)
      returns (result: Option<R>, ghost threads': map<nat, Thread<R>>, ghost run: seq<Action<R>>)
      requires Valid() && Inv(View(threads)) && t in threads && threads[t] == Thread(k, Ready) && k in calls
      modifies this, calls[k]
      ensures Valid() && calls == old(calls)
      ensures result == if old(calls[k].result).Some? then old(calls[k].result) else Some(theirs)
      ensures IsRun(old(View(threads)), run) && View(threads') == Exec(old(View(threads)), run)
    {
      ghost var s := View(threads);
      StepKeepsInv(s, Enter(t));
      var c, leader;
      c, leader, threads' := Join(k, t, threads);
      result, threads', run := Follow(c, k, theirs, t, threads');
      UnrollOne(s, Enter(t), run);
      run := [Enter(t)] + run;
    }

    /** Do, whatever state the call of k is in. A caller that finds none leads, and its fn returns r. One that
        finds a call waits while the call's leader goes on, whose fn returns theirs if it has not returned. */
    method Do(k: string, r: R, theirs: R, ghost t: nat, ghost threads: map<nat, Thread<R>>)
      returns (result: Option<R>, leader: bool, ghost threads': map<nat, Thread<R>>, ghost run: seq<Action<R>>)
      requires Valid() && Inv(View(threads)) && t in threads && threads[t] == Thread(k, Ready)
      modifies this, if k in calls then {calls[k]} else {}
      ensures Valid() && calls == old(calls)
      ensures leader == (k !in old(calls))
      ensures result == if leader then Some(r) else if old(calls[k].result).Some? then old(calls[k].result) else Some(theirs)
      ensures IsRun(old(View(threads)), run) && View(threads') == Exec(old(View(threads)), run)
    {
      leader := k !in calls;
      if leader {
        result, threads', run := DoAlone(k, r, t, threads);
      } else {
        result, threads', run := DoJoined(k, theirs, t, threads);
      }
    }
  }

  /** l is the leader of its call, which is in calls, and is as far as the call's fields say. */
  ghost predicate IsAtWork<R>(s: State<R>, l: nat) {
    && l in s.threads && (s.threads[l].pc.Running? || s.threads[l].pc.Assigned? || s.threads[l].pc.Signalled?)
    && s.threads[l].pc.call < |s.cells|
    && var cell := s.cells[s.threads[l].pc.call];
    && cell.result.Some? == !s.threads[l].pc.Running? && cell.done == s.threads[l].pc.Signalled?
  }

  predicate OnlyMoves<R(==)>(threads: map<nat, Thread<R>>, threads': map<nat, Thread<R>>, l: nat) {
    threads'.Keys == threads.Keys && forall u :: u in threads && u != l ==> threads'[u] == threads[u]
  }

  /** The call of k has a leader at work, who is not among those that wait for it. */
  lemma LeaderIsAtWork<R>(s: State<R>, k: string, t: nat) returns (l: nat)
    requires Inv(s) && k in s.calls && t in s.threads && s.threads[t].pc == Waiting(s.calls[k])
    ensures IsAtWork(s, l) && s.threads[l].pc.call == s.calls[k] && l != t
  {
    assert CallOk(s, k) && CellOk(s, s.calls[k]);
    l := s.cells[s.calls[k]].leader;
    assert ThreadOk(s, l) && ThreadOk(s, t);
  }

  lemma {:induction false} AppendOne<R>(s: State<R>, run: seq<Action<R>>, a: Action<R>)
    requires IsRun(s, run) && Enabled(Exec(s, run), a)
    ensures IsRun(s, run + [a]) && Exec(s, run + [a]) == Apply(Exec(s, run), a)
    decreases |run|
  {
    if run == [] {
      assert run + [a] == [a];
      UnrollOne(s, a, []);
    } else {
      AppendOne(Apply(s, run[0]), run[1..], a);
      assert (run + [a])[1..] == run[1..] + [a];
    }
  }

  lemma UnrollOne<R>(s: State<R>, a: Action<R>, rest: seq<Action<R>>)
    requires Enabled(s, a) && IsRun(Apply(s, a), rest)
    ensures IsRun(s, [a] + rest) && Exec(s, [a] + rest) == Exec(Apply(s, a), rest)
  {
    assert ([a] + rest)[1..] == rest;
  }

  lemma UnrollTwo<R>(s: State<R>, a: Action<R>, b: Action<R>)
    requires Enabled(s, a) && Enabled(Apply(s, a), b)
    ensures IsRun(s, [a, b]) && Exec(s, [a, b]) == Apply(Apply(s, a), b)
  {
    UnrollOne(Apply(s, a), b, []);
    assert [b] + [] == [b] && [a] + [b] == [a, b];
    UnrollOne(s, a, [b]);
  }

  lemma UnrollThree<R>(s: State<R>, a: Action<R>, b: Action<R>, c: Action<R>)
    requires Enabled(s, a) && Enabled(Apply(s, a), b) && Enabled(Apply(Apply(s, a), b), c)
    ensures IsRun(s, [a, b, c]) && Exec(s, [a, b, c]) == Apply(Apply(Apply(s, a), b), c)
  {
    UnrollTwo(Apply(s, a), b, c);
    assert [a] + [b, c] == [a, b, c];
    UnrollOne(s, a, [b, c]);
  }
}
