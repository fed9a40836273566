/** The run of the migration tool as an imperative program with one worker (cmd/migrate/main.go): its loop
    body on every entry of the work list. It is one of the schedules of the pool. */
module MigrateRun {
  import opened Foundation
  import opened Migrate
  import opened MigratePool

  ghost predicate Reached(p0: Pool, p: Pool) {
    exists actions :: IsRun(p0, actions) && Exec(p0, actions) == p
  }

  lemma {:induction false} RunExtends(p0: Pool, actions: seq<Action>, a: Action)
    requires IsRun(p0, actions) && Enabled(Exec(p0, actions), a)
    ensures IsRun(p0, actions + [a]) && Exec(p0, actions + [a]) == Apply(Exec(p0, actions), a)
    decreases |actions|
  {
    if actions == [] {
      assert [a][1..] == [];
    } else {
      RunExtends(Apply(p0, actions[0]), actions[1..], a);
      assert (actions + [a])[1..] == actions[1..] + [a];
    }
  }

  lemma Extend(p0: Pool, p: Pool, a: Action) returns (q: Pool)
    requires Reached(p0, p) && Enabled(p, a)
    ensures q == Apply(p, a) && Reached(p0, q)
  {
    q := Apply(p, a);
    var actions :| IsRun(p0, actions) && Exec(p0, actions) == p;
    RunExtends(p0, actions, a);
    assert Exec(p0, actions + [a]) == q;
  }

  // One step of the only worker, and the whole pool that it leads to.

  ghost predicate Holding(p: Pool, phase: Phase) { p.workers == map[0 := phase] }

  lemma SendRuns(p0: Pool, p: Pool) returns (q: Pool)
    requires Reached(p0, p) && Holding(p, Receiving) && p.next < |p.work| && !p.closed && !p.panicked
    ensures Reached(p0, q) && q == p.(workers := map[0 := Numbering(p.next)], next := p.next + 1)
  {
    q := Extend(p0, p, Send(0));
    assert p.workers[0 := Numbering(p.next)] == map[0 := Numbering(p.next)];
  }

  lemma NumberRuns(p0: Pool, p: Pool, i: nat) returns (q: Pool)
    requires Reached(p0, p) && Holding(p, Numbering(i)) && i < |p.work| && |p.work[i].checksum| >= 12 && !p.panicked
    ensures Reached(p0, q) && q == if p.dryRun then Finish(p, 0, i, Uploaded) else p.(workers := map[0 := Checking(i)])
  {
    q := Extend(p0, p, Number(0));
    assert p.workers[0 := Checking(i)] == map[0 := Checking(i)];
  }

  lemma CheckRuns(p0: Pool, p: Pool, i: nat, ok: bool) returns (q: Pool)
    requires Reached(p0, p) && Holding(p, Checking(i)) && i < |p.work| && !p.panicked
    ensures Reached(p0, q)
    ensures q == if !ok then Finish(p, 0, i, Failed)
                 else if p.work[i].checksum in p.s3 then Finish(p, 0, i, Skipped)
                 else p.(workers := map[0 := Reading(i)])
  {
    q := Extend(p0, p, Check(0, ok));
    assert p.workers[0 := Reading(i)] == map[0 := Reading(i)];
  }

  lemma ReadRuns(p0: Pool, p: Pool, i: nat, ok: bool) returns (q: Pool)
    requires Reached(p0, p) && Holding(p, Reading(i)) && i < |p.work| && !p.panicked
    ensures Reached(p0, q)
    ensures var c := p.work[i].checksum;
            q == if c !in p.local then Finish(p, 0, i, NotFound)
                 else if !ok then Finish(p, 0, i, Failed)
                 else p.(workers := map[0 := Uploading(i, p.local[c])])
  {
    q := Extend(p0, p, Read(0, ok));
    var c := p.work[i].checksum;
    if c in p.local { assert p.workers[0 := Uploading(i, p.local[c])] == map[0 := Uploading(i, p.local[c])]; }
  }

  lemma UploadRuns(p0: Pool, p: Pool, i: nat, b: Bytes, head: bool, put: bool) returns (q: Pool)
    requires Reached(p0, p) && Holding(p, Uploading(i, b)) && i < |p.work| && p.work[i].checksum !in p.s3 && !p.panicked
    ensures Reached(p0, q)
    ensures q == if head && put then Finish(p, 0, i, Uploaded).(s3 := p.s3[p.work[i].checksum := b]) else Finish(p, 0, i, Failed)
  {
    q := Extend(p0, p, Action.Upload(0, head, put));
  }

  lemma CloseRuns(p0: Pool, p: Pool) returns (q: Pool)
    requires Reached(p0, p) && Holding(p, Receiving) && p.next == |p.work| && !p.closed && !p.panicked
    ensures Reached(p0, q) && q == p.(closed := true, workers := map[0 := Exited])
  {
    q := Extend(p0, p, CloseChannel);
    q := Extend(p0, q, Exit(0));
    assert p.workers[0 := Exited] == map[0 := Exited];
  }

  /** How the calls for one entry turn out. */
  datatype Calls = Calls(existsOk: bool, get: bool, head: bool, put: bool)

  /** What becomes of an entry with checksum c. */
  function VerdictOf(dryRun: bool, local: map<string, Bytes>, s3: map<string, Bytes>, c: string, calls: Calls): Verdict {
    if dryRun then Uploaded
    else if !calls.existsOk then Failed
    else if c in s3 then Skipped
    else if c !in local then NotFound
    else if calls.get && calls.head && calls.put then Uploaded
    else Failed
  }

  /** A call fails that is needed for an entry with checksum c. */
  ghost predicate MissesCall(local: map<string, Bytes>, s3: map<string, Bytes>, c: string, calls: Calls) {
    !calls.existsOk || (c !in s3 && c in local && !(calls.get && calls.head && calls.put))
  }

  class Migration {
    const work: seq<Entry>
    const dryRun: bool
    const local: map<string, Bytes>
    var s3: map<string, Bytes>
    var uploaded: nat
    var skipped: nat
    var notFound: nat
    var errors: nat
    ghost var next: nat
    ghost var closed: bool
    ghost var phase: Phase
    ghost var done: map<nat, Verdict>

    ghost function View(): Pool
      reads this
    {
      Pool(work, dryRun, local, s3, next, closed, false, map[0 := phase], done, uploaded, skipped, notFound, errors)
    }

    constructor (work: seq<Entry>, dryRun: bool, local: map<string, Bytes>, s3: map<string, Bytes>)
      ensures View() == Started(work, dryRun, local, s3, {0})
    {
      this.work, this.dryRun, this.local, this.s3 := work, dryRun, local, s3;
      uploaded, skipped, notFound, errors := 0, 0, 0, 0;
      next, closed, phase, done := 0, false, Receiving, map[];
      new;
      assert Started(work, dryRun, local, s3, {0}).workers == map[0 := Receiving];
    }

    /** One counter goes up, and the worker receives again. */
    method Count(ghost p0: Pool, ghost p: Pool, ghost i: nat, v: Verdict)
      requires Reached(p0, p) && p == Finish(View(), 0, i, v)
      modifies `uploaded, `skipped, `notFound, `errors, `phase, `done
      ensures Reached(p0, View()) && phase == Receiving && done == old(done)[i := v]
      ensures errors == old(errors) + (if v.Failed? then 1 else 0)
    {
      ghost var before := View();
      match v {
        case Uploaded => uploaded := uploaded + 1;
        case Skipped => skipped := skipped + 1;
        case NotFound => notFound := notFound + 1;
        case Failed => errors := errors + 1;
      }
      assert before.workers[0 := Receiving] == map[0 := Receiving];
      phase, done := Receiving, done[i := v];
      assert View() == Finish(before, 0, i, v);
    }

    /** The loop body of a worker for entry i, in a run that is not dry. */
    method Copy(ghost p0: Pool, i: nat, calls: Calls)
      requires Reached(p0, View()) && phase == Checking(i) && i < |work| && !dryRun
      modifies `s3, `uploaded, `skipped, `notFound, `errors, `phase, `done
      ensures Reached(p0, View()) && phase == Receiving
      ensures done == old(done)[i := VerdictOf(false, local, old(s3), work[i].checksum, calls)]
      ensures errors == old(errors) + (if VerdictOf(false, local, old(s3), work[i].checksum, calls).Failed? then 1 else 0)
      ensures forall c :: c != work[i].checksum ==> (c in s3 <==> c in old(s3))
    {
      var c := work[i].checksum;
      ghost var p := CheckRuns(p0, View(), i, calls.existsOk);
      if !calls.existsOk {
        Count(p0, p, i, Failed);
        return;
      }
      if c in s3 {
        Count(p0, p, i, Skipped);
        return;
      }
      phase := Reading(i);
      assert View() == p;
      CopyMissing(p0, i, calls);
    }

    /** The rest of it, for an object that the bucket lacks. */
    method CopyMissing(ghost p0: Pool, i: nat, calls: Calls)
      requires Reached(p0, View()) && phase == Reading(i) && i < |work| && work[i].checksum !in s3
      modifies `s3, `uploaded, `skipped, `notFound, `errors, `phase, `done
      ensures Reached(p0, View()) && phase == Receiving
      ensures var v := if work[i].checksum !in local then NotFound
                       else if calls.get && calls.head && calls.put then Uploaded else Failed;
              done == old(done)[i := v] && errors == old(errors) + (if v.Failed? then 1 else 0)
      ensures forall c :: c != work[i].checksum ==> (c in s3 <==> c in old(s3))
    {
      var c := work[i].checksum;
      ghost var p := ReadRuns(p0, View(), i, calls.get);
      if c !in local {
        Count(p0, p, i, NotFound);
        return;
      }
      if !calls.get {
        Count(p0, p, i, Failed);
        return;
      }
      var rc := local[c];
      phase := Uploading(i, rc);
      assert View() == p;
      Upload(p0, i, rc, calls.head, calls.put);
    }

    method Upload(ghost p0: Pool, i: nat, rc: Bytes, head: bool, put: bool)
      requires Reached(p0, View()) && phase == Uploading(i, rc) && i < |work| && work[i].checksum !in s3
      modifies `s3, `uploaded, `skipped, `notFound, `errors, `phase, `done
      ensures Reached(p0, View()) && phase == Receiving
      ensures done == old(done)[i := if head && put then Uploaded else Failed]
      ensures errors == old(errors) + (if head && put then 0 else 1)
      ensures forall c :: c != work[i].checksum ==> (c in s3 <==> c in old(s3))
    {
      ghost var p := UploadRuns(p0, View(), i, rc, head, put);
      if head && put {
        s3 := s3[work[i].checksum := rc];
        Count(p0, p, i, Uploaded);
      } else {
        Count(p0, p, i, Failed);
      }
    }

    /** The sender hands entry i over and the worker goes through it. */
    method Process(ghost p0: Pool, i: nat, calls: Calls)
      requires Reached(p0, View()) && phase == Receiving && next == i < |work| && !closed && |work[i].checksum| >= 12
      modifies `s3, `uploaded, `skipped, `notFound, `errors, `phase, `done, `next
      ensures Reached(p0, View()) && phase == Receiving && next == i + 1
      ensures done == old(done)[i := VerdictOf(dryRun, local, old(s3), work[i].checksum, calls)]
      ensures errors == old(errors) + (if VerdictOf(dryRun, local, old(s3), work[i].checksum, calls).Failed? then 1 else 0)
      ensures forall c :: c != work[i].checksum ==> (c in s3 <==> c in old(s3))
    {
      ghost var p := SendRuns(p0, View());
      next, phase := next + 1, Numbering(i);
      assert View() == p;
      p := NumberRuns(p0, p, i);
      if dryRun {
        Count(p0, p, i, Uploaded);
      } else {
        phase := Checking(i);
        assert View() == p;
        Copy(p0, i, calls);
      }
    }

    /** close(workCh), and the worker's end. */
    method Close(ghost p0: Pool)
      requires Reached(p0, View()) && phase == Receiving && next == |work| && !closed
      modifies `closed, `phase
      ensures Reached(p0, View()) && Finished(View())
    {
      ghost var p := CloseRuns(p0, View());
      closed, phase := true, Exited;
      assert View() == p;
    }

    /** run with one worker; calls(i) says how the calls for entry i turn out. It fails if and only if it is not
        a dry run and a call failed that was needed for some entry. */
    method Run(calls: nat -> Calls) returns (err: bool)
      requires View() == Started(work, dryRun, local, s3, {0}) && LongEnough(work)
      modifies this
      ensures Reached(old(View()), View()) && Finished(View())
      ensures err == (!dryRun && errors > 0)
      ensures Distinct(work) ==> (err <==> !dryRun && exists i: nat :: i < |work| && MissesCall(local, old(s3), work[i].checksum, calls(i)))
    {
      ghost var p0 := View();
      assert IsRun(p0, []) && Exec(p0, []) == p0;
      assert p0.workers[0] == phase;
      for i := 0 to |work|
        invariant Reached(p0, View()) && phase == Receiving && next == i && !closed
        invariant Distinct(work) ==> forall j :: i <= j < |work| ==> (work[j].checksum in s3 <==> work[j].checksum in old(s3))
        invariant Distinct(work) && !dryRun ==>
                    (errors > 0 <==> exists j: nat :: j < i && MissesCall(local, old(s3), work[j].checksum, calls(j)))
      {
        Process(p0, i, calls(i));
      }
      Close(p0);
      err := !dryRun && errors > 0;
    }
  }

  /** The pool's guarantees hold for this program: after a run without error, old objects are unchanged, new
      ones are copies, and what is not in the bucket was missing locally. */
  lemma RunCopies(p0: Pool, p: Pool)
    requires p0 == Started(p0.work, false, p0.local, p0.s3, {0}) && Distinct(p0.work) && Reached(p0, p) && Finished(p) && p.errors == 0
    ensures forall c :: c in p0.s3 ==> c in p.s3 && p.s3[c] == p0.s3[c]
    ensures forall c :: c in p.s3 && c !in p0.s3 ==> c in p0.local && p.s3[c] == p0.local[c]
    ensures forall i :: 0 <= i < |p0.work| ==> p0.work[i].checksum in p.s3 || p0.work[i].checksum !in p0.local
  {
    var actions :| IsRun(p0, actions) && Exec(p0, actions) == p;
    MigrationPostcondition(p0.work, p0.local, p0.s3, {0}, actions);
  }
}
