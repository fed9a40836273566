/** The worker pool of the migration tool (cmd/migrate/main.go), under every schedule of its goroutines, and
    what the bucket holds afterwards. S3 is a put-if-absent map (internal/storage/s3.go). */
module MigratePool {
  import opened Foundation
  import opened Keys
  import opened Migrate
  import opened PackageStore
  import Provenance
  import CacheSystem

  // ---- The pool ------------------------------------------------------------------------------------

  datatype Verdict = Uploaded | Skipped | NotFound | Failed

  /** A worker blocked on the channel, holding entry i, or finished. */
  datatype Phase =
    | Receiving
    | Numbering(i: nat)
    | Checking(i: nat)
    | Reading(i: nat)
    | Uploading(i: nat, bytes: Bytes)
    | Exited

  /** next counts the entries that the sender has handed over; done is the history of verdicts. */
  datatype Pool = Pool(
    work: seq<Entry>, dryRun: bool, local: map<string, Bytes>, s3: map<string, Bytes>,
    next: nat, closed: bool, panicked: bool, workers: map<nat, Phase>, done: map<nat, Verdict>,
    uploaded: nat, skipped: nat, notFound: nat, errors: nat)

  datatype Action =
    | Send(w: nat)                                // the unbuffered channel passes work[next] to w
    | CloseChannel
    | Exit(w: nat)
    | Number(w: nat)
    | Check(w: nat, ok: bool)
    | Read(w: nat, ok: bool)
    | Upload(w: nat, headOk: bool, putOk: bool)

  function Holds(p: Phase): Option<nat> {
    match p
    case Receiving => None
    case Exited => None
    case Numbering(i) => Some(i)
    case Checking(i) => Some(i)
    case Reading(i) => Some(i)
    case Uploading(i, _) => Some(i)
  }

  predicate Enabled(p: Pool, a: Action) {
    !p.panicked &&
    match a
    case Send(w) => w in p.workers && p.workers[w].Receiving? && p.next < |p.work| && !p.closed
    case CloseChannel => p.next == |p.work| && !p.closed
    case Exit(w) => w in p.workers && p.workers[w].Receiving? && p.closed
    case Number(w) => w in p.workers && p.workers[w].Numbering? && p.workers[w].i < |p.work|
    case Check(w, _) => w in p.workers && p.workers[w].Checking? && p.workers[w].i < |p.work|
    case Read(w, _) => w in p.workers && p.workers[w].Reading? && p.workers[w].i < |p.work|
    case Upload(w, _, _) => w in p.workers && p.workers[w].Uploading? && p.workers[w].i < |p.work|
  }

  function Go(p: Pool, w: nat, phase: Phase): Pool { p.(workers := p.workers[w := phase]) }

  /** One counter goes up and the worker receives again. */
  function Finish(p: Pool, w: nat, i: nat, v: Verdict): Pool {
    Go(p, w, Receiving).(
      done := p.done[i := v],
      uploaded := p.uploaded + (if v.Uploaded? then 1 else 0),
      skipped := p.skipped + (if v.Skipped? then 1 else 0),
      notFound := p.notFound + (if v.NotFound? then 1 else 0),
      errors := p.errors + (if v.Failed? then 1 else 0))
  }

  function Apply(p: Pool, a: Action): Pool
    requires Enabled(p, a)
  {
    match a
    case Send(w) => Go(p, w, Numbering(p.next)).(next := p.next + 1)
    case CloseChannel => p.(closed := true)
    case Exit(w) => Go(p, w, Exited)
    case Number(w) =>
      var i := p.workers[w].i;
      if |p.work[i].checksum| < 12 then p.(panicked := true)   // e.checksum[:12]
      else if p.dryRun then Finish(p, w, i, Uploaded)
      else Go(p, w, Checking(i))
    case Check(w, ok) =>
      var i := p.workers[w].i;
      if !ok then Finish(p, w, i, Failed)
      else if p.work[i].checksum in p.s3 then Finish(p, w, i, Skipped)
      else Go(p, w, Reading(i))
    case Read(w, ok) =>
      var i := p.workers[w].i;
      var c := p.work[i].checksum;
      if c !in p.local then Finish(p, w, i, NotFound)
      else if !ok then Finish(p, w, i, Failed)
      else Go(p, w, Uploading(i, p.local[c]))
    case Upload(w, headOk, putOk) =>   // S3.Put looks for the object again
      var i, bytes := p.workers[w].i, p.workers[w].bytes;
      var c := p.work[i].checksum;
      if !headOk then Finish(p, w, i, Failed)
      else if c in p.s3 then Finish(p, w, i, Uploaded)
      else if !putOk then Finish(p, w, i, Failed)
      else Finish(p, w, i, Uploaded).(s3 := p.s3[c := bytes])
  }

  function Started(work: seq<Entry>, dryRun: bool, local: map<string, Bytes>, s3: map<string, Bytes>, workers: set<nat>): Pool {
    Pool(work, dryRun, local, s3, 0, false, false, map w | w in workers :: Receiving, map[], 0, 0, 0, 0)
  }

  /** wg.Wait has returned. */
  predicate Finished(p: Pool) { p.closed && forall w :: w in p.workers ==> p.workers[w].Exited? }

  // ---- Every entry exactly once --------------------------------------------------------------------

  function IsUploaded(v: Verdict): int { if v.Uploaded? then 1 else 0 }
  function IsSkipped(v: Verdict): int { if v.Skipped? then 1 else 0 }
  function IsNotFound(v: Verdict): int { if v.NotFound? then 1 else 0 }
  function IsFailed(v: Verdict): int { if v.Failed? then 1 else 0 }

  ghost predicate Counted(p: Pool) {
    && p.uploaded == Sum(p.done, IsUploaded) && p.skipped == Sum(p.done, IsSkipped)
    && p.notFound == Sum(p.done, IsNotFound) && p.errors == Sum(p.done, IsFailed)
    && p.uploaded + p.skipped + p.notFound + p.errors == |p.done|
  }

  ghost predicate HeldBy(p: Pool, w: nat, i: nat) { w in p.workers && Holds(p.workers[w]) == Some(i) }

  /** Each entry sent so far is held by exactly one worker or has exactly one verdict. */
  ghost predicate OnceEach(p: Pool) {
    && p.next <= |p.work| && (p.closed ==> p.next == |p.work|)
    && (forall w :: w in p.workers && p.workers[w].Exited? ==> p.closed)
    && (forall i :: i in p.done ==> i < p.next)
    && (forall w, i: nat :: HeldBy(p, w, i) ==> i < p.next && i !in p.done)
    && (forall v, w, i: nat :: HeldBy(p, v, i) && HeldBy(p, w, i) ==> v == w)
    && (forall i: nat :: i < p.next ==> i in p.done || exists w :: HeldBy(p, w, i))
  }

  lemma FinishCounts(p: Pool, w: nat, i: nat, v: Verdict)
    requires Counted(p) && i !in p.done
    ensures Counted(Finish(p, w, i, v))
  {
    SumUpdate(p.done, i, v, IsUploaded);
    SumUpdate(p.done, i, v, IsSkipped);
    SumUpdate(p.done, i, v, IsNotFound);
    SumUpdate(p.done, i, v, IsFailed);
    assert |p.done[i := v]| == |p.done| + 1;
  }

  lemma FinishOnce(p: Pool, w: nat, i: nat, v: Verdict)
    requires OnceEach(p) && HeldBy(p, w, i)
    ensures OnceEach(Finish(p, w, i, v))
  {
    var p' := Finish(p, w, i, v);
    forall u, j: nat | HeldBy(p', u, j) ensures HeldBy(p, u, j) && j != i {
      assert u != w && HeldBy(p, u, j);
    }
    forall j: nat | j < p'.next && j !in p'.done ensures exists u :: HeldBy(p', u, j) {
      var u :| HeldBy(p, u, j);
      assert HeldBy(p', u, j);
    }
  }

  /** A worker moves on with the entry it holds. */
  lemma GoOnce(p: Pool, w: nat, phase: Phase)
    requires OnceEach(p) && w in p.workers && Holds(phase) == Holds(p.workers[w]) && !phase.Exited?
    ensures OnceEach(Go(p, w, phase))
  {
    var p' := Go(p, w, phase);
    assert forall u, j: nat :: HeldBy(p', u, j) <==> HeldBy(p, u, j);
  }

  lemma SendOnce(p: Pool, w: nat)
    requires OnceEach(p) && Enabled(p, Send(w))
    ensures OnceEach(Apply(p, Send(w)))
  {
    var p' := Apply(p, Send(w));
    forall u, j: nat | HeldBy(p', u, j) ensures (u == w && j == p.next) || (u != w && HeldBy(p, u, j)) {
    }
    forall j: nat | j < p'.next && j !in p'.done ensures exists u :: HeldBy(p', u, j) {
      if j == p.next {
        assert HeldBy(p', w, j);
      } else {
        var u :| HeldBy(p, u, j);
        assert HeldBy(p', u, j);
      }
    }
  }

  lemma ExitOnce(p: Pool, w: nat)
    requires OnceEach(p) && Enabled(p, Exit(w))
    ensures OnceEach(Apply(p, Exit(w)))
  {
    var p' := Apply(p, Exit(w));
    assert forall u, j: nat :: HeldBy(p', u, j) <==> HeldBy(p, u, j);
  }

  lemma SameHolders(p: Pool, q: Pool)
    requires OnceEach(p) && q == p.(closed := q.closed, panicked := q.panicked, s3 := q.s3)
    requires q.closed ==> q.next == |q.work|
    requires p.closed ==> q.closed
    ensures OnceEach(q)
  {
    assert forall u, j: nat :: HeldBy(q, u, j) <==> HeldBy(p, u, j);
  }

  lemma StepKeepsOnce(p: Pool, a: Action)
    requires OnceEach(p) && Counted(p) && Enabled(p, a)
    ensures OnceEach(Apply(p, a)) && Counted(Apply(p, a))
  {
    match a
    case Send(w) => SendOnce(p, w);
    case CloseChannel => SameHolders(p, Apply(p, a));
    case Exit(w) => ExitOnce(p, w);
    case Number(w) => NumberOnce(p, w);
    case Check(w, ok) => CheckOnce(p, w, ok);
    case Read(w, ok) => ReadOnce(p, w, ok);
    case Upload(w, headOk, putOk) => UploadOnce(p, w, headOk, putOk);
  }

  lemma VerdictOnce(p: Pool, w: nat, i: nat, v: Verdict)
    requires OnceEach(p) && Counted(p) && HeldBy(p, w, i)
    ensures OnceEach(Finish(p, w, i, v)) && Counted(Finish(p, w, i, v))
  {
    FinishOnce(p, w, i, v);
    FinishCounts(p, w, i, v);
  }

  lemma NumberOnce(p: Pool, w: nat)
    requires OnceEach(p) && Counted(p) && Enabled(p, Number(w))
    ensures OnceEach(Apply(p, Number(w))) && Counted(Apply(p, Number(w)))
  {
    var i := p.workers[w].i;
    assert HeldBy(p, w, i);
    SameHolders(p, p.(panicked := true));
    VerdictOnce(p, w, i, Uploaded);
    GoOnce(p, w, Checking(i));
  }

  lemma CheckOnce(p: Pool, w: nat, ok: bool)
    requires OnceEach(p) && Counted(p) && Enabled(p, Check(w, ok))
    ensures OnceEach(Apply(p, Check(w, ok))) && Counted(Apply(p, Check(w, ok)))
  {
    var i := p.workers[w].i;
    assert HeldBy(p, w, i);
    VerdictOnce(p, w, i, Failed);
    VerdictOnce(p, w, i, Skipped);
    GoOnce(p, w, Reading(i));
  }

  lemma ReadOnce(p: Pool, w: nat, ok: bool)
    requires OnceEach(p) && Counted(p) && Enabled(p, Read(w, ok))
    ensures OnceEach(Apply(p, Read(w, ok))) && Counted(Apply(p, Read(w, ok)))
  {
    var i := p.workers[w].i;
    assert HeldBy(p, w, i);
    VerdictOnce(p, w, i, NotFound);
    VerdictOnce(p, w, i, Failed);
    if p.work[i].checksum in p.local { GoOnce(p, w, Uploading(i, p.local[p.work[i].checksum])); }
  }

  lemma UploadOnce(p: Pool, w: nat, headOk: bool, putOk: bool)
    requires OnceEach(p) && Counted(p) && Enabled(p, Upload(w, headOk, putOk))
    ensures OnceEach(Apply(p, Upload(w, headOk, putOk))) && Counted(Apply(p, Upload(w, headOk, putOk)))
  {
    var i := p.workers[w].i;
    assert HeldBy(p, w, i);
    VerdictOnce(p, w, i, Failed);
    VerdictOnce(p, w, i, Uploaded);
    SameHolders(Finish(p, w, i, Uploaded), Finish(p, w, i, Uploaded).(s3 := p.s3[p.work[i].checksum := p.workers[w].bytes]));
  }

  lemma StartsOnce(work: seq<Entry>, dryRun: bool, local: map<string, Bytes>, s3: map<string, Bytes>, workers: set<nat>)
    ensures var p := Started(work, dryRun, local, s3, workers); OnceEach(p) && Counted(p)
  {
  }

  lemma {:induction false} FirstNats(n: nat, s: set<nat>)
    requires forall i: nat :: i in s <==> i < n
    ensures |s| == n
  {
    if n > 0 {
      FirstNats(n - 1, s - {n - 1});
    } else {
      assert s == {};
    }
  }

  /** When the pool has finished, every entry has exactly one verdict and the counters add up. */
  lemma FinishedIsComplete(p: Pool)
    requires OnceEach(p) && Counted(p) && Finished(p)
    ensures forall i: nat :: i in p.done <==> i < |p.work|
    ensures p.uploaded + p.skipped + p.notFound + p.errors == |p.work|
  {
    forall i: nat | i < |p.work| ensures i in p.done {
      assert forall w :: !HeldBy(p, w, i);
    }
    FirstNats(|p.work|, p.done.Keys);
  }

  // ---- Progress ------------------------------------------------------------------------------------

  /** With at least one worker an unfinished pool can always move, whatever its calls answer. */
  lemma NeverStuck(p: Pool, ok: bool) returns (a: Action)
    requires OnceEach(p) && !p.panicked && !Finished(p) && p.workers != map[]
    ensures Enabled(p, a)
  {
    if w :| w in p.workers && Holds(p.workers[w]).Some? {
      assert HeldBy(p, w, Holds(p.workers[w]).value);
      match p.workers[w]
      case Numbering(_) => a := Number(w);
      case Checking(_) => a := Check(w, ok);
      case Reading(_) => a := Read(w, ok);
      case Uploading(_, _) => a := Upload(w, ok, ok);
    } else if !p.closed {
      var w :| w in p.workers;
      a := if p.next < |p.work| then Send(w) else CloseChannel;
    } else {
      var w :| w in p.workers && !p.workers[w].Exited?;
      a := Exit(w);
    }
  }

  /** Without workers the first send blocks for ever. */
  lemma NoWorkersStuck(p: Pool, a: Action)
    requires p.workers == map[] && p.next < |p.work|
    ensures !Enabled(p, a)
  {
  }

  function Steps(phase: Phase): int {
    match phase
    case Exited => 0
    case Receiving => 1
    case Uploading(_, _) => 2
    case Reading(_) => 3
    case Checking(_) => 4
    case Numbering(_) => 5
  }

  ghost function Work(p: Pool): int {
    5 * (|p.work| - p.next) + Sum(p.workers, Steps) + (if p.closed then 0 else 1)
  }

  /** What a step of worker w leaves alone, and how it brings w closer to receiving again; a send costs the
      worker four steps. */
  ghost predicate Moves(p: Pool, q: Pool, w: nat, sent: bool) {
    && q.work == p.work && q.local == p.local && q.dryRun == p.dryRun && q.closed == p.closed
    && w in p.workers && w in q.workers && q.workers == p.workers[w := q.workers[w]]
    && q.next == (if sent then p.next + 1 else p.next)
    && (q.panicked ==> !LongEnough(p.work))
    && (if sent then Steps(q.workers[w]) == Steps(p.workers[w]) + 4
        else q.panicked || Steps(q.workers[w]) < Steps(p.workers[w]))
  }

  lemma ChannelMoves(p: Pool, a: Action)
    requires Enabled(p, a) && (a.Send? || a.Exit?)
    ensures Moves(p, Apply(p, a), a.w, a.Send?)
  {
  }

  lemma NumberMoves(p: Pool, w: nat)
    requires Enabled(p, Number(w))
    ensures Moves(p, Apply(p, Number(w)), w, false)
  {
    assert p.workers[w].i < |p.work|;
  }

  lemma CheckMoves(p: Pool, w: nat, ok: bool)
    requires Enabled(p, Check(w, ok))
    ensures Moves(p, Apply(p, Check(w, ok)), w, false)
  {
  }

  lemma ReadMoves(p: Pool, w: nat, ok: bool)
    requires Enabled(p, Read(w, ok))
    ensures Moves(p, Apply(p, Read(w, ok)), w, false)
  {
  }

  lemma UploadMoves(p: Pool, w: nat, headOk: bool, putOk: bool)
    requires Enabled(p, Upload(w, headOk, putOk))
    ensures Moves(p, Apply(p, Upload(w, headOk, putOk)), w, false)
  {
  }

  lemma StepMoves(p: Pool, a: Action)
    requires Enabled(p, a) && !a.CloseChannel?
    ensures Moves(p, Apply(p, a), a.w, a.Send?)
  {
    match a
    case Send(_) => ChannelMoves(p, a);
    case Exit(_) => ChannelMoves(p, a);
    case Number(w) => NumberMoves(p, w);
    case Check(w, ok) => CheckMoves(p, w, ok);
    case Read(w, ok) => ReadMoves(p, w, ok);
    case Upload(w, headOk, putOk) => UploadMoves(p, w, headOk, putOk);
  }

  lemma MoveUsesWork(p: Pool, q: Pool, w: nat, sent: bool)
    requires Moves(p, q, w, sent) && (sent || !q.panicked)
    ensures Work(q) < Work(p)
  {
    SumUpdate(p.workers, w, q.workers[w], Steps);
  }

  lemma StepUsesWork(p: Pool, a: Action)
    requires Enabled(p, a) && !Apply(p, a).panicked
    ensures Work(Apply(p, a)) < Work(p)
  {
    if a.CloseChannel? {
      assert Work(Apply(p, CloseChannel)) == Work(p) - 1;
    } else {
      StepMoves(p, a);
      MoveUsesWork(p, Apply(p, a), a.w, a.Send?);
    }
  }

  lemma {:induction false} StepsAreNatural(m: map<nat, Phase>)
    ensures Sum(m, Steps) >= 0
    decreases m.Keys
  {
    if m.Keys != {} {
      var w :| w in m.Keys;
      SumWithout(m, w, Steps);
      StepsAreNatural(m - {w});
    }
  }

  predicate IsRun(p: Pool, actions: seq<Action>)
    decreases |actions|
  {
    actions == [] || (Enabled(p, actions[0]) && IsRun(Apply(p, actions[0]), actions[1..]))
  }

  function Exec(p: Pool, actions: seq<Action>): Pool
    requires IsRun(p, actions)
    decreases |actions|
  {
    if actions == [] then p else Exec(Apply(p, actions[0]), actions[1..])
  }

  /** e.checksum[:12] does not panic. */
  predicate LongEnough(work: seq<Entry>) { forall i :: 0 <= i < |work| ==> |work[i].checksum| >= 12 }

  /** Every schedule ends: a run has at most Work(p) steps, keeps every entry processed at most once, and
      never panics. */
  lemma {:induction false} RunsEnd(p: Pool, actions: seq<Action>)
    requires OnceEach(p) && Counted(p) && !p.panicked && LongEnough(p.work) && IsRun(p, actions)
    ensures var q := Exec(p, actions); OnceEach(q) && Counted(q) && !q.panicked && q.work == p.work
    ensures |actions| <= Work(p)
    decreases |actions|
  {
    StepsAreNatural(p.workers);
    if actions != [] {
      var a := actions[0];
      StepKeepsOnce(p, a);
      NoPanic(p, a);
      StepUsesWork(p, a);
      RunsEnd(Apply(p, a), actions[1..]);
    }
  }

  lemma NoPanic(p: Pool, a: Action)
    requires !p.panicked && LongEnough(p.work) && Enabled(p, a)
    ensures !Apply(p, a).panicked && Apply(p, a).work == p.work
  {
    if a.CloseChannel? {
      assert Apply(p, CloseChannel) == p.(closed := true);
    } else {
      StepMoves(p, a);
    }
  }

  lemma {:induction false} CanFinish(p: Pool) returns (actions: seq<Action>)
    requires OnceEach(p) && Counted(p) && !p.panicked && LongEnough(p.work) && p.workers != map[]
    ensures IsRun(p, actions) && Finished(Exec(p, actions))
    decreases Work(p)
  {
    if Finished(p) {
      return [];
    }
    var a := NeverStuck(p, true);
    StepKeepsOnce(p, a);
    NoPanic(p, a);
    StepUsesWork(p, a);
    StepsAreNatural(Apply(p, a).workers);
    if !a.CloseChannel? { StepMoves(p, a); }
    var rest := CanFinish(Apply(p, a));
    actions := [a] + rest;
    assert actions[1..] == rest;
  }

  lemma {:induction false} NobodyReceives(p: Pool, actions: seq<Action>)
    requires p.workers == map[] && p.next < |p.work| && !p.closed && IsRun(p, actions)
    ensures Exec(p, actions) == p
    decreases |actions|
  {
    if actions != [] { NoWorkersStuck(p, actions[0]); }
  }

  ghost predicate FinishesBy(p: Pool, actions: seq<Action>) { IsRun(p, actions) && Finished(Exec(p, actions)) }

  lemma FinishesOnItsOwn(p: Pool)
    requires p.work == [] && Enabled(p, CloseChannel) && p.workers == map[]
    ensures FinishesBy(p, [CloseChannel])
  {
    var q := p.(closed := true);
    assert Apply(p, CloseChannel) == q && IsRun(q, []) && Exec(q, []) == q && [CloseChannel][1..] == [];
  }

  /** The pool can finish if and only if it has a worker or nothing to do. Together with RunsEnd and
      NeverStuck: with workers >= 1, every maximal schedule finishes. */
  lemma FinishesIff(p: Pool)
    requires LongEnough(p.work) && p == Started(p.work, p.dryRun, p.local, p.s3, p.workers.Keys)
    ensures (exists actions :: FinishesBy(p, actions)) <==> (p.workers != map[] || p.work == [])
  {
    StartsOnce(p.work, p.dryRun, p.local, p.s3, p.workers.Keys);
    if p.workers != map[] {
      var actions := CanFinish(p);
      assert FinishesBy(p, actions);
    } else if p.work == [] {
      FinishesOnItsOwn(p);
    } else {
      forall actions ensures !FinishesBy(p, actions) {
        if IsRun(p, actions) { NobodyReceives(p, actions); }
      }
    }
  }

  // ---- What the bucket holds -----------------------------------------------------------------------

  /** Relative to the bucket before: nothing lost or changed, everything new is a copy of a local artifact,
      and each verdict says the truth. */
  ghost predicate Copied(p: Pool, before: map<string, Bytes>) {
    && Distinct(p.work)
    && (forall c :: c in before ==> c in p.s3 && p.s3[c] == before[c])
    && (forall c :: c in p.s3 && c !in before ==> c in p.local && p.s3[c] == p.local[c])
    && (forall w :: w in p.workers ==> PhaseOk(p, p.workers[w]))
    && (forall i :: i in p.done && i < |p.work| ==> VerdictOk(p, before, i))
    && (p.dryRun ==> p.s3 == before)
  }

  ghost predicate PhaseOk(p: Pool, phase: Phase) {
    match phase
    case Checking(_) => !p.dryRun
    case Reading(i) => !p.dryRun && i < |p.work| && p.work[i].checksum !in p.s3
    case Uploading(i, b) =>
      && !p.dryRun && i < |p.work| && p.work[i].checksum !in p.s3
      && p.work[i].checksum in p.local && b == p.local[p.work[i].checksum]
    case _ => true
  }

  ghost predicate VerdictOk(p: Pool, before: map<string, Bytes>, i: nat)
    requires i in p.done && i < |p.work|
  {
    var c := p.work[i].checksum;
    match p.done[i]
    case Uploaded => p.dryRun || (c !in before && c in p.s3 && c in p.local && p.s3[c] == p.local[c])
    case Skipped => !p.dryRun && c in before
    case NotFound => !p.dryRun && c !in before && c !in p.local
    case Failed => !p.dryRun
  }

  /** Other workers hold other entries, hence other checksums. */
  lemma UploadKeepsCopied(p: Pool, before: map<string, Bytes>, w: nat, headOk: bool, putOk: bool)
    requires OnceEach(p) && Copied(p, before) && Enabled(p, Upload(w, headOk, putOk))
    ensures Copied(Apply(p, Upload(w, headOk, putOk)), before)
  {
    var p' := Apply(p, Upload(w, headOk, putOk));
    var i := p.workers[w].i;
    assert HeldBy(p, w, i) && PhaseOk(p, p.workers[w]);
    forall u | u in p'.workers ensures PhaseOk(p', p'.workers[u]) {
      assert PhaseOk(p, p.workers[u]);
      if u != w && Holds(p.workers[u]).Some? {
        var j := Holds(p.workers[u]).value;
        assert HeldBy(p, u, j) && j != i;
      }
    }
    forall j | j in p'.done && j < |p'.work| ensures VerdictOk(p', before, j) {
      if j in p.done { assert VerdictOk(p, before, j); }
    }
  }

  lemma VerdictKeepsCopied(p: Pool, before: map<string, Bytes>, w: nat, i: nat, v: Verdict)
    requires OnceEach(p) && Copied(p, before) && HeldBy(p, w, i) && i < |p.work|
    requires match v
             case Uploaded => p.dryRun
             case Skipped => !p.dryRun && p.work[i].checksum in before
             case NotFound => !p.dryRun && p.work[i].checksum !in before && p.work[i].checksum !in p.local
             case Failed => !p.dryRun
    ensures Copied(Finish(p, w, i, v), before)
  {
    var p' := Finish(p, w, i, v);
    forall u | u in p'.workers ensures PhaseOk(p', p'.workers[u]) {
      if u in p.workers { assert PhaseOk(p, p.workers[u]); }
    }
    forall j | j in p'.done && j < |p'.work| ensures VerdictOk(p', before, j) {
      if j != i { assert VerdictOk(p, before, j); }
    }
  }

  lemma GoKeepsCopied(p: Pool, before: map<string, Bytes>, w: nat, phase: Phase)
    requires Copied(p, before) && PhaseOk(p, phase)
    ensures Copied(Go(p, w, phase), before)
  {
    var p' := Go(p, w, phase);
    forall u | u in p'.workers ensures PhaseOk(p', p'.workers[u]) {
      if u != w { assert PhaseOk(p, p.workers[u]); }
    }
    forall j | j in p'.done && j < |p'.work| ensures VerdictOk(p', before, j) { assert VerdictOk(p, before, j); }
  }

  lemma FlagsKeepCopied(p: Pool, before: map<string, Bytes>, q: Pool)
    requires Copied(p, before) && q == p.(closed := q.closed, panicked := q.panicked, next := q.next)
    ensures Copied(q, before)
  {
    forall u | u in q.workers ensures PhaseOk(q, q.workers[u]) { assert PhaseOk(p, p.workers[u]); }
    forall j | j in q.done && j < |q.work| ensures VerdictOk(q, before, j) { assert VerdictOk(p, before, j); }
  }

  /** A skipped object was there before the run: nobody else uploads under its checksum. */
  lemma SeenWasThere(p: Pool, before: map<string, Bytes>, w: nat)
    requires OnceEach(p) && Copied(p, before) && w in p.workers && p.workers[w].Checking? && p.workers[w].i < |p.work|
    requires p.work[p.workers[w].i].checksum in p.s3 && OnlyVerdictsAdd(p, before)
    ensures p.work[p.workers[w].i].checksum in before
  {
    var i := p.workers[w].i;
    var c := p.work[i].checksum;
    if c !in before {
      var j :| AddedBy(p, c, j);
      assert HeldBy(p, w, i) && i == j;
    }
  }

  /** Entry j was uploaded under checksum c. */
  ghost predicate AddedBy(p: Pool, c: string, j: nat) {
    j in p.done && p.done[j].Uploaded? && j < |p.work| && p.work[j].checksum == c
  }

  ghost predicate OnlyVerdictsAdd(p: Pool, before: map<string, Bytes>) {
    forall c :: c in p.s3 && c !in before ==> exists j: nat :: AddedBy(p, c, j)
  }

  /** A verdict on a new entry, and the object it may add. */
  lemma VerdictKeepsAdded(p: Pool, before: map<string, Bytes>, w: nat, i: nat, v: Verdict, s3: map<string, Bytes>)
    requires OnlyVerdictsAdd(p, before) && i !in p.done && i < |p.work|
    requires forall c :: c in s3 && c !in p.s3 ==> v.Uploaded? && c == p.work[i].checksum
    ensures OnlyVerdictsAdd(Finish(p, w, i, v).(s3 := s3), before)
  {
    var q := Finish(p, w, i, v).(s3 := s3);
    forall c | c in q.s3 && c !in before ensures exists j: nat :: AddedBy(q, c, j) {
      if c in p.s3 {
        var j: nat :| AddedBy(p, c, j);
        assert AddedBy(q, c, j);
      } else {
        assert AddedBy(q, c, i);
      }
    }
  }

  lemma QuietKeepsAdded(p: Pool, before: map<string, Bytes>, q: Pool)
    requires OnlyVerdictsAdd(p, before) && q.done == p.done && q.work == p.work && q.s3 == p.s3
    ensures OnlyVerdictsAdd(q, before)
  {
    forall c | c in q.s3 && c !in before ensures exists j: nat :: AddedBy(q, c, j) {
      var j: nat :| AddedBy(p, c, j);
      assert AddedBy(q, c, j);
    }
  }

  /** All that a pool keeps: exactness, the counters, and what the bucket holds. */
  ghost predicate Sound(p: Pool, before: map<string, Bytes>) {
    OnceEach(p) && Counted(p) && Copied(p, before) && OnlyVerdictsAdd(p, before)
  }

  lemma VerdictKeepsSound(p: Pool, before: map<string, Bytes>, w: nat, i: nat, v: Verdict)
    requires Sound(p, before) && HeldBy(p, w, i)
    requires match v
             case Uploaded => p.dryRun
             case Skipped => !p.dryRun && p.work[i].checksum in before
             case NotFound => !p.dryRun && p.work[i].checksum !in before && p.work[i].checksum !in p.local
             case Failed => !p.dryRun
    ensures Sound(Finish(p, w, i, v), before)
  {
    VerdictOnce(p, w, i, v);
    VerdictKeepsCopied(p, before, w, i, v);
    VerdictKeepsAdded(p, before, w, i, v, p.s3);
  }

  lemma GoKeepsSound(p: Pool, before: map<string, Bytes>, w: nat, phase: Phase)
    requires Sound(p, before) && PhaseOk(p, phase)
    requires w in p.workers && Holds(phase) == Holds(p.workers[w]) && !phase.Exited?
    ensures Sound(Go(p, w, phase), before)
  {
    GoOnce(p, w, phase);
    GoKeepsCopied(p, before, w, phase);
    QuietKeepsAdded(p, before, Go(p, w, phase));
  }

  lemma SendKeepsCopied(p: Pool, before: map<string, Bytes>, w: nat)
    requires Copied(p, before) && Enabled(p, Send(w))
    ensures Copied(Apply(p, Send(w)), before)
  {
    var q := p.(next := p.next + 1);
    FlagsKeepCopied(p, before, q);
    GoKeepsCopied(q, before, w, Numbering(p.next));
    assert Apply(p, Send(w)) == Go(q, w, Numbering(p.next));
  }

  lemma SendKeepsSound(p: Pool, before: map<string, Bytes>, w: nat)
    requires Sound(p, before) && Enabled(p, Send(w))
    ensures Sound(Apply(p, Send(w)), before)
  {
    SendOnce(p, w);
    SendKeepsCopied(p, before, w);
    var q := Apply(p, Send(w));
    assert q.done == p.done && q.s3 == p.s3 && q.work == p.work;
    QuietKeepsAdded(p, before, q);
  }

  lemma CloseKeepsSound(p: Pool, before: map<string, Bytes>)
    requires Sound(p, before) && Enabled(p, CloseChannel)
    ensures Sound(Apply(p, CloseChannel), before)
  {
    var q := p.(closed := true);
    SameHolders(p, q);
    QuietKeepsAdded(p, before, q);
    FlagsKeepCopied(p, before, q);
  }

  lemma ExitKeepsSound(p: Pool, before: map<string, Bytes>, w: nat)
    requires Sound(p, before) && Enabled(p, Exit(w))
    ensures Sound(Apply(p, Exit(w)), before)
  {
    ExitOnce(p, w);
    QuietKeepsAdded(p, before, Go(p, w, Exited));
    GoKeepsCopied(p, before, w, Exited);
  }

  lemma NumberKeepsSound(p: Pool, before: map<string, Bytes>, w: nat)
    requires Sound(p, before) && Enabled(p, Number(w))
    ensures Sound(Apply(p, Number(w)), before)
  {
    var i := p.workers[w].i;
    assert HeldBy(p, w, i);
    if |p.work[i].checksum| < 12 {
      NumberOnce(p, w);
      FlagsKeepCopied(p, before, Apply(p, Number(w)));
      QuietKeepsAdded(p, before, Apply(p, Number(w)));
    } else if p.dryRun {
      VerdictKeepsSound(p, before, w, i, Uploaded);
    } else {
      GoKeepsSound(p, before, w, Checking(i));
    }
  }

  lemma CheckKeepsSound(p: Pool, before: map<string, Bytes>, w: nat, ok: bool)
    requires Sound(p, before) && Enabled(p, Check(w, ok))
    ensures Sound(Apply(p, Check(w, ok)), before)
  {
    var i := p.workers[w].i;
    assert HeldBy(p, w, i) && PhaseOk(p, p.workers[w]);
    if !ok {
      VerdictKeepsSound(p, before, w, i, Failed);
    } else if p.work[i].checksum in p.s3 {
      SeenWasThere(p, before, w);
      VerdictKeepsSound(p, before, w, i, Skipped);
    } else {
      GoKeepsSound(p, before, w, Reading(i));
    }
  }

  lemma ReadKeepsSound(p: Pool, before: map<string, Bytes>, w: nat, ok: bool)
    requires Sound(p, before) && Enabled(p, Read(w, ok))
    ensures Sound(Apply(p, Read(w, ok)), before)
  {
    var i := p.workers[w].i;
    assert HeldBy(p, w, i) && PhaseOk(p, p.workers[w]);
    if p.work[i].checksum !in p.local {
      VerdictKeepsSound(p, before, w, i, NotFound);
    } else if !ok {
      VerdictKeepsSound(p, before, w, i, Failed);
    } else {
      GoKeepsSound(p, before, w, Uploading(i, p.local[p.work[i].checksum]));
    }
  }

  lemma UploadKeepsSound(p: Pool, before: map<string, Bytes>, w: nat, headOk: bool, putOk: bool)
    requires Sound(p, before) && Enabled(p, Upload(w, headOk, putOk))
    ensures Sound(Apply(p, Upload(w, headOk, putOk)), before)
  {
    var p' := Apply(p, Upload(w, headOk, putOk));
    var i := p.workers[w].i;
    assert HeldBy(p, w, i);
    UploadOnce(p, w, headOk, putOk);
    UploadKeepsCopied(p, before, w, headOk, putOk);
    assert PhaseOk(p, p.workers[w]);
    if headOk && putOk {
      VerdictKeepsAdded(p, before, w, i, Uploaded, p'.s3);
    } else {
      VerdictKeepsAdded(p, before, w, i, Failed, p.s3);
    }
  }

  lemma StepKeepsSound(p: Pool, before: map<string, Bytes>, a: Action)
    requires Sound(p, before) && Enabled(p, a)
    ensures Sound(Apply(p, a), before)
  {
    match a
    case Number(w) => NumberKeepsSound(p, before, w);
    case Check(w, ok) => CheckKeepsSound(p, before, w, ok);
    case Read(w, ok) => ReadKeepsSound(p, before, w, ok);
    case Upload(w, headOk, putOk) => UploadKeepsSound(p, before, w, headOk, putOk);
    case Send(w) => SendKeepsSound(p, before, w);
    case CloseChannel => CloseKeepsSound(p, before);
    case Exit(w) => ExitKeepsSound(p, before, w);
  }

  lemma StepKeepsJob(p: Pool, a: Action)
    requires Enabled(p, a)
    ensures var q := Apply(p, a); q.work == p.work && q.local == p.local && q.dryRun == p.dryRun
  {
    if a.CloseChannel? {
      assert Apply(p, CloseChannel) == p.(closed := true);
    } else {
      StepMoves(p, a);
    }
  }

  lemma {:induction false} RunsCopy(p: Pool, before: map<string, Bytes>, actions: seq<Action>)
    requires Sound(p, before) && IsRun(p, actions)
    ensures var q := Exec(p, actions);
            Sound(q, before) && q.work == p.work && q.local == p.local && q.dryRun == p.dryRun
    decreases |actions|
  {
    if actions != [] {
      StepKeepsSound(p, before, actions[0]);
      StepKeepsJob(p, actions[0]);
      RunsCopy(Apply(p, actions[0]), before, actions[1..]);
    }
  }

  /** A non-dry run that ends without errors, over any schedule: old objects are unchanged, new ones are
      byte-identical copies, and every checksum of the work list is in the bucket or was missing locally. */
  lemma MigrationPostcondition(work: seq<Entry>, local: map<string, Bytes>, s3: map<string, Bytes>, workers: set<nat>, actions: seq<Action>)
    requires Distinct(work) && IsRun(Started(work, false, local, s3, workers), actions)
    requires Finished(Exec(Started(work, false, local, s3, workers), actions))
    requires Exec(Started(work, false, local, s3, workers), actions).errors == 0
    ensures var q := Exec(Started(work, false, local, s3, workers), actions);
            && (forall c :: c in s3 ==> c in q.s3 && q.s3[c] == s3[c])
            && (forall c :: c in q.s3 && c !in s3 ==> c in local && q.s3[c] == local[c])
            && (forall i :: 0 <= i < |work| ==> work[i].checksum in q.s3 || work[i].checksum !in local)
            && q.uploaded + q.skipped + q.notFound == |work|
  {
    var p := Started(work, false, local, s3, workers);
    StartsOnce(work, false, local, s3, workers);
    RunsCopy(p, s3, actions);
    var q := Exec(p, actions);
    FinishedIsComplete(q);
    forall i | 0 <= i < |work| ensures work[i].checksum in q.s3 || work[i].checksum !in local {
      assert i in q.done && VerdictOk(q, s3, i);
      if q.done[i].Failed? { NoFailures(q.done, i); }
    }
  }

  /** From the table to the bucket: after a run without errors, each cached row has its artifact in the
      bucket, unless it was missing locally. */
  lemma CachedRowsAreCopied(rows: seq<Row>, work: seq<Entry>, local: map<string, Bytes>, s3: map<string, Bytes>, workers: set<nat>,
                            actions: seq<Action>, r: Row)
    requires WorkFor(rows, work) && r in rows && Wanted(r) && IsRun(Started(work, false, local, s3, workers), actions)
    requires Finished(Exec(Started(work, false, local, s3, workers), actions))
    requires Exec(Started(work, false, local, s3, workers), actions).errors == 0
    ensures var q := Exec(Started(work, false, local, s3, workers), actions);
            if r.checksum in s3 then r.checksum in q.s3 && q.s3[r.checksum] == s3[r.checksum]
            else if r.checksum in local then r.checksum in q.s3 && q.s3[r.checksum] == local[r.checksum]
            else r.checksum !in q.s3
  {
    MigrationPostcondition(work, local, s3, workers, actions);
    var j :| 0 <= j < |rows| && rows[j] == r;
    assert Listed(work, rows[j].checksum);
  }

  /** A dry run writes nothing, over any schedule, and reports every entry as one to upload. */
  lemma DryRunWritesNothing(work: seq<Entry>, local: map<string, Bytes>, s3: map<string, Bytes>, workers: set<nat>, actions: seq<Action>)
    requires Distinct(work) && IsRun(Started(work, true, local, s3, workers), actions)
    ensures var q := Exec(Started(work, true, local, s3, workers), actions);
            q.s3 == s3 && q.errors == 0 && (Finished(q) ==> q.uploaded == |work|)
  {
    var p := Started(work, true, local, s3, workers);
    StartsOnce(work, true, local, s3, workers);
    RunsCopy(p, s3, actions);
    var q := Exec(p, actions);
    forall i | i in q.done ensures q.done[i].Uploaded? { assert i < |q.work| && VerdictOk(q, s3, i); }
    SumZero(q.done, IsFailed);
    SumZero(q.done, IsSkipped);
    SumZero(q.done, IsNotFound);
    if Finished(q) { FinishedIsComplete(q); }
  }

  /** The worker that prints an entry panics if and only if its checksum is shorter than twelve characters. */
  lemma PanicsIff(p: Pool, a: Action)
    requires Enabled(p, a)
    ensures Apply(p, a).panicked <==> a.Number? && |p.work[p.workers[a.w].i].checksum| < 12
  {
  }

  /** S3.Put looks for the object first: one that has come meanwhile stays, and the upload counts as done. */
  lemma PutKeepsPresent(p: Pool, w: nat, putOk: bool)
    requires Enabled(p, Upload(w, true, putOk)) && p.work[p.workers[w].i].checksum in p.s3
    ensures var q := Apply(p, Upload(w, true, putOk)); q.s3 == p.s3 && q.done == p.done[p.workers[w].i := Uploaded]
  {
  }

  /** Every call of this step succeeds. */
  predicate Succeeds(a: Action) {
    match a
    case Check(_, ok) => ok
    case Read(_, ok) => ok
    case Upload(_, headOk, putOk) => headOk && putOk
    case _ => true
  }

  lemma {:induction false} NothingFailsNoError(p: Pool, actions: seq<Action>)
    requires IsRun(p, actions) && forall a :: a in actions ==> Succeeds(a)
    ensures Exec(p, actions).errors == p.errors
    decreases |actions|
  {
    if actions != [] {
      assert actions[0] in actions && forall a :: a in actions[1..] ==> a in actions;
      NothingFailsNoError(Apply(p, actions[0]), actions[1..]);
    }
  }

  /** A run in which no call fails has no errors, over any schedule, and each entry gets the one verdict that
      the bucket and the local files decide. */
  lemma CleanRunIsExact(work: seq<Entry>, local: map<string, Bytes>, s3: map<string, Bytes>, workers: set<nat>, actions: seq<Action>,
                        i: nat)
    requires Distinct(work) && IsRun(Started(work, false, local, s3, workers), actions) && i < |work|
    requires Finished(Exec(Started(work, false, local, s3, workers), actions)) && forall a :: a in actions ==> Succeeds(a)
    ensures var q := Exec(Started(work, false, local, s3, workers), actions);
            && q.errors == 0 && i in q.done
            && q.done[i] == (if work[i].checksum in s3 then Skipped else if work[i].checksum in local then Uploaded else NotFound)
  {
    var p := Started(work, false, local, s3, workers);
    StartsOnce(work, false, local, s3, workers);
    RunsCopy(p, s3, actions);
    NothingFailsNoError(p, actions);
    var q := Exec(p, actions);
    FinishedIsComplete(q);
    assert VerdictOk(q, s3, i);
    if q.done[i].Failed? { NoFailures(q.done, i); }
  }

  lemma NoFailures(done: map<nat, Verdict>, i: nat)
    requires i in done && done[i].Failed?
    ensures Sum(done, IsFailed) > 0
  {
    SumWithout(done, i, IsFailed);
    FailuresAreNatural(done - {i});
  }

  lemma {:induction false} FailuresAreNatural(m: map<nat, Verdict>)
    ensures Sum(m, IsFailed) >= 0 && Sum(m, IsUploaded) >= 0
    decreases m.Keys
  {
    if m.Keys != {} {
      var i :| i in m.Keys;
      SumWithout(m, i, IsFailed);
      SumWithout(m, i, IsUploaded);
      FailuresAreNatural(m - {i});
    }
  }

  /** When all that is there locally is in the bucket, nothing is uploaded, whatever fails. */
  lemma NothingToUpload(work: seq<Entry>, local: map<string, Bytes>, s3: map<string, Bytes>, workers: set<nat>, actions: seq<Action>)
    requires Distinct(work) && IsRun(Started(work, false, local, s3, workers), actions)
    requires forall i :: 0 <= i < |work| ==> work[i].checksum in s3 || work[i].checksum !in local
    ensures var q := Exec(Started(work, false, local, s3, workers), actions); q.uploaded == 0 && q.s3 == s3
  {
    var p := Started(work, false, local, s3, workers);
    StartsOnce(work, false, local, s3, workers);
    RunsCopy(p, s3, actions);
    var q := Exec(p, actions);
    forall i | i in q.done ensures IsUploaded(q.done[i]) == 0 {
      assert i < |q.work| && VerdictOk(q, s3, i);
    }
    SumZero(q.done, IsUploaded);
    assert forall c :: c in q.s3 ==> c in s3;
    assert q.s3 == s3;
  }

  /** The first run, with no errors, has copied all that a second one could copy. */
  lemma FirstRunCoversSecond(rows: seq<Row>, work: seq<Entry>, local: map<string, Bytes>, s3: map<string, Bytes>, workers: set<nat>,
                             actions: seq<Action>, rows': seq<Row>, work': seq<Entry>, local': map<string, Bytes>)
    requires WorkFor(rows, work) && IsRun(Started(work, false, local, s3, workers), actions)
    requires Finished(Exec(Started(work, false, local, s3, workers), actions))
    requires Exec(Started(work, false, local, s3, workers), actions).errors == 0
    requires WorkFor(rows', work') && (forall r :: r in rows' ==> r in rows) && local'.Keys <= local.Keys
    ensures var q := Exec(Started(work, false, local, s3, workers), actions);
            forall i :: 0 <= i < |work'| ==> work'[i].checksum in q.s3 || work'[i].checksum !in local'
  {
    MigrationPostcondition(work, local, s3, workers, actions);
    forall i | 0 <= i < |work'|
      ensures work'[i].checksum in Exec(Started(work, false, local, s3, workers), actions).s3 || work'[i].checksum !in local'
    {
      assert FromFirst(rows', work'[i]);
      var k: nat :| IsFirst(rows', k) && work'[i] == EntryOf(rows'[k]);
      assert rows'[k] in rows;
      var j :| 0 <= j < |rows| && rows[j] == rows'[k];
      assert Listed(work, rows[j].checksum);
    }
  }

  /** Two runs of the tool: after one without errors, over any schedule, a second run over no further rows and
      no further local files uploads nothing and leaves the bucket as it is, over any schedule and whatever
      fails. */
  lemma RerunUploadsNothing(rows: seq<Row>, work: seq<Entry>, local: map<string, Bytes>, s3: map<string, Bytes>, workers: set<nat>,
                            actions: seq<Action>, rows': seq<Row>, work': seq<Entry>, local': map<string, Bytes>,
                            workers': set<nat>, actions': seq<Action>)
    requires WorkFor(rows, work) && IsRun(Started(work, false, local, s3, workers), actions)
    requires Finished(Exec(Started(work, false, local, s3, workers), actions))
    requires Exec(Started(work, false, local, s3, workers), actions).errors == 0
    requires WorkFor(rows', work') && (forall r :: r in rows' ==> r in rows) && local'.Keys <= local.Keys
    requires var bucket := Exec(Started(work, false, local, s3, workers), actions).s3;
             IsRun(Started(work', false, local', bucket, workers'), actions')
    ensures var bucket := Exec(Started(work, false, local, s3, workers), actions).s3;
            var q := Exec(Started(work', false, local', bucket, workers'), actions');
            q.uploaded == 0 && q.s3 == bucket
  {
    FirstRunCoversSecond(rows, work, local, s3, workers, actions, rows', work', local');
    NothingToUpload(work', local', Exec(Started(work, false, local, s3, workers), actions).s3, workers', actions');
  }

  /** The bucket after a migration only holds what was fetched for its packages, if the bucket before and
      the local store did; so the proxy can be switched over to it in any state of the cache. */
  lemma MigrationKeepsProvenance(s: CacheSystem.State, U: iset<Package>, q: Pool, before: map<string, Bytes>)
    requires Provenance.Prov(s, U) && Copied(q, before) && q.local == s.store
    requires Provenance.StoreOk(s.gets, before)
    ensures Provenance.Prov(s.(store := q.s3), U)
  {
    forall c | c in q.s3 ensures Provenance.Stored(s.gets, c, q.s3[c]) {
      if c in before { assert Provenance.Stored(s.gets, c, before[c]); }
    }
  }
}
