/** The local storage backend (internal/storage/local.go) at the granularity of its system calls, with one
    writer per key, concurrent readers and deletes, I/O errors, and crashes at any point. Directories are
    not modelled beyond MkdirAll failing. */
module LocalStorage {
  import opened Foundation
  import opened Keys
  import opened Strings
  import opened Paths

  /** Where a Put stands. blind: its Stat failed with something else than "does not exist", and so it goes
      on although the object may be there. */
  datatype Phase =
    | Starting
    | Checked(blind: bool)
    | DirMade(blind: bool)
    | Writing(blind: bool, written: nat)
    | Copied(blind: bool)
    | Closed(blind: bool)
    | CleaningUp

  datatype Writer = Writer(data: Bytes, phase: Phase)

  /** begun is history: every (key, data) that a Put was ever called with. */
  datatype Disk = Disk(base: string, files: map<string, Bytes>, writers: map<string, Writer>, begun: set<(string, Bytes)>)

  datatype Action =
    | Begin(key: string, data: Bytes)
    | Stat(key: string, fails: bool)
    | MkdirAll(key: string, ok: bool)
    | Create(key: string, ok: bool)
    | Write(key: string, n: nat)
    | CopyEnds(key: string, ok: bool)
    | Close(key: string, ok: bool)
    | Rename(key: string, ok: bool)
    | RemoveTmp(key: string, ok: bool)
    | Delete(key: string)
    | Crash

  predicate Enabled(d: Disk, a: Action) {
    d.base != "" &&
    match a
    case Begin(c, _) => ArtifactKey(c) && c !in d.writers
    case Stat(c, _) => c in d.writers && d.writers[c].phase.Starting?
    case MkdirAll(c, _) => c in d.writers && d.writers[c].phase.Checked?
    case Create(c, _) => c in d.writers && d.writers[c].phase.DirMade?
    case Write(c, n) => c in d.writers && d.writers[c].phase.Writing? && d.writers[c].phase.written + n <= |d.writers[c].data|
    case CopyEnds(c, ok) =>
      c in d.writers && d.writers[c].phase.Writing? && (ok ==> d.writers[c].phase.written == |d.writers[c].data|)
    case Close(c, _) => c in d.writers && d.writers[c].phase.Copied?
    case Rename(c, ok) => c in d.writers && d.writers[c].phase.Closed? && (ok ==> TmpOf(d.base, c) in d.files)
    case RemoveTmp(c, _) => c in d.writers && d.writers[c].phase.CleaningUp?
    case Delete(c) => ArtifactKey(c)
    case Crash => true
  }

  function To(d: Disk, c: string, phase: Phase): Disk
    requires c in d.writers
  {
    d.(writers := d.writers[c := d.writers[c].(phase := phase)])
  }

  function Leave(d: Disk, c: string): Disk { d.(writers := d.writers - {c}) }

  function Apply(d: Disk, a: Action): Disk
    requires Enabled(d, a)
  {
    match a
    case Begin(c, data) => d.(writers := d.writers[c := Writer(data, Starting)], begun := d.begun + {(c, data)})
    case Stat(c, fails) =>
      if !fails && PathOf(d.base, c) in d.files then Leave(d, c) else To(d, c, Checked(fails))
    case MkdirAll(c, ok) => if ok then To(d, c, DirMade(d.writers[c].phase.blind)) else Leave(d, c)
    case Create(c, ok) =>
      if ok then To(d, c, Writing(d.writers[c].phase.blind, 0)).(files := d.files[TmpOf(d.base, c) := []])
      else Leave(d, c)
    case Write(c, n) =>
      var w := d.writers[c];
      var upTo := w.phase.written + n;
      To(d, c, Writing(w.phase.blind, upTo)).(files := d.files[TmpOf(d.base, c) := w.data[..upTo]])
    case CopyEnds(c, ok) => To(d, c, if ok then Copied(d.writers[c].phase.blind) else CleaningUp)
    case Close(c, ok) => To(d, c, if ok then Closed(d.writers[c].phase.blind) else CleaningUp)
    case Rename(c, ok) =>
      if ok then
        Leave(d, c).(files := (d.files - {TmpOf(d.base, c)})[PathOf(d.base, c) := d.files[TmpOf(d.base, c)]])
      else To(d, c, CleaningUp)
    case RemoveTmp(c, ok) => Leave(d, c).(files := if ok then d.files - {TmpOf(d.base, c)} else d.files)
    case Delete(c) => d.(files := d.files - {PathOf(d.base, c)})
    case Crash => d.(writers := map[])
  }

  /** What Get answers for a key: nothing, or the bytes of its file. */
  function View(d: Disk, c: string): Option<Bytes>
    requires d.base != ""
  {
    if PathOf(d.base, c) in d.files then Some(d.files[PathOf(d.base, c)]) else None
  }

  /** The temporary file of a writer holds what it has written, and a writer that has seen that there is no
      object still finds none: it is the only one for its key. */
  ghost predicate WriterOk(d: Disk, c: string)
    requires d.base != "" && c in d.writers
  {
    var w, tmp := d.writers[c], TmpOf(d.base, c);
    && ArtifactKey(c) && (c, w.data) in d.begun
    && match w.phase
       case Checked(blind) => blind || View(d, c) == None
       case DirMade(blind) => blind || View(d, c) == None
       case Writing(blind, n) => n <= |w.data| && tmp in d.files && d.files[tmp] == w.data[..n] && (blind || View(d, c) == None)
       case Copied(blind) => tmp in d.files && d.files[tmp] == w.data && (blind || View(d, c) == None)
       case Closed(blind) => tmp in d.files && d.files[tmp] == w.data && (blind || View(d, c) == None)
       case CleaningUp => tmp in d.files
       case Starting => true
  }

  ghost predicate Inv(d: Disk) {
    && d.base != ""
    && (forall c :: c in d.writers ==> WriterOk(d, c))
    && (forall c :: ArtifactKey(c) && View(d, c).Some? ==> (c, View(d, c).value) in d.begun)
  }

  /** No step of the writer of c, of a delete of c, or of a crash touches the files of another key. */
  lemma OtherKeysStay(d: Disk, a: Action, c: string)
    requires Inv(d) && Enabled(d, a) && ArtifactKey(c) && (a.Crash? || a.key != c)
    ensures View(Apply(d, a), c) == View(d, c)
    ensures TmpOf(d.base, c) in Apply(d, a).files <==> TmpOf(d.base, c) in d.files
    ensures TmpOf(d.base, c) in d.files ==> Apply(d, a).files[TmpOf(d.base, c)] == d.files[TmpOf(d.base, c)]
  {
    if !a.Crash? {
      if a.key in d.writers { assert WriterOk(d, a.key); }
      FilesAreApart(d.base, a.key, c);
      FilesAreApart(d.base, c, a.key);
    }
  }

  /** The disk implements a put-if-absent map: every step leaves what Get answers for c alone, except a
      delete of c, and the rename of c's writer, which shows the complete data at once. It shows it where
      there was nothing, unless the writer's Stat had failed. */
  lemma StepRefinesMap(d: Disk, a: Action, c: string)
    requires Inv(d) && Enabled(d, a) && ArtifactKey(c)
    ensures var now, then' := View(d, c), View(Apply(d, a), c);
            if a == Delete(c) then then' == None
            else if a == Rename(c, true) then
              && then' == Some(d.writers[c].data)
              && (now == None || d.writers[c].phase.blind)
            else then' == now
  {
    if a.Crash? || a.key != c {
      OtherKeysStay(d, a, c);
    } else {
      FilesAreApart(d.base, c, c);
      if c in d.writers { assert WriterOk(d, c); }
    }
  }

  lemma StepKeepsWriter(d: Disk, a: Action, c: string)
    requires Inv(d) && Enabled(d, a) && c in Apply(d, a).writers
    ensures WriterOk(Apply(d, a), c)
  {
    if c in d.writers { assert WriterOk(d, c); }
    if a.key != c {
      OtherKeysStay(d, a, c);
    } else {
      FilesAreApart(d.base, c, c);
      OwnStep(d, a, c);
    }
  }

  lemma OwnStep(d: Disk, a: Action, c: string)
    requires Inv(d) && Enabled(d, a) && !a.Crash? && a.key == c && c in Apply(d, a).writers
    requires TmpOf(d.base, c) != PathOf(d.base, c)
    ensures WriterOk(Apply(d, a), c)
  {
    if c in d.writers { assert WriterOk(d, c); }
    match a
    case Begin(_, _) =>
    case Stat(_, _) =>
    case MkdirAll(_, _) =>
    case Create(_, _) =>
    case Write(_, _) =>
    case CopyEnds(_, ok) =>
      if ok { assert d.writers[c].data[..|d.writers[c].data|] == d.writers[c].data; }
    case Close(_, _) =>
    case Rename(_, _) =>
    case RemoveTmp(_, _) =>
    case Delete(_) =>
  }

  lemma StepKeepsInv(d: Disk, a: Action)
    requires Inv(d) && Enabled(d, a)
    ensures Inv(Apply(d, a))
  {
    var d' := Apply(d, a);
    forall c | c in d'.writers ensures WriterOk(d', c) { StepKeepsWriter(d, a, c); }
    forall c | ArtifactKey(c) && View(d', c).Some? ensures (c, View(d', c).value) in d'.begun {
      StepRefinesMap(d, a, c);
      if a == Rename(c, true) { assert WriterOk(d, c); }
    }
  }

  predicate IsRun(d: Disk, actions: seq<Action>)
    decreases |actions|
  {
    actions == [] || (Enabled(d, actions[0]) && IsRun(Apply(d, actions[0]), actions[1..]))
  }

  function Exec(d: Disk, actions: seq<Action>): (end: Disk)
    requires IsRun(d, actions)
    ensures end.base == d.base
    decreases |actions|
  {
    if actions == [] then d else Exec(Apply(d, actions[0]), actions[1..])
  }

  /** In every run, with crashes and errors anywhere, Get sees nothing or the complete bytes of one Put of
      that key. */
  lemma {:induction false} ReadersSeeWholeObjects(d: Disk, actions: seq<Action>, c: string)
    requires Inv(d) && IsRun(d, actions) && ArtifactKey(c)
    ensures Inv(Exec(d, actions))
    ensures var v := View(Exec(d, actions), c); v == None || (c, v.value) in Exec(d, actions).begun
    decreases |actions|
  {
    if actions != [] {
      StepKeepsInv(d, actions[0]);
      ReadersSeeWholeObjects(Apply(d, actions[0]), actions[1..], c);
    }
  }

  predicate Blind(phase: Phase) {
    (phase.Checked? || phase.DirMade? || phase.Writing? || phase.Copied? || phase.Closed?) && phase.blind
  }

  /** No Stat of c fails, and c is not deleted. */
  predicate Sighted(actions: seq<Action>, c: string) {
    forall a :: a in actions ==> a != Stat(c, true) && a != Delete(c)
  }

  lemma ObjectStays(d: Disk, a: Action, c: string)
    requires Inv(d) && Enabled(d, a) && ArtifactKey(c) && View(d, c).Some?
    requires a != Stat(c, true) && a != Delete(c) && (c in d.writers ==> !Blind(d.writers[c].phase))
    ensures View(Apply(d, a), c) == View(d, c)
    ensures c in Apply(d, a).writers ==> !Blind(Apply(d, a).writers[c].phase)
  {
    StepRefinesMap(d, a, c);
    if c in d.writers { assert WriterOk(d, c); }
  }

  /** Then an object, once there, is never overwritten. */
  lemma {:induction false} ObjectsAreNotOverwritten(d: Disk, actions: seq<Action>, c: string)
    requires Inv(d) && IsRun(d, actions) && ArtifactKey(c) && View(d, c).Some?
    requires Sighted(actions, c) && (c in d.writers ==> !Blind(d.writers[c].phase))
    ensures View(Exec(d, actions), c) == View(d, c)
    decreases |actions|
  {
    if actions != [] {
      var a := actions[0];
      assert a in actions && forall b :: b in actions[1..] ==> b in actions;
      ObjectStays(d, a, c);
      StepKeepsInv(d, a);
      ObjectsAreNotOverwritten(Apply(d, a), actions[1..], c);
    }
  }

  lemma Then(d: Disk, a: Action, rest: seq<Action>)
    requires Enabled(d, a) && IsRun(Apply(d, a), rest)
    ensures IsRun(d, [a] + rest) && Exec(d, [a] + rest) == Exec(Apply(d, a), rest)
  {
    assert ([a] + rest)[1..] == rest;
  }

  /** With a failing Stat it is overwritten, by another complete object. */
  lemma FailingStatOverwrites(c: string, former: Bytes, latter: Bytes) returns (d: Disk, actions: seq<Action>)
    requires ArtifactKey(c)
    ensures Inv(d) && IsRun(d, actions) && d.writers == map[] && Delete(c) !in actions && Stat(c, true) in actions
    ensures View(d, c) == Some(former) && View(Exec(d, actions), c) == Some(latter)
  {
    d := Disk("b", map[PathOf("b", c) := former], map[], {(c, former)});
    FirstObject(d, c, former);
    var d1 := Apply(d, Begin(c, latter));
    var d2 := Apply(d1, Stat(c, true));
    var d3 := Apply(d2, MkdirAll(c, true));
    var tail := BlindTail(d3, c, latter);
    Then(d2, MkdirAll(c, true), tail);
    Then(d1, Stat(c, true), [MkdirAll(c, true)] + tail);
    Then(d, Begin(c, latter), [Stat(c, true)] + ([MkdirAll(c, true)] + tail));
    actions := [Begin(c, latter)] + ([Stat(c, true)] + ([MkdirAll(c, true)] + tail));
  }

  lemma FirstObject(d: Disk, c: string, data: Bytes)
    requires ArtifactKey(c) && d == Disk("b", map[PathOf("b", c) := data], map[], {(c, data)})
    ensures Inv(d)
  {
    forall k | ArtifactKey(k) && View(d, k).Some? ensures (k, View(d, k).value) in d.begun { FilesAreApart("b", k, c); }
  }

  lemma BlindTail(d: Disk, c: string, data: Bytes) returns (tail: seq<Action>)
    requires d.base == "b" && ArtifactKey(c) && d.writers == map[c := Writer(data, DirMade(true))]
    ensures IsRun(d, tail) && View(Exec(d, tail), c) == Some(data) && Delete(c) !in tail
  {
    FilesAreApart("b", c, c);
    var d1 := Apply(d, Create(c, true));
    var d2 := Apply(d1, Write(c, |data|));
    assert data[..|data|] == data;
    var d3 := Apply(d2, CopyEnds(c, true));
    var d4 := Apply(d3, Close(c, true));
    var d5 := Apply(d4, Rename(c, true));
    Then(d4, Rename(c, true), []);
    Then(d3, Close(c, true), [Rename(c, true)] + []);
    Then(d2, CopyEnds(c, true), [Close(c, true)] + ([Rename(c, true)] + []));
    Then(d1, Write(c, |data|), [CopyEnds(c, true)] + ([Close(c, true)] + ([Rename(c, true)] + [])));
    tail := [Create(c, true)] + ([Write(c, |data|)] + ([CopyEnds(c, true)] + ([Close(c, true)] + ([Rename(c, true)] + []))));
    Then(d, Create(c, true), tail[1..]);
    assert [Create(c, true)] + tail[1..] == tail;
  }

  // ---- Which keys packages have --------------------------------------------------------------------

  /** A package's storage key is an artifact key when its file name is no temporary one, only its name holds
      slashes, and no inner segment of the name is empty, "." or "..". */
  lemma PackageKeysAreArtifactKeys(p: Package)
    requires p.ecosystem in {"npm", "pypi", "maven", "go"}
    requires '/' !in p.version && '/' !in p.filename && !HasSuffix(p.filename, ".tmp") && |p.filename| >= 4
    requires forall i :: 1 <= i < |Split(p.name, '/')| - 1 ==> Plain(Split(p.name, '/')[i])
    ensures ArtifactKey(p.CacheKey())
  {
    var key, tail, head := p.CacheKey(), ":" + p.version + ":" + p.filename, p.ecosystem + ":";
    assert key == head + p.name + tail;
    assert '/' !in tail && '/' !in head;
    var parts := Split(p.name, '/');
    var n := |parts|;
    SplitAffixes(head, p.name, tail);
    var mine := Split(key, '/');
    forall i | 0 <= i < |mine| ensures Plain(mine[i]) {
      if i == 0 {
        assert mine[0][..|head|] == head && |head| >= 3;
      } else if i == n - 1 {
        assert |mine[i]| >= |tail| >= 6;
      }
    }
    assert key[..2] == p.ecosystem[..2];
    assert key[|key| - 4..] == p.filename[|p.filename| - 4..];
  }

  lemma SplitAffixes(head: string, name: string, tail: string)
    requires '/' !in head && '/' !in tail
    ensures var parts, mine := Split(name, '/'), Split(head + name + tail, '/');
            && |mine| == |parts|
            && head <= mine[0]
            && |mine[|parts| - 1]| >= |tail|
            && forall i :: 1 <= i < |parts| - 1 ==> mine[i] == parts[i]
  {
    SplitPrefix(head, name);
    SplitSuffix(head + name, tail);
  }

  lemma {:induction false} SplitPrefix(head: string, name: string)
    requires '/' !in head
    ensures Split(head + name, '/') == [head + Split(name, '/')[0]] + Split(name, '/')[1..]
  {
    if head == "" {
      var parts := Split(name, '/');
      assert head + name == name && head + parts[0] == parts[0] && [parts[0]] + parts[1..] == parts;
    } else {
      SplitPrefix(head[1..], name);
      assert (head + name)[1..] == head[1..] + name;
      var rest := Split(head[1..] + name, '/');
      assert [head[0]] + (head[1..] + Split(name, '/')[0]) == head + Split(name, '/')[0];
      assert rest[1..] == Split(name, '/')[1..];
    }
  }
}
