/** The sequential parts of the migration tool (cmd/migrate/main.go): the list of artifacts to copy, and the
    sizes in its report. */
module Migrate {
  import opened Keys
  import opened PackageStore

  // ---- The work list -------------------------------------------------------------------------------

  datatype Entry = Entry(checksum: string, size: int, key: Triple)

  predicate Wanted(r: Row) { r.status.Cached? && r.checksum != "" }

  function EntryOf(r: Row): Entry { Entry(r.checksum, r.size, r.key) }

  /** Row i is wanted, and the first with its checksum. */
  ghost predicate IsFirst(rows: seq<Row>, i: nat) {
    i < |rows| && Wanted(rows[i]) && forall j :: 0 <= j < i && Wanted(rows[j]) ==> rows[j].checksum != rows[i].checksum
  }

  ghost predicate FromFirst(rows: seq<Row>, e: Entry) {
    exists j: nat :: IsFirst(rows, j) && e == EntryOf(rows[j])
  }

  ghost predicate Distinct(work: seq<Entry>) {
    forall i, j :: 0 <= i < j < |work| ==> work[i].checksum != work[j].checksum
  }

  ghost predicate Listed(work: seq<Entry>, checksum: string) {
    exists i :: 0 <= i < |work| && work[i].checksum == checksum
  }

  /** Exactly one entry per distinct non-empty checksum of a cached row, each for its first row. */
  ghost predicate WorkFor(rows: seq<Row>, work: seq<Entry>) {
    && Distinct(work)
    && (forall i :: 0 <= i < |work| ==> FromFirst(rows, work[i]))
    && (forall j :: 0 <= j < |rows| && Wanted(rows[j]) ==> Listed(work, rows[j].checksum))
  }

  /** The deduplication loop: one entry per distinct non-empty checksum of a cached row, for its first row. */
  method Deduplicate(rows: seq<Row>) returns (work: seq<Entry>)
    ensures WorkFor(rows, work)
    ensures forall e :: e in work ==> IsWork(rows, e)
    ensures forall r :: r in rows && r.status == Cached && r.checksum != "" ==> exists e :: e in work && e.checksum == r.checksum
  {
    var seen: set<string> := {};
    work := [];
    for n := 0 to |rows|
      invariant Distinct(work)
      invariant forall i :: 0 <= i < |work| ==> work[i].checksum in seen
      invariant forall c :: c in seen ==> Listed(work, c)
      invariant forall i :: 0 <= i < |work| ==> FromFirst(rows, work[i])
      invariant forall j :: 0 <= j < n && Wanted(rows[j]) ==> rows[j].checksum in seen
      invariant forall c :: c in seen ==> exists j :: 0 <= j < n && Wanted(rows[j]) && rows[j].checksum == c
    {
      var pkg := rows[n];
      if pkg.status != Cached || pkg.checksum == "" {
        continue;
      }
      if pkg.checksum in seen {
        continue;
      }
      assert IsFirst(rows, n) && FromFirst(rows, EntryOf(pkg));
      ghost var before := work;
      seen := seen + {pkg.checksum};
      work := work + [EntryOf(pkg)];
      assert work[|before|].checksum == pkg.checksum && work[..|before|] == before;
      assert forall i :: 0 <= i < |before| ==> work[i] == before[i];
    }
    WorkIsExact(rows, work);
  }

  /** Checksum, size and key of a cached row, and no earlier cached row has this checksum. */
  ghost predicate IsWork(rows: seq<Row>, e: Entry) {
    exists j: nat :: IsWorkOf(rows, e, j)
  }

  ghost predicate IsWorkOf(rows: seq<Row>, e: Entry, j: nat) {
    && j < |rows| && rows[j].status == Cached && rows[j].checksum != ""
    && e.checksum == rows[j].checksum && e.size == rows[j].size && e.key == rows[j].key
    && forall i :: 0 <= i < j && rows[i].status == Cached ==> rows[i].checksum != e.checksum
  }

  lemma WorkIsExact(rows: seq<Row>, work: seq<Entry>)
    requires WorkFor(rows, work)
    ensures forall e :: e in work ==> IsWork(rows, e)
    ensures forall r :: r in rows && r.status == Cached && r.checksum != "" ==> exists e :: e in work && e.checksum == r.checksum
  {
    forall e | e in work ensures IsWork(rows, e) {
      var i :| 0 <= i < |work| && work[i] == e;
      assert FromFirst(rows, e);
      var j: nat :| IsFirst(rows, j) && e == EntryOf(rows[j]);
      assert IsWorkOf(rows, e, j);
    }
    forall r | r in rows && r.status == Cached && r.checksum != "" ensures exists e :: e in work && e.checksum == r.checksum {
      var j :| 0 <= j < |rows| && rows[j] == r;
      assert Listed(work, rows[j].checksum);
      var i :| 0 <= i < |work| && work[i].checksum == r.checksum;
      assert work[i] in work;
    }
  }

  // ---- Sizes in the report -------------------------------------------------------------------------

  /** n * 1024^k */
  function Up(n: int, k: nat): int {
    if k == 0 then n else 1024 * Up(n, k - 1)
  }

  lemma {:induction false} UpMonotone(m: int, n: int, k: nat)
    requires m <= n
    ensures Up(m, k) <= Up(n, k)
  {
    if k > 0 { UpMonotone(m, n, k - 1); }
  }

  lemma {:induction false} UpShifts(q: int, k: nat)
    ensures Up(1024 * q, k) == Up(q, k + 1)
  {
    if k > 0 { UpShifts(q, k - 1); }
  }

  lemma {:induction false} UpGrows(j: nat, k: nat)
    requires j <= k
    ensures 1 <= Up(1, j) <= Up(1, k)
    decreases k
  {
    if k > 0 { UpGrows(if j < k then j else k - 1, k - 1); }
  }

  lemma SevenIsTooMuch()
    ensures Up(1, 7) >= 0x8000_0000_0000_0000
  {
    assert Up(1, 1) == 1024 && Up(1, 2) == 1024 * Up(1, 1) && Up(1, 3) == 1024 * Up(1, 2);
    assert Up(1, 4) == 1024 * Up(1, 3) && Up(1, 5) == 1024 * Up(1, 4) && Up(1, 6) == 1024 * Up(1, 5);
  }

  /** formatBytes up to the printing: below 1024 the plain number, otherwise the divisor 1024^(exp+1) and the
      index exp of its unit in "KMGTPE": the largest unit that is not larger than b, and always one of these. */
  method FormatBytes(b: int) returns (plain: bool, div: int, exp: nat)
    requires b < 0x8000_0000_0000_0000
    ensures plain == (b < 1024)
    ensures !plain ==> div == Up(1, exp + 1) && div <= b < 1024 * div && exp < |"KMGTPE"|
  {
    if b < 1024 {
      return true, 1, 0;
    }
    plain, div, exp := false, 1024, 0;
    var n := b / 1024;
    assert Up(n, 1) == 1024 * Up(n, 0) && Up(n + 1, 1) == 1024 * Up(n + 1, 0);
    assert Up(1, 1) == 1024 * Up(1, 0);
    while n >= 1024
      invariant 1 <= n && div == Up(1, exp + 1)
      invariant Up(n, exp + 1) <= b < Up(n + 1, exp + 1)
    {
      var q := n / 1024;
      UpShifts(q, exp + 1);
      UpShifts(q + 1, exp + 1);
      UpMonotone(1024 * q, n, exp + 1);
      UpMonotone(n + 1, 1024 * (q + 1), exp + 1);
      div := div * 1024;
      exp := exp + 1;
      n := q;
    }
    UpMonotone(1, n, exp + 1);
    UpMonotone(n + 1, 1024, exp + 1);
    UpShifts(1, exp + 1);
    SevenIsTooMuch();
    if exp >= 6 { UpGrows(7, exp + 1); }
  }
}
