/** CVE scanning: severities, the record loop of Scan, and the policy (internal/security). */
module Security {
  import opened Foundation
  import opened Strings

  datatype Severity = Unknown | Low | Medium | High | Critical
  {
    function Level(): (l: int)
      ensures 0 <= l <= 4
    {
      match this
      case Unknown => 0
      case Low => 1
      case Medium => 2
      case High => 3
      case Critical => 4
    }
  }

  /** Severities from the weakest to the strongest, side by side. */
  ghost predicate AtLeast(a: Severity, b: Severity) {
    match b
    case Unknown => true
    case Low => a != Unknown
    case Medium => a == Medium || a == High || a == Critical
    case High => a == High || a == Critical
    case Critical => a == Critical
  }

  lemma LevelsAreOrdered(a: Severity, b: Severity)
    ensures AtLeast(a, b) <==> a.Level() >= b.Level()
    ensures a.Level() == b.Level() <==> a == b
  {
  }

  datatype Outcome = Allow | Warn | Block
  {
    function Strictness(): int {
      match this
      case Allow => 0
      case Warn => 1
      case Block => 2
    }
  }

  datatype Policy = Policy(blockAt: Severity, warnAt: Severity)
  datatype CVERecord = CVERecord(id: string, summary: string, severity: Severity)

  // ---- Severities ----------------------------------------------------------------------------------

  function UpperChar(c: char): char { if 'a' <= c <= 'z' then c - 32 as char else c }

  function ToUpper(s: string): (u: string)
    ensures |u| == |s|
  {
    if s == "" then "" else [UpperChar(s[0])] + ToUpper(s[1..])
  }

  function ParseSeverity(s: string): Severity {
    var u := ToUpper(s);
    if u == "CRITICAL" then Critical
    else if u == "HIGH" then High
    else if u == "MEDIUM" || u == "MODERATE" then Medium
    else if u == "LOW" then Low
    else Unknown
  }

  /** s is this word in any mixture of upper and lower case. */
  ghost predicate Spells(s: string, upper: string, lower: string)
    requires |upper| == |lower|
  {
    |s| == |upper| && forall i :: 0 <= i < |s| ==> s[i] == upper[i] || s[i] == lower[i]
  }

  lemma {:induction false} ToUpperAt(s: string, i: nat)
    requires i < |s|
    ensures ToUpper(s)[i] == UpperChar(s[i])
  {
    if i > 0 { ToUpperAt(s[1..], i - 1); }
  }

  /** word is what ToUpper makes of exactly its spellings. */
  lemma SpelledIff(s: string, upper: string, lower: string)
    requires |upper| == |lower|
    requires forall i :: 0 <= i < |upper| ==> 'A' <= upper[i] <= 'Z' && lower[i] == upper[i] + 32 as char
    ensures ToUpper(s) == upper <==> Spells(s, upper, lower)
  {
    forall i | 0 <= i < |s| ensures ToUpper(s)[i] == UpperChar(s[i]) { ToUpperAt(s, i); }
    if Spells(s, upper, lower) {
      forall i | 0 <= i < |s| ensures ToUpper(s)[i] == upper[i] {
        assert s[i] == upper[i] || s[i] == lower[i];
      }
    }
    if ToUpper(s) == upper {
      forall i | 0 <= i < |s| ensures s[i] == upper[i] || s[i] == lower[i] {
        assert UpperChar(s[i]) == upper[i];
      }
    }
  }

  /** Which words are severities, in any case. */
  lemma SeverityIsSpelled(s: string)
    ensures ParseSeverity(s) == Critical <==> Spells(s, "CRITICAL", "critical")
    ensures ParseSeverity(s) == High <==> Spells(s, "HIGH", "high")
    ensures ParseSeverity(s) == Medium <==> Spells(s, "MEDIUM", "medium") || Spells(s, "MODERATE", "moderate")
    ensures ParseSeverity(s) == Low <==> Spells(s, "LOW", "low")
  {
    SpelledIff(s, "CRITICAL", "critical");
    SpelledIff(s, "HIGH", "high");
    SpelledIff(s, "MEDIUM", "medium");
    SpelledIff(s, "MODERATE", "moderate");
    SpelledIff(s, "LOW", "low");
  }

  const HIGH_IMPACTS: set<string> := {"C:H", "I:H", "A:H"}
  const LOW_IMPACTS: set<string> := {"C:L", "I:L", "A:L"}

  function CountIn(parts: seq<string>, impacts: set<string>): nat {
    if parts == [] then 0
    else CountIn(parts[..|parts| - 1], impacts) + (if parts[|parts| - 1] in impacts then 1 else 0)
  }

  function SeverityOfCounts(high: nat, low: nat): Severity {
    if high >= 2 then Critical else if high == 1 then High else if low > 0 then Medium else Low
  }

  function VectorSeverity(vector: string): Severity {
    var parts := Split(vector, '/');
    SeverityOfCounts(CountIn(parts, HIGH_IMPACTS), CountIn(parts, LOW_IMPACTS))
  }

  lemma {:induction false} CountInIsMultiset(parts: seq<string>, x: string, y: string, z: string)
    requires x != y && y != z && z != x
    ensures CountIn(parts, {x, y, z}) == multiset(parts)[x] + multiset(parts)[y] + multiset(parts)[z]
  {
    if parts != [] {
      var front, last := parts[..|parts| - 1], parts[|parts| - 1];
      assert parts == front + [last];
      CountInIsMultiset(front, x, y, z);
    }
  }

  /** How many of the parts of a vector are these three. */
  ghost function Impacts(vector: string, x: string, y: string, z: string): nat {
    var parts := multiset(Split(vector, '/'));
    parts[x] + parts[y] + parts[z]
  }

  lemma VectorIsExact(vector: string)
    ensures var high, low := Impacts(vector, "C:H", "I:H", "A:H"), Impacts(vector, "C:L", "I:L", "A:L");
            && (VectorSeverity(vector) == Critical <==> high >= 2)
            && (VectorSeverity(vector) == High <==> high == 1)
            && (VectorSeverity(vector) == Medium <==> high == 0 && low > 0)
            && (VectorSeverity(vector) == Low <==> high == 0 && low == 0)
  {
    CountInIsMultiset(Split(vector, '/'), "C:H", "I:H", "A:H");
    CountInIsMultiset(Split(vector, '/'), "C:L", "I:L", "A:L");
  }

  /** severityFromCVSSVector: two high impacts are critical, one is high, low ones are medium, none is low. */
  method SeverityFromCVSSVector(vector: string) returns (sev: Severity)
    ensures sev == VectorSeverity(vector)
    ensures var high, low := Impacts(vector, "C:H", "I:H", "A:H"), Impacts(vector, "C:L", "I:L", "A:L");
            sev == if high >= 2 then Critical else if high == 1 then High else if low > 0 then Medium else Low
  {
    VectorIsExact(vector);
    var parts := Split(vector, '/');
    var high, low := 0, 0;
    for i := 0 to |parts|
      invariant high == CountIn(parts[..i], HIGH_IMPACTS) && low == CountIn(parts[..i], LOW_IMPACTS)
    {
      assert parts[..i + 1][..i] == parts[..i];
      if parts[i] in {"C:H", "I:H", "A:H"} {
        high := high + 1;
      } else if parts[i] in {"C:L", "I:L", "A:L"} {
        low := low + 1;
      }
    }
    assert parts[..|parts|] == parts;
    sev := if high >= 2 then Critical else if high == 1 then High else if low > 0 then Medium else Low;
  }

  lemma {:induction false} CountInConcat(a: seq<string>, b: seq<string>, impacts: set<string>)
    ensures CountIn(a + b, impacts) == CountIn(a, impacts) + CountIn(b, impacts)
  {
    if b == [] {
      assert a + b == a;
    } else {
      assert (a + b)[..|a + b| - 1] == a + b[..|b| - 1];
      CountInConcat(a, b[..|b| - 1], impacts);
    }
  }

  lemma CountInSingle(x: string, impacts: set<string>)
    ensures CountIn([x], impacts) == if x in impacts then 1 else 0
  {
    assert [x][..0] == [];
  }

  /** Counting is by multiset: more components never count less. */
  lemma {:induction false} CountInMonotone(a: seq<string>, b: seq<string>, impacts: set<string>)
    requires multiset(a) <= multiset(b)
    ensures CountIn(a, impacts) <= CountIn(b, impacts)
  {
    if a != [] {
      var front, x := a[..|a| - 1], a[|a| - 1];
      assert a == front + [x];
      assert multiset(a)[x] > 0;
      assert x in b;
      var i :| 0 <= i < |b| && b[i] == x;
      var rest := b[..i] + b[i + 1..];
      assert b == b[..i] + [x] + b[i + 1..];
      assert multiset(a) == multiset(front) + multiset{x} && multiset(b) == multiset(rest) + multiset{x};
      assert multiset(front) <= multiset(rest) by {
        assert forall y :: multiset(front)[y] + multiset{x}[y] == multiset(a)[y] <= multiset(b)[y] == multiset(rest)[y] + multiset{x}[y];
      }
      CountInMonotone(front, rest, impacts);
      CountInConcat(b[..i], b[i + 1..], impacts);
      CountInConcat(b[..i], [x], impacts);
      CountInConcat(b[..i] + [x], b[i + 1..], impacts);
      CountInSingle(x, impacts);
    }
  }

  /** The order of the components of a vector is irrelevant, and further components never lower the level. */
  lemma VectorOrderAndGrowth(u: string, v: string)
    requires multiset(Split(u, '/')) <= multiset(Split(v, '/'))
    ensures VectorSeverity(u).Level() <= VectorSeverity(v).Level()
    ensures multiset(Split(u, '/')) == multiset(Split(v, '/')) ==> VectorSeverity(u) == VectorSeverity(v)
  {
    var a, b := Split(u, '/'), Split(v, '/');
    CountInMonotone(a, b, HIGH_IMPACTS);
    CountInMonotone(a, b, LOW_IMPACTS);
    if multiset(a) == multiset(b) {
      CountInMonotone(b, a, HIGH_IMPACTS);
      CountInMonotone(b, a, LOW_IMPACTS);
    }
  }

  // ---- The record loop of Scan ---------------------------------------------------------------------

  /** A vulnerability of the OSV answer: dbSeverity is the string under database_specific.severity, if
      there is one, and scores are the (type, score) pairs under severity. */
  datatype Vuln = Vuln(id: string, summary: string, hasDbSeverity: bool, dbSeverity: string, scores: seq<(string, string)>)

  /** The first CVSS score decides. */
  function ScoresSeverity(scores: seq<(string, string)>): Severity {
    if scores == [] then Unknown
    else if HasPrefix(scores[0].0, "CVSS") then VectorSeverity(scores[0].1)
    else ScoresSeverity(scores[1..])
  }

  function VulnSeverity(v: Vuln): Severity {
    if v.hasDbSeverity then ParseSeverity(v.dbSeverity) else ScoresSeverity(v.scores)
  }

  /** What the loop skips: an explicit NONE, and Go database entries without a severity. */
  predicate Skipped(v: Vuln) {
    || (v.hasDbSeverity && ToUpper(v.dbSeverity) == "NONE")
    || (VulnSeverity(v) == Unknown && HasPrefix(v.id, "GO-"))
  }

  function RecordOf(v: Vuln): CVERecord { CVERecord(v.id, v.summary, VulnSeverity(v)) }

  /** The severity of a vulnerability: the one of its database, or else of its first CVSS score, or none. */
  ghost predicate HasSeverity(v: Vuln, sev: Severity) {
    if v.hasDbSeverity then
      && (sev == Critical <==> Spells(v.dbSeverity, "CRITICAL", "critical"))
      && (sev == High <==> Spells(v.dbSeverity, "HIGH", "high"))
      && (sev == Medium <==> Spells(v.dbSeverity, "MEDIUM", "medium") || Spells(v.dbSeverity, "MODERATE", "moderate"))
      && (sev == Low <==> Spells(v.dbSeverity, "LOW", "low"))
    else
      || (sev == Unknown && forall i :: 0 <= i < |v.scores| ==> !HasPrefix(v.scores[i].0, "CVSS"))
      || exists i :: IsFirstCvss(v.scores, i) && sev == VectorSeverity(v.scores[i].1)
  }

  ghost predicate IsFirstCvss(scores: seq<(string, string)>, i: int) {
    0 <= i < |scores| && HasPrefix(scores[i].0, "CVSS") && forall j :: 0 <= j < i ==> !HasPrefix(scores[j].0, "CVSS")
  }

  lemma {:induction false} FirstCvssDecides(scores: seq<(string, string)>, i: nat)
    requires IsFirstCvss(scores, i)
    ensures ScoresSeverity(scores) == VectorSeverity(scores[i].1)
  {
    if i > 0 {
      assert !HasPrefix(scores[0].0, "CVSS");
      FirstCvssDecides(scores[1..], i - 1);
    }
  }

  lemma {:induction false} NoCvssIsUnknown(scores: seq<(string, string)>)
    ensures (ScoresSeverity(scores) == Unknown && forall i :: 0 <= i < |scores| ==> !HasPrefix(scores[i].0, "CVSS"))
            || exists i :: IsFirstCvss(scores, i)
  {
    if scores != [] {
      if HasPrefix(scores[0].0, "CVSS") {
        assert IsFirstCvss(scores, 0);
      } else {
        NoCvssIsUnknown(scores[1..]);
        if i :| IsFirstCvss(scores[1..], i) {
          assert IsFirstCvss(scores, i + 1);
        } else {
          forall i | 0 <= i < |scores| ensures !HasPrefix(scores[i].0, "CVSS") {
            if i > 0 { assert !HasPrefix(scores[1..][i - 1].0, "CVSS"); }
          }
        }
      }
    }
  }

  lemma SeverityIsExact(v: Vuln)
    ensures HasSeverity(v, VulnSeverity(v))
  {
    if v.hasDbSeverity {
      SeverityIsSpelled(v.dbSeverity);
    } else {
      NoCvssIsUnknown(v.scores);
      if i :| IsFirstCvss(v.scores, i) { FirstCvssDecides(v.scores, i); }
    }
  }

  /** The loop of Scan goes vulnerability by vulnerability. One that says NONE is left out, and so is an entry
      of the Go database without a severity; of any other the record has its id, its summary and its severity. */
  lemma RecordsAreExact(before: seq<Vuln>, v: Vuln)
    ensures var dropped := (v.hasDbSeverity && Spells(v.dbSeverity, "NONE", "none")) || (VulnSeverity(v) == Unknown && "GO-" <= v.id);
            Filtered(before + [v]) == Filtered(before) + (if dropped then [] else [CVERecord(v.id, v.summary, VulnSeverity(v))])
    ensures HasSeverity(v, VulnSeverity(v)) && Filtered([]) == []
  {
    assert (before + [v])[..|before + [v]| - 1] == before;
    SpelledIff(v.dbSeverity, "NONE", "none");
    SeverityIsExact(v);
  }

  /** Every vulnerability as a record, none skipped. */
  function AllRecords(vulns: seq<Vuln>): (rs: seq<CVERecord>)
    ensures |rs| == |vulns|
  {
    if vulns == [] then [] else AllRecords(vulns[..|vulns| - 1]) + [RecordOf(vulns[|vulns| - 1])]
  }

  function Filtered(vulns: seq<Vuln>): seq<CVERecord> {
    if vulns == [] then []
    else
      Filtered(vulns[..|vulns| - 1])
      + (if Skipped(vulns[|vulns| - 1]) then [] else [RecordOf(vulns[|vulns| - 1])])
  }

  /** The loop of Scan over a decoded answer. */
  method BuildRecords(vulns: seq<Vuln>) returns (records: seq<CVERecord>)
    ensures records == Filtered(vulns)
  {
    records := [];
    for i := 0 to |vulns|
      invariant records == Filtered(vulns[..i])
    {
      assert vulns[..i + 1][..i] == vulns[..i];
      var v := vulns[i];
      var sev := Unknown;
      if v.hasDbSeverity {
        if ToUpper(v.dbSeverity) == "NONE" {
          continue;
        }
        sev := ParseSeverity(v.dbSeverity);
      } else {
        var j := 0;
        while j < |v.scores|
          invariant 0 <= j <= |v.scores|
          invariant sev == Unknown && ScoresSeverity(v.scores) == ScoresSeverity(v.scores[j..])
        {
          if HasPrefix(v.scores[j].0, "CVSS") {
            sev := SeverityFromCVSSVector(v.scores[j].1);
            break;
          }
          j := j + 1;
        }
      }
      if sev == Unknown && HasPrefix(v.id, "GO-") {
        continue;
      }
      records := records + [CVERecord(v.id, v.summary, sev)];
    }
    assert vulns[..|vulns|] == vulns;
  }

  // ---- The policy ----------------------------------------------------------------------------------

  function Threshold(p: Policy, level: int): Outcome {
    if p.blockAt.Level() > 0 && level >= p.blockAt.Level() then Block
    else if p.warnAt.Level() > 0 && level >= p.warnAt.Level() then Warn
    else Allow
  }

  function MaxLevel(records: seq<CVERecord>): (m: int)
    ensures 0 <= m <= 4
  {
    if records == [] then 0
    else
      var m, l := MaxLevel(records[..|records| - 1]), records[|records| - 1].severity.Level();
      if l > m then l else m
  }

  /** Evaluate */
  function Decision(p: Policy, records: seq<CVERecord>): Outcome {
    if records == [] then Allow else Threshold(p, MaxLevel(records))
  }

  /** Some record is at least this severe, and there is a threshold. */
  ghost predicate Reaches(records: seq<CVERecord>, at: Severity) {
    at != Unknown && exists r :: r in records && AtLeast(r.severity, at)
  }

  lemma DecisionIsExact(p: Policy, records: seq<CVERecord>)
    ensures Decision(p, records) == if Reaches(records, p.blockAt) then Block else if Reaches(records, p.warnAt) then Warn else Allow
  {
    LevelReached(records, p.blockAt);
    LevelReached(records, p.warnAt);
  }

  lemma LevelReached(records: seq<CVERecord>, at: Severity)
    ensures Reaches(records, at) <==> at.Level() > 0 && records != [] && MaxLevel(records) >= at.Level()
  {
    MaxLevelIsAttained(records);
    forall r | r in records ensures AtLeast(r.severity, at) <==> r.severity.Level() >= at.Level() {
      LevelsAreOrdered(r.severity, at);
    }
  }

  /** Blocks if and only if some record is at least as severe as blockAt, else warns if and only if some record
      is at least as severe as warnAt; a threshold that is no severity is none. */
  method Evaluate(p: Policy, records: seq<CVERecord>) returns (o: Outcome)
    ensures o == Decision(p, records)
    ensures o == Block <==> p.blockAt != Unknown && exists r :: r in records && AtLeast(r.severity, p.blockAt)
    ensures o == Warn <==> o != Block && p.warnAt != Unknown && exists r :: r in records && AtLeast(r.severity, p.warnAt)
  {
    DecisionIsExact(p, records);
    if |records| == 0 {
      return Allow;
    }
    var max := Unknown;
    for i := 0 to |records|
      invariant max.Level() == MaxLevel(records[..i])
    {
      assert records[..i + 1][..i] == records[..i];
      if records[i].severity.Level() > max.Level() {
        max := records[i].severity;
      }
    }
    assert records[..|records|] == records;
    if p.blockAt.Level() > Unknown.Level() && max.Level() >= p.blockAt.Level() {
      return Block;
    }
    if p.warnAt.Level() > Unknown.Level() && max.Level() >= p.warnAt.Level() {
      return Warn;
    }
    return Allow;
  }

  lemma {:induction false} MaxLevelIsAttained(records: seq<CVERecord>)
    ensures forall r :: r in records ==> r.severity.Level() <= MaxLevel(records)
    ensures MaxLevel(records) == 0 || exists r :: r in records && r.severity.Level() == MaxLevel(records)
  {
    if records != [] {
      var last := records[|records| - 1];
      MaxLevelIsAttained(records[..|records| - 1]);
      assert forall r :: r in records <==> r in records[..|records| - 1] || r == last;
    }
  }

  lemma ThresholdMonotone(p: Policy, l: int, m: int)
    requires l <= m
    ensures Threshold(p, l).Strictness() <= Threshold(p, m).Strictness()
  {
  }

  /** The decision is the strictest outcome that any single record triggers. */
  lemma DecisionIsStrictest(p: Policy, records: seq<CVERecord>)
    ensures forall r :: r in records ==> Decision(p, [r]).Strictness() <= Decision(p, records).Strictness()
    ensures Decision(p, records) == Allow || exists r :: r in records && Decision(p, [r]) == Decision(p, records)
  {
    MaxLevelIsAttained(records);
    forall r | r in records
      ensures Decision(p, [r]).Strictness() <= Decision(p, records).Strictness()
      ensures Decision(p, [r]) == Threshold(p, r.severity.Level())
    {
      SingleDecision(p, r);
      ThresholdMonotone(p, r.severity.Level(), MaxLevel(records));
    }
  }

  lemma SingleDecision(p: Policy, r: CVERecord)
    ensures Decision(p, [r]) == Threshold(p, r.severity.Level())
  {
    assert [r][..|[r]| - 1] == [];
    assert MaxLevel([r]) == r.severity.Level();
  }

  /** Only the set of records matters, and more records never lower the outcome. */
  lemma DecisionMonotone(p: Policy, a: seq<CVERecord>, b: seq<CVERecord>)
    requires forall r :: r in a ==> r in b
    ensures Decision(p, a).Strictness() <= Decision(p, b).Strictness()
    ensures (forall r :: r in b ==> r in a) ==> Decision(p, a) == Decision(p, b)
  {
    DecisionIsStrictest(p, a);
    DecisionIsStrictest(p, b);
  }

  lemma NoneIsUnknown(v: Vuln)
    requires Skipped(v)
    ensures RecordOf(v).severity == Unknown
  {
  }

  lemma {:induction false} FilteredMaxLevel(vulns: seq<Vuln>)
    ensures MaxLevel(Filtered(vulns)) == MaxLevel(AllRecords(vulns))
    ensures |Filtered(vulns)| <= |vulns|
  {
    if vulns != [] {
      var front, last := vulns[..|vulns| - 1], vulns[|vulns| - 1];
      FilteredMaxLevel(front);
      assert (AllRecords(front) + [RecordOf(last)])[..|front|] == AllRecords(front);
      if Skipped(last) {
        NoneIsUnknown(last);
        assert Filtered(vulns) == Filtered(front);
      } else {
        assert (Filtered(front) + [RecordOf(last)])[..|Filtered(front)|] == Filtered(front);
      }
    }
  }

  /** Dropping the skipped vulnerabilities never changes what the policy decides. */
  lemma FilteringPreservesDecision(p: Policy, vulns: seq<Vuln>)
    ensures Decision(p, Filtered(vulns)) == Decision(p, AllRecords(vulns))
  {
    FilteredMaxLevel(vulns);
  }

  // ---- Scanning and deciding -----------------------------------------------------------------------

  /** Some vulnerability is at least this severe, and there is a threshold. */
  ghost predicate Affects(vulns: seq<Vuln>, at: Severity) {
    at != Unknown && exists v :: v in vulns && AtLeast(VulnSeverity(v), at)
  }

  lemma {:induction false} FilteredReaches(vulns: seq<Vuln>, at: Severity)
    ensures Reaches(Filtered(vulns), at) <==> Affects(vulns, at)
  {
    if vulns != [] {
      var front, last := vulns[..|vulns| - 1], vulns[|vulns| - 1];
      FilteredReaches(front, at);
      assert forall v :: v in vulns <==> v in front || v == last;
      if Skipped(last) {
        NoneIsUnknown(last);
        assert Filtered(vulns) == Filtered(front);
      } else {
        assert forall r :: r in Filtered(vulns) <==> r in Filtered(front) || r == RecordOf(last);
      }
    }
  }

  /** Check: no answer of the scanner, or a checker that is switched off, allows the package. Otherwise the
      package is blocked if and only if one of its vulnerabilities, skipped or not, is at least as severe as the
      configured word for blocking, and else warned about likewise. */
  method Check(enabled: bool, blockSeverity: string, warnSeverity: string, scanned: Option<seq<Vuln>>)
    returns (o: Outcome, records: seq<CVERecord>, failed: bool)
    ensures !enabled || scanned.None? ==> o == Allow && records == []
    ensures failed == (enabled && scanned.None?)
    ensures enabled && scanned.Some? ==>
              && records == Filtered(scanned.value)
              && (o == Block <==> Affects(scanned.value, ParseSeverity(blockSeverity)))
              && (o == Warn <==> o != Block && Affects(scanned.value, ParseSeverity(warnSeverity)))
  {
    if !enabled {
      return Allow, [], false;
    }
    if scanned.None? {
      return Allow, [], true;
    }
    records := BuildRecords(scanned.value);
    o := Evaluate(Policy(ParseSeverity(blockSeverity), ParseSeverity(warnSeverity)), records);
    failed := false;
    FilteredReaches(scanned.value, ParseSeverity(blockSeverity));
    FilteredReaches(scanned.value, ParseSeverity(warnSeverity));
  }
}
