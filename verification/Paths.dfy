/** Where the local backend keeps a key: filepath.Join(BaseDir, key[:2], key) (internal/storage/local.go).
    Join cleans its result, so distinct keys have distinct files only when they are free of ".", ".." and
    empty path segments. */
module Paths {
  import opened Strings

  /** One more segment behind cleaned ones. */
  function Push(rooted: bool, front: seq<string>, last: string): seq<string> {
    if last == "" || last == "." then front
    else if last == ".." then
      if front != [] && front[|front| - 1] != ".." then front[..|front| - 1]
      else if rooted then front
      else front + [last]
    else front + [last]
  }

  /** The elimination of "", "." and ".." that filepath.Clean performs on the segments of a path. */
  function CleanSegments(rooted: bool, segments: seq<string>): seq<string> {
    if segments == [] then []
    else Push(rooted, CleanSegments(rooted, segments[..|segments| - 1]), segments[|segments| - 1])
  }

  predicate Rooted(path: string) { HasPrefix(path, "/") }

  function Render(rooted: bool, segments: seq<string>): string {
    (if rooted then "/" else "") + (if segments == [] then (if rooted then "" else ".") else Join(segments, '/'))
  }

  /** filepath.Clean */
  function Clean(path: string): string {
    Render(Rooted(path), CleanSegments(Rooted(path), Split(path, '/')))
  }

  /** path(checksum), for a non-empty BaseDir */
  function PathOf(base: string, key: string): string
    requires base != ""
  {
    if |key| < 2 then Clean(if key == "" then base else base + ['/'] + key)
    else Clean(base + ['/'] + (key[..2] + ['/'] + key))
  }

  function TmpOf(base: string, key: string): string
    requires base != ""
  {
    PathOf(base, key) + ".tmp"
  }

  predicate Plain(segment: string) { segment != "" && segment != "." && segment != ".." }

  /** A key that Clean leaves as it is. */
  predicate Canonical(key: string) {
    && |key| >= 2
    && '/' !in key[..2] && key[..2] != ".."
    && forall i :: 0 <= i < |Split(key, '/')| ==> Plain(Split(key, '/')[i])
  }

  lemma {:induction false} CleanAppends(rooted: bool, a: seq<string>, b: seq<string>)
    requires forall i :: 0 <= i < |b| ==> Plain(b[i])
    ensures CleanSegments(rooted, a + b) == CleanSegments(rooted, a) + b
  {
    if b == [] {
      assert a + b == a;
    } else {
      assert (a + b)[..|a + b| - 1] == a + b[..|b| - 1];
      CleanAppends(rooted, a, b[..|b| - 1]);
      assert b[..|b| - 1] + [b[|b| - 1]] == b;
    }
  }

  lemma {:induction false} CleanIsFree(rooted: bool, segments: seq<string>)
    requires forall i :: 0 <= i < |segments| ==> '/' !in segments[i]
    ensures forall i :: 0 <= i < |CleanSegments(rooted, segments)| ==> '/' !in CleanSegments(rooted, segments)[i]
  {
    if segments != [] { CleanIsFree(rooted, segments[..|segments| - 1]); }
  }

  /** The segments of a canonical key's path: the cleaned base, the first two characters, the key's own. */
  ghost function Segments(base: string, key: string): (segments: seq<string>)
    requires |key| >= 2
    ensures |segments| >= 2
  {
    CleanSegments(Rooted(base), Split(base, '/')) + [key[..2]] + Split(key, '/')
  }

  lemma SegmentsAreFree(base: string, key: string)
    requires Canonical(key)
    ensures forall i :: 0 <= i < |Segments(base, key)| ==> '/' !in Segments(base, key)[i]
  {
    CleanIsFree(Rooted(base), Split(base, '/'));
  }

  lemma CanonicalPath(base: string, key: string)
    requires base != "" && Canonical(key)
    ensures PathOf(base, key) == Render(Rooted(base), Segments(base, key))
  {
    var tail := key[..2] + ['/'] + key;
    var whole := base + ['/'] + tail;
    SplitConcat(base, tail, '/');
    SplitConcat(key[..2], key, '/');
    SplitFree(key[..2], '/');
    var own := [key[..2]] + Split(key, '/');
    assert Split(whole, '/') == Split(base, '/') + own;
    assert whole[0] == base[0];
    assert Rooted(whole) == Rooted(base);
    CleanAppends(Rooted(base), Split(base, '/'), own);
    assert CleanSegments(Rooted(base), Split(base, '/')) + own == Segments(base, key);
  }

  lemma RenderInjective(rooted: bool, a: seq<string>, b: seq<string>)
    requires a != [] && b != []
    requires forall i :: 0 <= i < |a| ==> '/' !in a[i]
    requires forall i :: 0 <= i < |b| ==> '/' !in b[i]
    requires Render(rooted, a) == Render(rooted, b)
    ensures a == b
  {
    if rooted {
      assert Render(rooted, a)[1..] == Join(a, '/') && Render(rooted, b)[1..] == Join(b, '/');
    } else {
      assert Render(rooted, a) == Join(a, '/') && Render(rooted, b) == Join(b, '/');
    }
    SplitJoin(a, '/');
    SplitJoin(b, '/');
  }

  lemma SegmentsInjective(base: string, c: string, d: string)
    requires |c| >= 2 && |d| >= 2 && Segments(base, c) == Segments(base, d)
    ensures c == d
  {
    var front := CleanSegments(Rooted(base), Split(base, '/'));
    assert Segments(base, c)[|front| + 1..] == Split(c, '/');
    assert Segments(base, d)[|front| + 1..] == Split(d, '/');
    JoinSplit(c, '/');
    JoinSplit(d, '/');
  }

  lemma {:induction false} JoinAppends(rooted: bool, front: seq<string>, a: string, rest: seq<string>)
    requires front != [] && rest != []
    ensures Render(rooted, front + [a] + rest) == Render(rooted, front) + "/" + a + "/" + Join(rest, '/')
  {
    JoinConcat(front + [a], rest, '/');
    JoinConcat(front, [a], '/');
    var root := if rooted then "/" else "";
    assert Join([a], '/') == a;
    assert Join(front + [a] + rest, '/') == Join(front, '/') + ['/'] + a + ['/'] + Join(rest, '/');
    assert root + (Join(front, '/') + ['/'] + a + ['/'] + Join(rest, '/')) == root + Join(front, '/') + "/" + a + "/" + Join(rest, '/');
  }

  /** In a clean directory that is neither the root nor the working directory, a canonical key lives in the
      directory named after its first two characters. */
  lemma PathIsSharded(base: string, key: string)
    requires base != "" && base != "/" && base != "." && Clean(base) == base && Canonical(key)
    ensures PathOf(base, key) == base + "/" + key[..2] + "/" + key
    ensures TmpOf(base, key) == base + "/" + key[..2] + "/" + key + ".tmp"
  {
    CanonicalPath(base, key);
    var front := CleanSegments(Rooted(base), Split(base, '/'));
    JoinAppends(Rooted(base), front, key[..2], Split(key, '/'));
    JoinSplit(key, '/');
  }

  /** Distinct canonical keys live in distinct files. */
  lemma PathInjective(base: string, c: string, d: string)
    requires base != "" && Canonical(c) && Canonical(d)
    requires PathOf(base, c) == PathOf(base, d)
    ensures c == d
  {
    CanonicalPath(base, c);
    CanonicalPath(base, d);
    SegmentsAreFree(base, c);
    SegmentsAreFree(base, d);
    RenderInjective(Rooted(base), Segments(base, c), Segments(base, d));
    SegmentsInjective(base, c, d);
  }

  lemma LastSegment(key: string, front: seq<string>, last: string)
    requires Split(key, '/') == front + [last] && front != []
    ensures key == Join(front, '/') + ['/'] + last && Split(Join(front, '/'), '/') == front
  {
    JoinSplit(key, '/');
    JoinConcat(front, [last], '/');
    forall i | 0 <= i < |front| ensures '/' !in front[i] { assert front[i] == Split(key, '/')[i]; }
    SplitJoin(front, '/');
  }

  lemma Lengthens(f: string, front: seq<string>, last: string, t: string)
    requires Split(f, '/') == front && '/' !in last && '/' !in t
    ensures Split(f + ['/'] + last + t, '/') == front + [last + t]
  {
    assert f + ['/'] + last + t == f + ['/'] + (last + t);
    SplitConcat(f, last + t, '/');
    SplitFree(last + t, '/');
  }

  /** Text without a '/' behind a key lengthens its last segment. */
  lemma SplitSuffix(key: string, t: string)
    requires '/' !in t
    ensures var parts := Split(key, '/'); var last := |parts| - 1;
            Split(key + t, '/') == parts[..last] + [parts[last] + t]
  {
    var parts := Split(key, '/');
    var front, last := parts[..|parts| - 1], parts[|parts| - 1];
    assert parts == front + [last];
    if front == [] {
      JoinSplit(key, '/');
      SplitFree(key + t, '/');
    } else {
      LastSegment(key, front, last);
      Lengthens(Join(front, '/'), front, last, t);
    }
  }

  lemma {:induction false} JoinSuffix(parts: seq<string>, t: string)
    requires |parts| >= 1
    ensures var last := |parts| - 1;
            Join(parts[..last] + [parts[last] + t], '/') == Join(parts, '/') + t
  {
    var last := |parts| - 1;
    var q := parts[..last] + [parts[last] + t];
    if |parts| > 1 {
      JoinSuffix(parts[1..], t);
      assert q[1..] == parts[1..][..last - 1] + [parts[last] + t];
    }
  }

  lemma TmpIsCanonical(c: string)
    requires Canonical(c)
    ensures Canonical(c + ".tmp")
    ensures var parts := Split(c, '/'); var last := |parts| - 1;
            Split(c + ".tmp", '/') == parts[..last] + [parts[last] + ".tmp"]
  {
    var t, parts := c + ".tmp", Split(c, '/');
    SplitSuffix(c, ".tmp");
    assert t[..2] == c[..2];
    assert Plain(parts[|parts| - 1] + ".tmp") by { assert |parts[|parts| - 1] + ".tmp"| > 4; }
    assert forall i :: 0 <= i < |parts| - 1 ==> Split(t, '/')[i] == parts[i];
  }

  /** The temporary file of a key has the path that the key with ".tmp" appended would have. */
  lemma TmpIsPathOfTmp(base: string, c: string)
    requires base != "" && Canonical(c)
    ensures Canonical(c + ".tmp") && TmpOf(base, c) == PathOf(base, c + ".tmp")
  {
    TmpIsCanonical(c);
    CanonicalPath(base, c);
    CanonicalPath(base, c + ".tmp");
    TmpSegments(base, c);
    RenderSuffix(Rooted(base), Segments(base, c), ".tmp");
  }

  lemma RenderSuffix(rooted: bool, s: seq<string>, t: string)
    requires s != []
    ensures var last := |s| - 1; Render(rooted, s[..last] + [s[last] + t]) == Render(rooted, s) + t
  {
    JoinSuffix(s, t);
    var root := if rooted then "/" else "";
    assert root + (Join(s, '/') + t) == root + Join(s, '/') + t;
  }

  lemma TmpSegments(base: string, c: string)
    requires Canonical(c)
    ensures var s := Segments(base, c); var last := |s| - 1;
            |c + ".tmp"| >= 2 && Segments(base, c + ".tmp") == s[..last] + [s[last] + ".tmp"]
  {
    TmpIsCanonical(c);
    var front := CleanSegments(Rooted(base), Split(base, '/')) + [c[..2]];
    var parts := Split(c, '/');
    var last := |parts| - 1;
    assert (c + ".tmp")[..2] == c[..2];
    assert (front + parts)[..|front| + last] == front + parts[..last];
    assert front + (parts[..last] + [parts[last] + ".tmp"]) == front + parts[..last] + [parts[last] + ".tmp"];
  }

  /** A temporary file is mistaken for an artifact exactly when the artifact's key is the other's with
      ".tmp" appended. */
  lemma TmpCollidesIff(base: string, c: string, d: string)
    requires base != "" && Canonical(c) && Canonical(d)
    ensures TmpOf(base, c) == PathOf(base, d) <==> d == c + ".tmp"
  {
    TmpIsPathOfTmp(base, c);
    if TmpOf(base, c) == PathOf(base, d) { PathInjective(base, c + ".tmp", d); }
  }

  /** The storage keys of artifacts: they end in their file name, which never ends in ".tmp". */
  predicate ArtifactKey(key: string) { Canonical(key) && !HasSuffix(key, ".tmp") }

  /** For artifact keys, files and temporary files never meet. */
  lemma FilesAreApart(base: string, c: string, d: string)
    requires base != "" && ArtifactKey(c) && ArtifactKey(d)
    ensures TmpOf(base, c) != PathOf(base, d)
    ensures PathOf(base, c) == PathOf(base, d) <==> c == d
    ensures TmpOf(base, c) == TmpOf(base, d) <==> c == d
  {
    TmpCollidesIff(base, c, d);
    assert HasSuffix(c + ".tmp", ".tmp");
    if PathOf(base, c) == PathOf(base, d) { PathInjective(base, c, d); }
    if TmpOf(base, c) == TmpOf(base, d) {
      assert PathOf(base, c) == TmpOf(base, c)[..|PathOf(base, c)|];
      assert |PathOf(base, c)| == |PathOf(base, d)|;
      PathInjective(base, c, d);
    }
  }

  lemma CleanStep(rooted: bool, front: seq<string>, last: string)
    ensures CleanSegments(rooted, front + [last]) == Push(rooted, CleanSegments(rooted, front), last)
  {
    assert (front + [last])[..|front + [last]| - 1] == front;
  }

  lemma CleanLast(rooted: bool, a: seq<string>, b: seq<string>, front: seq<string>, last: string)
    requires b == front + [last]
    ensures CleanSegments(rooted, a + b) == Push(rooted, CleanSegments(rooted, a + front), last)
  {
    assert a + b == (a + front) + [last];
    CleanStep(rooted, a + front, last);
  }

  /** What follows is cleaned alike behind two beginnings that are cleaned to the same. */
  lemma {:induction false} CleanContinues(rooted: bool, a: seq<string>, a': seq<string>, b: seq<string>)
    requires CleanSegments(rooted, a) == CleanSegments(rooted, a')
    ensures CleanSegments(rooted, a + b) == CleanSegments(rooted, a' + b)
  {
    if b == [] {
      assert a + b == a && a' + b == a';
    } else {
      var front, last := b[..|b| - 1], b[|b| - 1];
      CleanContinues(rooted, a, a', front);
      CleanLast(rooted, a, b, front, last);
      CleanLast(rooted, a', b, front, last);
    }
  }

  lemma CleanSkipsDot(rooted: bool, a: seq<string>, b: seq<string>)
    ensures CleanSegments(rooted, a + ["."] + b) == CleanSegments(rooted, a + b)
  {
    CleanStep(rooted, a, ".");
    CleanContinues(rooted, a + ["."], a, b);
  }

  /** A ".." takes the segment before it away, except above the root, and an empty segment goes like a ".". */
  lemma CleanUndoes(rooted: bool, a: seq<string>, x: string, b: seq<string>)
    requires Plain(x)
    ensures CleanSegments(rooted, a + [x] + [".."] + b) == CleanSegments(rooted, a + b)
    ensures CleanSegments(rooted, a + [""] + b) == CleanSegments(rooted, a + b)
    ensures CleanSegments(true, [".."] + b) == CleanSegments(true, b)
  {
    CleanStep(rooted, a, x);
    CleanStep(rooted, a + [x], "..");
    CleanContinues(rooted, a + [x] + [".."], a, b);
    CleanStep(rooted, a, "");
    CleanContinues(rooted, a + [""], a, b);
    CleanStep(true, [], "..");
    assert [] + [".."] == [".."] && [] + b == b;
    CleanContinues(true, [".."], [], b);
  }

  /** The segments of any longer key's path, before they are cleaned. */
  ghost function RawSegments(base: string, key: string): seq<string>
    requires |key| >= 2
  {
    Split(base, '/') + Split(key[..2], '/') + Split(key, '/')
  }

  lemma PathOfSegments(base: string, key: string)
    requires base != "" && |key| >= 2
    ensures PathOf(base, key) == Render(Rooted(base), CleanSegments(Rooted(base), RawSegments(base, key)))
  {
    var tail := key[..2] + ['/'] + key;
    var whole := base + ['/'] + tail;
    SplitConcat(base, tail, '/');
    SplitConcat(key[..2], key, '/');
    assert Split(whole, '/') == RawSegments(base, key);
    assert whole[0] == base[0];
    assert Rooted(whole) == Rooted(base);
  }

  lemma DotIsSkipped(base: string, x: string, y: string)
    requires |x| >= 2
    ensures CleanSegments(Rooted(base), RawSegments(base, x + "/./" + y)) == CleanSegments(Rooted(base), RawSegments(base, x + "/" + y))
  {
    assert (x + "/./" + y)[..2] == x[..2] == (x + "/" + y)[..2];
    DottedSegments(x, y);
    var front, back := Split(base, '/') + Split(x[..2], '/') + Split(x, '/'), Split(y, '/');
    assert RawSegments(base, x + "/./" + y) == front + ["."] + back;
    assert RawSegments(base, x + "/" + y) == front + back;
    CleanSkipsDot(Rooted(base), front, back);
  }

  /** Without canonical keys, files do collide: every key that can be split at a '/' shares its file with
      another one. */
  lemma UncleanKeysCollide(base: string, x: string, y: string)
    requires base != "" && |x| >= 2
    ensures PathOf(base, x + "/./" + y) == PathOf(base, x + "/" + y) && x + "/./" + y != x + "/" + y
  {
    assert |x + "/./" + y| == |x + "/" + y| + 2;
    PathOfSegments(base, x + "/./" + y);
    PathOfSegments(base, x + "/" + y);
    DotIsSkipped(base, x, y);
  }

  lemma DottedSegments(x: string, y: string)
    ensures Split(x + "/./" + y, '/') == Split(x, '/') + ["."] + Split(y, '/')
    ensures Split(x + "/" + y, '/') == Split(x, '/') + Split(y, '/')
  {
    assert x + "/./" + y == x + ['/'] + "." + ['/'] + y;
    SplitConcat(x + ['/'] + ".", y, '/');
    SplitConcat(x, ".", '/');
    SplitFree(".", '/');
    SplitConcat(x, y, '/');
  }
}
