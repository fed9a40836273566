/** The Go module handler (internal/ecosystem/gomod.go). A Go string is a sequence of bytes, so each character
    stands for one byte. */
module GoMod {
  import opened Foundation
  import opened Keys
  import opened Strings

  // ---- Case encoding -------------------------------------------------------------------------------

  predicate IsUpper(c: char) { 'A' <= c <= 'Z' }

  predicate IsLower(c: char) { 'a' <= c <= 'z' }

  /** The byte b - 32, which wraps around below 32. */
  function Minus32(c: char): char {
    if c as int < 32 then (c as int + 224) as char
    else if c as int < 256 then (c as int - 32) as char
    else c
  }

  /** '!' takes the next byte with it; a trailing '!' stays. */
  function Decode(s: string): string
    decreases |s|
  {
    if s == "" then ""
    else if s[0] == '!' && |s| > 1 then [Minus32(s[1])] + Decode(s[2..])
    else [s[0]] + Decode(s[1..])
  }

  /** The escaping that clients apply: each upper-case letter becomes '!' and its lower-case letter. */
  function Encode(s: string): string {
    if s == "" then ""
    else (if IsUpper(s[0]) then ['!', LowerChar(s[0])] else [s[0]]) + Encode(s[1..])
  }

  lemma {:induction false} DecodePlain(s: string)
    requires '!' !in s
    ensures Decode(s) == s
  {
    if s != "" {
      DecodePlain(s[1..]);
    }
  }

  method DecodeCaseEncoding(encoded: string) returns (decoded: string)
    ensures decoded == Decode(encoded)
  {
    if '!' !in encoded {
      DecodePlain(encoded);
      return encoded;
    }
    var b := "";
    var i := 0;
    while i < |encoded|
      invariant 0 <= i <= |encoded|
      invariant b + Decode(encoded[i..]) == Decode(encoded)
    {
      ghost var rest := encoded[i..];
      if encoded[i] == '!' && i + 1 < |encoded| {
        assert rest[2..] == encoded[i + 2..];
        assert b + ([Minus32(encoded[i + 1])] + Decode(encoded[i + 2..])) == (b + [Minus32(encoded[i + 1])]) + Decode(encoded[i + 2..]);
        b := b + [Minus32(encoded[i + 1])];
        i := i + 2;
      } else {
        assert rest[1..] == encoded[i + 1..];
        assert b + ([encoded[i]] + Decode(encoded[i + 1..])) == (b + [encoded[i]]) + Decode(encoded[i + 1..]);
        b := b + [encoded[i]];
        i := i + 1;
      }
    }
    assert encoded[i..] == "";
    return b;
  }

  /** Decoding copies up to the first '!', which takes the next byte with it and gives that byte less 32, in
      byte arithmetic: a lower-case letter becomes the upper-case one. */
  lemma {:induction false} DecodeIsExact(a: string, c: char, b: string)
    requires '!' !in a && c as int < 256
    ensures Decode(a) == a && Decode(a + ['!']) == a + ['!']
    ensures Decode(a + ['!', c] + b) == a + [((c as int + 224) % 256) as char] + Decode(b)
    ensures 'a' <= c <= 'z' ==> (c as int + 224) % 256 == c as int - 32
  {
    var s := a + ['!', c] + b;
    DecodePlain(a);
    if a == "" {
      assert s[2..] == b && (a + ['!'])[1..] == "";
    } else {
      DecodeIsExact(a[1..], c, b);
      assert s[1..] == a[1..] + ['!', c] + b && (a + ['!'])[1..] == a[1..] + ['!'];
    }
  }

  /** Encoding copies up to the first upper-case letter, which becomes '!' and the lower-case one. */
  lemma {:induction false} EncodeIsExact(a: string, c: char, b: string)
    requires (forall i :: 0 <= i < |a| ==> !('A' <= a[i] <= 'Z')) && 'A' <= c <= 'Z'
    ensures Encode(a) == a && Encode(a + [c] + b) == a + ['!', c + 32 as char] + Encode(b)
  {
    var s := a + [c] + b;
    if a == "" {
      assert s[1..] == b;
    } else {
      EncodeIsExact(a[1..], c, b);
      assert s[1..] == a[1..] + [c] + b;
    }
  }

  lemma {:induction false} EncodedIsNotUpper(s: string)
    ensures forall i :: 0 <= i < |Encode(s)| ==> !IsUpper(Encode(s)[i])
    ensures s == "" <==> Encode(s) == ""
  {
    if s != "" { EncodedIsNotUpper(s[1..]); }
  }

  /** Decoding undoes encoding exactly for the names in which '!' occurs nowhere but at the end. */
  lemma {:induction false} DecodeEncodeIff(s: string)
    ensures Decode(Encode(s)) == s <==> forall i :: 0 <= i < |s| - 1 ==> s[i] != '!'
  {
    if s != "" {
      var e, rest := Encode(s), Encode(s[1..]);
      DecodeEncodeIff(s[1..]);
      EncodedIsNotUpper(s[1..]);
      if IsUpper(s[0]) {
        assert e[2..] == rest && Decode(e) == [s[0]] + Decode(rest);
      } else {
        assert e[1..] == rest;
      }
      if s[0] == '!' && |s| > 1 {
        assert e[1] == rest[0] && Decode(e)[0] == Minus32(rest[0]) != '!';
      } else {
        assert Decode(e) == [s[0]] + Decode(rest);
        assert Decode(e) == s <==> Decode(rest) == s[1..];
        if i :| 0 <= i < |s[1..]| - 1 && s[1..][i] == '!' { assert s[i + 1] == '!'; }
        if i :| 0 <= i < |s| - 1 && s[i] == '!' { assert s[1..][i - 1] == '!'; }
      }
    }
  }

  /** No upper-case letter, and '!' only before a lower-case letter or at the end. */
  predicate Canonical(e: string)
    decreases |e|
  {
    if e == "" || e == "!" then true
    else if e[0] == '!' then IsLower(e[1]) && Canonical(e[2..])
    else !IsUpper(e[0]) && Canonical(e[1..])
  }

  lemma BangStays()
    ensures Decode("!") == "!" && Encode("!") == "!"
  {
    assert "!"[1..] == "" && Decode("") == "" && Encode("") == "";
  }

  /** The encoded names that encoding gives back are exactly the canonical ones. */
  lemma {:induction false} EncodeDecodeIff(e: string)
    ensures Encode(Decode(e)) == e <==> Canonical(e)
    decreases |e|
  {
    if e == "" {
    } else if e == "!" {
      BangStays();
    } else if e[0] == '!' {
      var d := Decode(e[2..]);
      EncodeDecodeIff(e[2..]);
      EncodedIsNotUpper(d);
      assert Decode(e)[0] == Minus32(e[1]) && Decode(e)[1..] == d;
      var f := Encode(Decode(e));
      if IsLower(e[1]) {
        assert LowerChar(Minus32(e[1])) == e[1] && f == ['!', e[1]] + Encode(d);
        assert f[2..] == Encode(d);
      }
    } else {
      var d := Decode(e[1..]);
      EncodeDecodeIff(e[1..]);
      assert Decode(e)[1..] == d;
      var f := Encode(Decode(e));
      if !IsUpper(e[0]) {
        assert f == [e[0]] + Encode(d) && f[1..] == Encode(d);
      }
    }
  }

  /** Decoding confuses no two canonical encodings. */
  lemma DecodeInjective(d: string, e: string)
    requires Canonical(d) && Canonical(e) && Decode(d) == Decode(e)
    ensures d == e
  {
    EncodeDecodeIff(d);
    EncodeDecodeIff(e);
  }

  // ---- Requests ------------------------------------------------------------------------------------

  /** ^/go/(.+)/@v/([^/]+)\.zip$ */
  ghost predicate Matches(path: string, encoded: string, version: string) {
    && path == "/go/" + encoded + "/@v/" + version + ".zip"
    && encoded != "" && '\n' !in encoded && version != "" && '/' !in version
  }

  function PackageOf(encoded: string, version: string): Package {
    Package("go", Decode(encoded), version, version + ".zip", encoded + "/@v/" + version + ".zip")
  }

  function Parse(path: string): Option<Package> {
    match CutLast(path, '/')
    case NoSeparator => None
    case At(dir, file) =>
      match CutLast(dir, '/')
      case NoSeparator => None
      case At(top, at) =>
        if at == "@v" && HasSuffix(file, ".zip") && |file| > 4 && HasPrefix(top, "/go/") && |top| > 4 && '\n' !in top then
          Some(PackageOf(top[4..], TrimSuffix(file, ".zip")))
        else
          None
  }

  /** Parse accepts the paths of the pattern and returns its groups. */
  lemma ParseMatches(path: string, encoded: string, version: string)
    requires Matches(path, encoded, version)
    ensures Parse(path) == Some(PackageOf(encoded, version))
    ensures Parse(path) == Some(Package("go", Decode(encoded), version, version + ".zip", encoded + "/@v/" + version + ".zip"))
  {
    var top, file := "/go/" + encoded, version + ".zip";
    assert path == (top + ['/'] + "@v") + ['/'] + file;
    CutLastIs(top + ['/'] + "@v", file, '/');
    CutLastIs(top, "@v", '/');
    assert top[4..] == encoded && file[..|file| - 4] == version && file[|file| - 4..] == ".zip";
  }

  /** and no others. */
  lemma ParsedMatches(path: string) returns (encoded: string, version: string)
    requires Parse(path).Some?
    ensures Matches(path, encoded, version) && Parse(path) == Some(PackageOf(encoded, version))
  {
    var a := CutLast(path, '/');
    var b := CutLast(a.before, '/');
    encoded, version := b.before[4..], TrimSuffix(a.after, ".zip");
    assert b.before == "/go/" + encoded && a.after == version + ".zip";
    assert path == "/go/" + encoded + "/@v/" + version + ".zip";
    assert forall i :: 0 <= i < |encoded| ==> encoded[i] == b.before[i + 4];
  }

  function UpstreamURL(base: string, p: Package): string { base + "/" + p.upstreamPath }

  /** The upstream is asked for the very path that the client asked for. */
  lemma UpstreamRestoresPath(path: string, base: string)
    requires Parse(path).Some?
    ensures HasPrefix(path, "/go/") && UpstreamURL(base, Parse(path).value) == base + path[3..]
  {
    var encoded, version := ParsedMatches(path);
    assert path[3..] == "/" + (encoded + "/@v/" + version + ".zip");
  }

  /** Two requests in canonical case encoding share a cache entry only when they are the same request. */
  lemma CanonicalRequestsAreDetermined(path: string, encoded: string, version: string,
                                       path': string, encoded': string, version': string)
    requires Matches(path, encoded, version) && Matches(path', encoded', version')
    requires Canonical(encoded) && Canonical(encoded')
    ensures Parse(path).Some? && Parse(path').Some?
    ensures Parse(path).value.Id() == Parse(path').value.Id() <==> path == path'
  {
    ParseMatches(path, encoded, version);
    ParseMatches(path', encoded', version');
    if Parse(path).value.Id() == Parse(path').value.Id() {
      DecodeInjective(encoded, encoded');
    }
  }

  /** Without canonical encoding they can share one: the second request is for another upstream path. */
  lemma UnescapedSharesTheEntry()
    ensures Parse("/go/A/@v/1.zip").Some? && Parse("/go/!a/@v/1.zip").Some?
    ensures var p, q := Parse("/go/A/@v/1.zip").value, Parse("/go/!a/@v/1.zip").value;
            p.Id() == q.Id() && p != q && UpstreamURL("", p) != UpstreamURL("", q)
  {
    assert Matches("/go/A/@v/1.zip", "A", "1") && Matches("/go/!a/@v/1.zip", "!a", "1");
    ParseMatches("/go/A/@v/1.zip", "A", "1");
    ParseMatches("/go/!a/@v/1.zip", "!a", "1");
    assert Decode("A") == "A" == Decode("!a");
    assert PackageOf("A", "1").upstreamPath[0] == 'A' && PackageOf("!a", "1").upstreamPath[0] == '!';
    assert UpstreamURL("", PackageOf("A", "1"))[1] == 'A' && UpstreamURL("", PackageOf("!a", "1"))[1] == '!';
  }

  lemma DecodedIsNotEmpty(s: string)
    requires s != ""
    ensures Decode(s) != ""
  {
  }

  /** Storage keys have at least the twelve characters that the migration tool prints. */
  lemma KeysAreLongEnough(path: string)
    requires Parse(path).Some?
    ensures |Parse(path).value.CacheKey()| >= 12
  {
    var encoded, version := ParsedMatches(path);
    DecodedIsNotEmpty(encoded);
  }
}
