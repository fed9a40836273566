/** The PyPI handler (internal/ecosystem/pypi.go), on ASCII names. */
module Pypi {
  import opened Foundation
  import opened Keys
  import opened Replacing
  import opened Strings

  // ---- File names: ([^/]+?)[-_](\d[^/]*?)(?:\.tar\.gz|\.whl|\.zip)$ ---------------------------------

  predicate IsDigit(c: char) { '0' <= c <= '9' }

  predicate IsExtension(ext: string) { ext == ".tar.gz" || ext == ".whl" || ext == ".zip" }

  /** A version may start after position i. */
  predicate Breaks(stem: string, i: nat) {
    i + 1 < |stem| && (stem[i] == '-' || stem[i] == '_') && IsDigit(stem[i + 1])
  }

  /** The file is name, separator, version and extension, and no shorter name will do. */
  predicate IsFile(file: string, name: string, sep: char, version: string, ext: string) {
    && file == name + [sep] + version + ext && (ext == ".tar.gz" || ext == ".whl" || ext == ".zip") && name != ""
    && (sep == '-' || sep == '_') && version != "" && '0' <= version[0] <= '9'
    && (forall i :: 0 < i < |name| - 1 && (name[i] == '-' || name[i] == '_') ==> !('0' <= name[i + 1] <= '9'))
  }

  function StemOf(file: string): Option<string> {
    if HasSuffix(file, ".tar.gz") then Some(TrimSuffix(file, ".tar.gz"))
    else if HasSuffix(file, ".whl") then Some(TrimSuffix(file, ".whl"))
    else if HasSuffix(file, ".zip") then Some(TrimSuffix(file, ".zip"))
    else None
  }

  /** The first break at i or later. */
  function FirstBreak(stem: string, i: nat): (r: Option<nat>)
    ensures r.Some? ==> i <= r.value && Breaks(stem, r.value) && forall j :: i <= j < r.value ==> !Breaks(stem, j)
    ensures r.None? ==> forall j :: i <= j ==> !Breaks(stem, j)
    decreases |stem| - i
  {
    if i + 1 >= |stem| then None
    else if Breaks(stem, i) then Some(i)
    else FirstBreak(stem, i + 1)
  }

  datatype Parts = Parts(name: string, version: string)

  function SplitFile(file: string): Option<Parts> {
    match StemOf(file)
    case None => None
    case Some(stem) =>
      match FirstBreak(stem, 1)
      case None => None
      case Some(i) => Some(Parts(stem[..i], stem[i + 1..]))
  }

  lemma StemIs(stem: string, ext: string)
    requires IsExtension(ext)
    ensures StemOf(stem + ext) == Some(stem)
  {
    var file := stem + ext;
    assert file[|file| - |ext|..] == ext && file[..|file| - |ext|] == stem;
    assert file[|file| - 1] == ext[|ext| - 1] && file[|file| - 2] == ext[|ext| - 2];
    LastTwo(file, ".tar.gz");
    LastTwo(file, ".whl");
    LastTwo(file, ".zip");
  }

  lemma LastTwo(s: string, suffix: string)
    requires |suffix| >= 2
    ensures HasSuffix(s, suffix) ==> s[|s| - 1] == suffix[|suffix| - 1] && s[|s| - 2] == suffix[|suffix| - 2]
  {
    if HasSuffix(s, suffix) {
      var t := s[|s| - |suffix|..];
      assert t[|suffix| - 1] == s[|s| - 1] && t[|suffix| - 2] == s[|s| - 2];
    }
  }

  /** SplitFile returns the groups of the pattern. */
  lemma SplitFileIs(file: string, name: string, sep: char, version: string, ext: string)
    requires IsFile(file, name, sep, version, ext)
    ensures SplitFile(file) == Some(Parts(name, version))
  {
    var stem := name + [sep] + version;
    assert Breaks(stem, |name|);
    assert forall i :: 0 < i < |name| ==> stem[i] == name[i] && !Breaks(stem, i);
    StemIs(stem, ext);
    assert stem[..|name|] == name && stem[|name| + 1..] == version;
  }

  /** and finds them whenever there are some. */
  lemma SplitFileFinds(file: string) returns (sep: char, ext: string)
    requires SplitFile(file).Some?
    ensures IsFile(file, SplitFile(file).value.name, sep, SplitFile(file).value.version, ext)
  {
    var stem := StemOf(file).value;
    ext := StemFinds(file);
    var i := FirstBreak(stem, 1).value;
    sep := stem[i];
    assert stem == stem[..i] + [sep] + stem[i + 1..];
    NoEarlierBreak(stem, i);
  }

  lemma StemFinds(file: string) returns (ext: string)
    requires StemOf(file).Some?
    ensures IsExtension(ext) && file == StemOf(file).value + ext
  {
    ext := if HasSuffix(file, ".tar.gz") then ".tar.gz" else if HasSuffix(file, ".whl") then ".whl" else ".zip";
  }

  lemma NoEarlierBreak(stem: string, i: nat)
    requires i < |stem| && forall j :: 1 <= j < i ==> !Breaks(stem, j)
    ensures var name := stem[..i];
            forall j :: 0 < j < |name| - 1 && (name[j] == '-' || name[j] == '_') ==> !('0' <= name[j + 1] <= '9')
  {
    var name := stem[..i];
    forall j | 0 < j < |name| - 1 && (name[j] == '-' || name[j] == '_') ensures !('0' <= name[j + 1] <= '9') {
      assert !Breaks(stem, j) && name[j + 1] == stem[j + 1];
    }
  }

  // ---- Requests ------------------------------------------------------------------------------------

  /** Lower case, and '-' for each '_' and '.' */
  function Normalise(name: string): string {
    ReplaceChar(ReplaceChar(ToLower(name), '_', '-'), '.', '-')
  }

  /** Letter by letter. */
  lemma NormaliseIsExact(name: string, i: nat)
    requires i < |name|
    ensures |Normalise(name)| == |name|
    ensures Normalise(name)[i] == if name[i] == '_' || name[i] == '.' then '-'
                                  else if 'A' <= name[i] <= 'Z' then name[i] + 32 as char else name[i]
  {
  }

  /** The three directories and the file. */
  function Location(a: string, b: string, c: string, file: string): string { a + "/" + b + "/" + c + "/" + file }

  predicate IsSegment(s: string) { s != "" && '/' !in s }

  /** /pypi/packages/[^/]+/[^/]+/([^/]+)/(file)$ anywhere in a path without "/simple/" */
  predicate Matches(path: string, root: string, a: string, b: string, c: string, file: string) {
    && path == root + "/pypi/packages/" + Location(a, b, c, file)
    && IsSegment(a) && IsSegment(b) && IsSegment(c) && '/' !in file && SplitFile(file).Some?
    && !Contains(path, "/simple/")
  }

  function PackageOf(path: string, file: string): Package
    requires SplitFile(file).Some?
  {
    var parts := SplitFile(file).value;
    Package("pypi", Normalise(parts.name), parts.version, file, TrimPrefix(path, "/pypi/packages/"))
  }

  /** The last three directories of a path. */
  datatype Dirs = TooFew | Dirs(top: string, a: string, b: string, c: string)

  function LastDirs(dir: string): Dirs {
    match CutLast(dir, '/')
    case NoSeparator => TooFew
    case At(dir', c) =>
      match CutLast(dir', '/')
      case NoSeparator => TooFew
      case At(dir'', b) =>
        match CutLast(dir'', '/')
        case NoSeparator => TooFew
        case At(top, a) => Dirs(top, a, b, c)
  }

  function Parse(path: string): Option<Package> {
    if Contains(path, "/simple/") then None
    else
      match CutLast(path, '/')
      case NoSeparator => None
      case At(dir, file) =>
        match LastDirs(dir)
        case TooFew => None
        case Dirs(top, a, b, c) =>
          if HasSuffix(top, "/pypi/packages") && a != "" && b != "" && c != "" && SplitFile(file).Some? then
            Some(PackageOf(path, file))
          else
            None
  }

  lemma LastDirsIs(top: string, a: string, b: string, c: string)
    requires '/' !in a && '/' !in b && '/' !in c
    ensures LastDirs(top + ['/'] + a + ['/'] + b + ['/'] + c) == Dirs(top, a, b, c)
  {
    CutLastIs(top + ['/'] + a + ['/'] + b, c, '/');
    CutLastIs(top + ['/'] + a, b, '/');
    CutLastIs(top, a, '/');
  }

  lemma Nested(root: string, a: string, b: string, c: string, file: string)
    ensures root + "/pypi/packages/" + Location(a, b, c, file)
            == (root + "/pypi/packages") + ['/'] + a + ['/'] + b + ['/'] + c + ['/'] + file
  {
    assert root + "/pypi/packages/" == (root + "/pypi/packages") + ['/'];
    var front := (root + "/pypi/packages") + ['/'];
    assert front + Location(a, b, c, file) == (front + (a + "/" + b + "/" + c)) + ("/" + file);
    assert front + (a + "/" + b + "/" + c) == (front + (a + "/" + b)) + ("/" + c);
    assert front + (a + "/" + b) == front + a + "/" + b;
  }

  /** Parse accepts the paths of the pattern and returns its groups. */
  lemma ParseMatches(path: string, root: string, a: string, b: string, c: string, file: string)
    requires Matches(path, root, a, b, c, file)
    ensures Parse(path) == Some(PackageOf(path, file))
    ensures var parts := SplitFile(file).value;
            Parse(path) == Some(Package("pypi", Normalise(parts.name), parts.version, file, TrimPrefix(path, "/pypi/packages/")))
  {
    var top := root + "/pypi/packages";
    Nested(root, a, b, c, file);
    CutLastIs(top + ['/'] + a + ['/'] + b + ['/'] + c, file, '/');
    LastDirsIs(top, a, b, c);
    assert top[|root|..] == "/pypi/packages";
  }

  /** and no others. */
  lemma ParsedMatches(path: string) returns (root: string, a: string, b: string, c: string, file: string)
    requires Parse(path).Some?
    ensures Matches(path, root, a, b, c, file) && Parse(path) == Some(PackageOf(path, file))
  {
    var cut := CutLast(path, '/');
    file := cut.after;
    var dirs := LastDirs(cut.before);
    a, b, c := dirs.a, dirs.b, dirs.c;
    root := TrimSuffix(dirs.top, "/pypi/packages");
    assert dirs.top == root + "/pypi/packages";
    Nested(root, a, b, c, file);
  }

  function UpstreamURL(base: string, p: Package): string { base + "/packages/" + p.upstreamPath }

  /** The upstream is asked for the very path below "/pypi" that the client asked for, if and only if the
      path starts with "/pypi/packages/": the pattern is not anchored at the front. */
  lemma UpstreamRestoresPathIff(path: string, base: string)
    requires Parse(path).Some?
    ensures UpstreamURL(base, Parse(path).value) == base + TrimPrefix(path, "/pypi") <==> HasPrefix(path, "/pypi/packages/")
  {
    var root, a, b, c, file := ParsedMatches(path);
    if HasPrefix(path, "/pypi/packages/") {
      BelowPypi(path, base);
    } else {
      assert |UpstreamURL(base, PackageOf(path, file))| == |base| + 10 + |path|;
    }
  }

  lemma BelowPypi(path: string, base: string)
    requires HasPrefix(path, "/pypi/packages/")
    ensures base + "/packages/" + TrimPrefix(path, "/pypi/packages/") == base + TrimPrefix(path, "/pypi")
  {
    var rest := path[15..];
    assert "/pypi/packages/" == "/pypi" + "/packages/";
    assert path == "/pypi" + ("/packages/" + rest);
    assert TrimPrefix(path, "/pypi") == "/packages/" + rest;
    assert base + ("/packages/" + rest) == base + "/packages/" + rest;
  }

  lemma KeysAreLongEnough(path: string)
    requires Parse(path).Some?
    ensures |Parse(path).value.CacheKey()| >= 12
  {
    var root, a, b, c, file := ParsedMatches(path);
    var sep, ext := SplitFileFinds(file);
  }

  // ---- Which requests share a cache entry ----------------------------------------------------------

  /** A source distribution and a zip file of the same version share one cache entry, and so do files of one
      name in different directories: whichever is cached first is served for both. */
  lemma SourcesShareTheEntry(a: string, b: string, c: string, a': string, b': string, c': string, stem: string)
    requires Matches("/pypi/packages/" + Location(a, b, c, stem + ".tar.gz"), "", a, b, c, stem + ".tar.gz")
    requires IsSegment(a') && IsSegment(b') && IsSegment(c')
    requires !Contains("/pypi/packages/" + Location(a', b', c', stem + ".zip"), "/simple/")
    ensures var path, path' := "/pypi/packages/" + Location(a, b, c, stem + ".tar.gz"),
                               "/pypi/packages/" + Location(a', b', c', stem + ".zip");
            && Parse(path).Some? && Parse(path').Some?
            && Parse(path).value.Id() == Parse(path').value.Id() && Parse(path).value != Parse(path').value
  {
    var path, path' := "/pypi/packages/" + Location(a, b, c, stem + ".tar.gz"), "/pypi/packages/" + Location(a', b', c', stem + ".zip");
    StemIs(stem, ".tar.gz");
    StemIs(stem, ".zip");
    assert "" + "/pypi/packages/" == "/pypi/packages/";
    assert '/' !in stem by { assert forall i :: 0 <= i < |stem| ==> stem[i] == (stem + ".tar.gz")[i]; }
    ParseMatches(path, "", a, b, c, stem + ".tar.gz");
    ParseMatches(path', "", a', b', c', stem + ".zip");
    assert |stem + ".tar.gz"| != |stem + ".zip"|;
  }

  lemma LocationsAreUnique(path: string, root: string, a: string, b: string, c: string, file: string,
                           root': string, a': string, b': string, c': string, file': string)
    requires Matches(path, root, a, b, c, file) && Matches(path, root', a', b', c', file')
    ensures root == root' && a == a' && b == b' && c == c' && file == file'
  {
    var top, top' := root + "/pypi/packages", root' + "/pypi/packages";
    Nested(root, a, b, c, file);
    Nested(root', a', b', c', file');
    var dir, dir' := top + ['/'] + a + ['/'] + b + ['/'] + c, top' + ['/'] + a' + ['/'] + b' + ['/'] + c';
    SplitAtLast(dir, file, dir', file', '/');
    LastDirsIs(top, a, b, c);
    LastDirsIs(top', a', b', c');
    assert top[..|root|] == root && top'[..|root'|] == root';
  }

  /** What a triple forgets: two requests with one triple are the same if and only if their directories agree,
      and the spelling of the name, the separator and the extension of their files. */
  lemma SharedEntryIff(path: string, root: string, a: string, b: string, c: string, file: string,
                       path': string, root': string, a': string, b': string, c': string, file': string,
                       name: string, sep: char, version: string, ext: string,
                       name': string, sep': char, version': string, ext': string)
    requires Matches(path, root, a, b, c, file) && Matches(path', root', a', b', c', file')
    requires IsFile(file, name, sep, version, ext) && IsFile(file', name', sep', version', ext')
    requires PackageOf(path, file).Id() == PackageOf(path', file').Id()
    ensures version == version' && Normalise(name) == Normalise(name')
    ensures path == path' <==> root == root' && a == a' && b == b' && c == c' && name == name' && sep == sep' && ext == ext'
  {
    SplitFileIs(file, name, sep, version, ext);
    SplitFileIs(file', name', sep', version', ext');
    if path == path' {
      LocationsAreUnique(path, root, a, b, c, file, root', a', b', c', file');
      assert file[|name|] == sep && file'[|name|] == sep';
      assert file[|name| + 1 + |version|..] == ext && file'[|name| + 1 + |version|..] == ext';
    }
  }

  /** A name as wheels and new source distributions spell it, which Normalise can be undone on. */
  predicate Escaped(name: string) { '-' !in name && '.' !in name && ToLower(name) == name }

  lemma EscapedComesBack(name: string, name': string)
    requires Escaped(name) && Escaped(name') && Normalise(name) == Normalise(name')
    ensures name == name'
  {
    assert forall i :: 0 <= i < |name| ==> name[i] == (if Normalise(name)[i] == '-' then '_' else Normalise(name)[i]);
    assert forall i :: 0 <= i < |name'| ==> name'[i] == (if Normalise(name')[i] == '-' then '_' else Normalise(name')[i]);
    assert |name| == |Normalise(name)| == |name'|;
  }

  /** A wheel, whose version group holds its tags, or a source distribution, whose version has no '-'. */
  predicate Standard(file: string, name: string, version: string, ext: string) {
    && IsFile(file, name, '-', version, ext) && Escaped(name)
    && ((ext == ".whl" && '-' in version) || (ext == ".tar.gz" && '-' !in version))
  }

  /** So the triple fixes a standard file. */
  lemma StandardIsFixed(path: string, file: string, name: string, version: string, ext: string,
                        path': string, file': string, name': string, version': string, ext': string)
    requires Standard(file, name, version, ext) && Standard(file', name', version', ext')
    requires SplitFile(file).Some? && SplitFile(file').Some?
    requires PackageOf(path, file).Id() == PackageOf(path', file').Id()
    ensures file == file'
  {
    SplitFileIs(file, name, '-', version, ext);
    SplitFileIs(file', name', '-', version', ext');
    EscapedComesBack(name, name');
  }

  // ---- Metadata ------------------------------------------------------------------------------------

  const UPSTREAM := "https://files.pythonhosted.org"

  function RewriteMetadata(body: string, proxyBase: string): string {
    ReplaceAll(body, UPSTREAM, proxyBase + "/pypi")
  }

  lemma UpstreamFits()
    ensures FitsAddress(UPSTREAM, "/pypi") && UPSTREAM[6] == '/' == UPSTREAM[7]
    ensures '"' !in UPSTREAM && '#' !in UPSTREAM
  {
  }

  /** No upstream address is left, unless the proxy's own address contains it. */
  lemma UpstreamRemainsIff(body: string, tls: bool, host: string)
    ensures Contains(RewriteMetadata(body, ProxyBase(tls, host)), "https://files.pythonhosted.org")
            <==> && Contains(body, "https://files.pythonhosted.org")
                 && Contains((if tls then "https" else "http") + "://" + host, "https://files.pythonhosted.org")
  {
    UpstreamFits();
    AddressRemainsIff(body, UPSTREAM, "/pypi", tls, host);
  }

  lemma LocationsHaveNoEmptySegment(a: string, b: string, c: string, file: string)
    requires IsSegment(a) && IsSegment(b) && IsSegment(c) && '/' !in file && file != ""
    ensures NoEmptySegment("/packages/" + Location(a, b, c, file))
  {
    Joins("/packages/", a);
    Joins("/packages/" + a + "/", b);
    Joins("/packages/" + a + "/" + b + "/", c);
    Joins("/packages/" + a + "/" + b + "/" + c + "/", file);
    assert "/packages/" + Location(a, b, c, file) == "/packages/" + a + "/" + b + "/" + c + "/" + file by {
      assert "/packages/" + (a + "/" + b) == "/packages/" + a + "/" + b;
      assert "/packages/" + (a + "/" + b + "/" + c) == "/packages/" + (a + "/" + b) + "/" + c;
      assert "/packages/" + Location(a, b, c, file) == "/packages/" + (a + "/" + b + "/" + c) + "/" + file;
    }
  }

  lemma Joins(front: string, segment: string)
    requires NoEmptySegment(front) && IsSegment(segment)
    ensures NoEmptySegment(front + segment) && NoEmptySegment(front + segment + "/")
  {
  }

  /** A download URL between delimiters anywhere in an index page becomes a URL of the proxy, and when a
      client follows it, the upstream is asked for the original URL. */
  lemma RewrittenUrlLeadsBack(x: string, a: string, b: string, c: string, file: string, d: char, y: string, proxyBase: string)
    requires Matches("/pypi/packages/" + Location(a, b, c, file), "", a, b, c, file) && d !in UPSTREAM
    ensures var rest := "/packages/" + Location(a, b, c, file);
            && RewriteMetadata(x + ['"'] + (UPSTREAM + rest + [d] + y), proxyBase)
               == RewriteMetadata(x, proxyBase) + ['"'] + (proxyBase + "/pypi" + rest + [d] + RewriteMetadata(y, proxyBase))
            && Parse("/pypi" + rest).Some? && UpstreamURL(UPSTREAM, Parse("/pypi" + rest).value) == UPSTREAM + rest
  {
    var rest := "/packages/" + Location(a, b, c, file);
    UpstreamFits();
    LocationsHaveNoEmptySegment(a, b, c, file);
    SegmentsLackAddress(rest, UPSTREAM, 6);
    UrlIsRewritten(x, '"', rest, d, y, UPSTREAM, proxyBase + "/pypi");
    PathLeadsBack(a, b, c, file);
  }

  lemma PathLeadsBack(a: string, b: string, c: string, file: string)
    requires Matches("/pypi/packages/" + Location(a, b, c, file), "", a, b, c, file)
    ensures var rest := "/packages/" + Location(a, b, c, file);
            Parse("/pypi" + rest).Some? && UpstreamURL(UPSTREAM, Parse("/pypi" + rest).value) == UPSTREAM + rest
  {
    var rest := "/packages/" + Location(a, b, c, file);
    var path := "/pypi/packages/" + Location(a, b, c, file);
    assert "/pypi" + "/packages/" == "/pypi/packages/";
    assert "/pypi" + rest == path;
    ParseMatches(path, "", a, b, c, file);
    UpstreamRestoresPathIff(path, UPSTREAM);
    assert path[..15] == "/pypi/packages/" && path[..5] == "/pypi" && path[5..] == rest;
  }
}
