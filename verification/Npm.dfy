/** The npm handler (internal/ecosystem/npm.go). */
module Npm {
  import opened Foundation
  import opened Keys
  import opened Replacing
  import opened Strings

  // ---- Requests ------------------------------------------------------------------------------------

  /** @[^/]+/[^/]+ or [^@/][^/]* */
  predicate IsName(name: string) {
    match CutLast(name, '/')
    case NoSeparator => name != "" && name[0] != '@'
    case At(scope, bare) => |scope| > 1 && scope[0] == '@' && '/' !in scope && bare != ""
  }

  ghost predicate IsScoped(name: string, scope: string, bare: string) {
    name == "@" + scope + "/" + bare && scope != "" && '/' !in scope && bare != "" && '/' !in bare
  }

  /** IsName accepts exactly the two forms, and Bare drops the scope. */
  lemma NameIff(name: string)
    ensures IsName(name) <==> (exists scope, bare :: IsScoped(name, scope, bare)) || (name != "" && name[0] != '@' && '/' !in name)
    ensures '/' !in name ==> Bare(name) == name
    ensures forall scope, bare :: IsScoped(name, scope, bare) ==> Bare(name) == bare
  {
    forall scope, bare | IsScoped(name, scope, bare) ensures IsName(name) && Bare(name) == bare {
      assert "@" + scope + "/" + bare == ("@" + scope) + ['/'] + bare;
      CutLastIs("@" + scope, bare, '/');
    }
    var cut := CutLast(name, '/');
    if IsName(name) && cut.At? {
      assert cut.before == "@" + cut.before[1..];
      assert forall i :: 0 <= i < |cut.before[1..]| ==> cut.before[1..][i] == cut.before[i + 1];
      assert IsScoped(name, cut.before[1..], cut.after);
    }
  }

  /** ^/npm/(name)/-/([^/]+\.tgz)$ */
  ghost predicate Matches(path: string, name: string, file: string) {
    && path == "/npm/" + name + "/-/" + file
    && IsName(name) && '/' !in file && |file| > 4 && HasSuffix(file, ".tgz")
  }

  /** The name without its scope. */
  function Bare(name: string): string {
    match CutLast(name, '/')
    case NoSeparator => name
    case At(_, bare) => bare
  }

  function ExtractVersion(name: string, file: string): string {
    TrimSuffix(TrimPrefix(file, Bare(name) + "-"), ".tgz")
  }

  function PackageOf(name: string, file: string): Package {
    Package("npm", name, ExtractVersion(name, file), file, "")
  }

  function Parse(path: string): Option<Package> {
    match CutLast(path, '/')
    case NoSeparator => None
    case At(dir, file) =>
      match CutLast(dir, '/')
      case NoSeparator => None
      case At(top, dash) =>
        if dash == "-" && HasPrefix(top, "/npm/") && IsName(top[5..]) && |file| > 4 && HasSuffix(file, ".tgz") then
          Some(PackageOf(top[5..], file))
        else
          None
  }

  function UpstreamURL(base: string, p: Package): string { base + "/" + p.name + "/-/" + p.filename }

  /** Parse accepts the paths of the pattern and returns its groups. */
  lemma ParseMatches(path: string, name: string, file: string)
    requires Matches(path, name, file)
    ensures Parse(path) == Some(PackageOf(name, file))
    ensures Parse(path) == Some(Package("npm", name, ExtractVersion(name, file), file, ""))
  {
    var top := "/npm/" + name;
    Joined(top, file);
    CutLastIs(top + ['/'] + "-", file, '/');
    CutLastIs(top, "-", '/');
    assert top[5..] == name;
  }

  lemma Joined(top: string, file: string)
    ensures top + ['/'] + "-" + ['/'] + file == top + "/-/" + file
  {
    assert top + ['/'] + "-" + ['/'] == top + "/-/";
  }

  lemma BehindPrefix(s: string, p: string)
    requires HasPrefix(s, p)
    ensures s == p + s[|p|..]
  {
  }

  lemma ParsedParts(path: string) returns (name: string, file: string)
    requires Parse(path).Some?
    ensures path == ("/npm/" + name) + ['/'] + "-" + ['/'] + file && Parse(path) == Some(PackageOf(name, file))
    ensures IsName(name) && '/' !in file && |file| > 4 && HasSuffix(file, ".tgz")
  {
    var a := CutLast(path, '/');
    var b := CutLast(a.before, '/');
    name, file := b.before[5..], a.after;
    BehindPrefix(b.before, "/npm/");
  }

  /** and no others. */
  lemma ParsedMatches(path: string) returns (name: string, file: string)
    requires Parse(path).Some?
    ensures Matches(path, name, file) && Parse(path) == Some(PackageOf(name, file))
  {
    name, file := ParsedParts(path);
    Joined("/npm/" + name, file);
  }

  lemma PathBelowRoot(root: string, name: string, file: string)
    ensures root + "/" + name + "/-/" + file == root + ("/" + name + "/-/" + file)
  {
    assert root + "/" + name == root + ("/" + name);
    assert root + ("/" + name) + "/-/" == root + ("/" + name + "/-/");
  }

  /** The upstream is asked for the very path that the client asked for. */
  lemma UpstreamRestoresPath(path: string, base: string)
    requires Parse(path).Some?
    ensures HasPrefix(path, "/npm/") && UpstreamURL(base, Parse(path).value) == base + path[4..]
  {
    var name, file := ParsedMatches(path);
    assert "/npm" + "/" == "/npm/";
    PathBelowRoot("/npm", name, file);
    PathBelowRoot(base, name, file);
  }

  // ---- Which requests share a cache entry ----------------------------------------------------------

  /** The file is named after the package, as the registry names its tarballs. */
  predicate Conventional(p: Package) { HasPrefix(p.filename, Bare(p.name) + "-") }

  lemma DashIsBeforeExtension(b: string, rest: string)
    requires HasSuffix(b + "-" + rest, ".tgz")
    ensures HasSuffix(rest, ".tgz")
  {
    var file := b + "-" + rest;
    var n := |file| - 4;
    assert file[n..][0] == '.' && file[n..][1] == 't' && file[n..][2] == 'g' && file[n..][3] == 'z';
    assert file[n] == '.' && file[n + 1] == 't' && file[n + 2] == 'g' && file[n + 3] == 'z' && file[|b|] == '-';
    assert |rest| >= 4;
    assert rest[|rest| - 4..] == file[n..];
  }

  lemma EndsInSuffix(s: string, suffix: string)
    requires HasSuffix(s, suffix)
    ensures s == TrimSuffix(s, suffix) + suffix
  {
  }

  /** What the version leaves out of the file name. */
  lemma VersionIsExact(name: string, file: string)
    requires HasSuffix(file, ".tgz")
    ensures var p := PackageOf(name, file);
            file == (if Conventional(p) then Bare(name) + "-" else "") + p.version + ".tgz"
  {
    var b := Bare(name) + "-";
    var rest := TrimPrefix(file, b);
    if HasPrefix(file, b) {
      assert file == b + rest;
      DashIsBeforeExtension(Bare(name), rest);
      EndsInSuffix(rest, ".tgz");
      assert b + (ExtractVersion(name, file) + ".tgz") == b + ExtractVersion(name, file) + ".tgz";
    } else {
      EndsInSuffix(file, ".tgz");
    }
  }

  /** Two requests for one name and version are the same request, if and only if both files are named by the
      convention or neither is. */
  lemma SharedEntryIff(path: string, path': string)
    requires Parse(path).Some? && Parse(path').Some? && Parse(path).value.Id() == Parse(path').value.Id()
    ensures path == path' <==> (Conventional(Parse(path).value) <==> Conventional(Parse(path').value))
    ensures path == path' <==> Parse(path).value == Parse(path').value
  {
    var name, file := ParsedMatches(path);
    var name', file' := ParsedMatches(path');
    VersionIsExact(name, file);
    VersionIsExact(name', file');
  }

  lemma ExtensionFits(s: string)
    requires s != ""
    ensures HasSuffix(s + ".tgz", ".tgz") && TrimSuffix(s + ".tgz", ".tgz") == s && |s + ".tgz"| > 4
  {
  }

  lemma TrimsPrefix(p: string, rest: string)
    ensures TrimPrefix(p + rest, p) == rest
  {
  }

  lemma ConventionalName(b: string, version: string)
    requires version != ""
    ensures var file := b + "-" + version + ".tgz";
            && TrimSuffix(TrimPrefix(file, b + "-"), ".tgz") == version && HasSuffix(file, ".tgz") && |file| > 5
            && ('/' !in b && '/' !in version ==> '/' !in file)
  {
    var p := b + "-";
    ExtensionFits(version);
    ExtensionFits(p + version);
    TrimsPrefix(p, version + ".tgz");
    assert p + version + ".tgz" == p + (version + ".tgz");
  }

  lemma BareName(b: string, version: string)
    requires version != "" && !HasPrefix(version + ".tgz", b + "-")
    ensures var file := version + ".tgz";
            && TrimSuffix(TrimPrefix(file, b + "-"), ".tgz") == version && HasSuffix(file, ".tgz") && |file| > 4
            && ('/' !in version ==> '/' !in file)
  {
    ExtensionFits(version);
  }

  /** They need not be the same: a version has a second path, unless the file that is named after the version
      alone follows the convention by itself. */
  lemma UnconventionalSharesTheEntry(name: string, version: string)
    requires IsName(name) && version != "" && '/' !in version && !HasPrefix(version + ".tgz", Bare(name) + "-")
    ensures var path, path' := "/npm/" + name + "/-/" + (Bare(name) + "-" + version + ".tgz"), "/npm/" + name + "/-/" + (version + ".tgz");
            && Parse(path).Some? && Parse(path').Some?
            && Parse(path).value.Id() == Parse(path').value.Id() == Triple("npm", name, version)
            && Parse(path).value != Parse(path').value
  {
    var file, file' := Bare(name) + "-" + version + ".tgz", version + ".tgz";
    ConventionalName(Bare(name), version);
    BareName(Bare(name), version);
    ParseMatches("/npm/" + name + "/-/" + file, name, file);
    ParseMatches("/npm/" + name + "/-/" + file', name, file');
  }

  /** Two different requests for this name and version. */
  ghost predicate AreTwoPaths(path: string, path': string, t: Triple) {
    path != path' && Parse(path).Some? && Parse(path').Some? && Parse(path).value.Id() == t == Parse(path').value.Id()
  }

  lemma SecondIsBare(path: string, path': string, name: string, version: string)
    requires AreTwoPaths(path, path', Triple("npm", name, version))
    ensures !HasPrefix(version + ".tgz", Bare(name) + "-")
  {
    SharedEntryIff(path, path');
    var second := if Conventional(Parse(path).value) then path' else path;
    var name', file := ParsedMatches(second);
    VersionIsExact(name', file);
    assert "" + version + ".tgz" == version + ".tgz";
  }

  lemma BareIsSecond(name: string, version: string) returns (path: string, path': string)
    requires IsName(name) && version != "" && '/' !in version && !HasPrefix(version + ".tgz", Bare(name) + "-")
    ensures AreTwoPaths(path, path', Triple("npm", name, version))
  {
    UnconventionalSharesTheEntry(name, version);
    path, path' := "/npm/" + name + "/-/" + (Bare(name) + "-" + version + ".tgz"), "/npm/" + name + "/-/" + (version + ".tgz");
  }

  /** And in no other case: exactly these versions have more than one path. */
  lemma TwoPathsIff(name: string, version: string)
    requires IsName(name) && version != "" && '/' !in version
    ensures (exists path, path' :: AreTwoPaths(path, path', Triple("npm", name, version)))
            <==> !HasPrefix(version + ".tgz", Bare(name) + "-")
  {
    if path, path' :| AreTwoPaths(path, path', Triple("npm", name, version)) {
      SecondIsBare(path, path', name, version);
    }
    if !HasPrefix(version + ".tgz", Bare(name) + "-") {
      var path, path' := BareIsSecond(name, version);
    }
  }

  lemma KeysAreLongEnough(path: string)
    requires Parse(path).Some?
    ensures |Parse(path).value.CacheKey()| >= 12
  {
    var name, file := ParsedMatches(path);
  }

  // ---- Metadata ------------------------------------------------------------------------------------

  const UPSTREAM := "https://registry.npmjs.org"

  function RewriteMetadata(body: string, proxyBase: string): string {
    ReplaceAll(body, UPSTREAM, proxyBase + "/npm")
  }

  lemma UpstreamFits()
    ensures FitsAddress(UPSTREAM, "/npm") && UPSTREAM[6] == '/' == UPSTREAM[7]
    ensures '"' !in UPSTREAM
  {
  }

  /** No upstream address is left, unless the proxy's own address contains it. */
  lemma UpstreamRemainsIff(body: string, tls: bool, host: string)
    ensures Contains(RewriteMetadata(body, ProxyBase(tls, host)), "https://registry.npmjs.org")
            <==> && Contains(body, "https://registry.npmjs.org")
                 && Contains((if tls then "https" else "http") + "://" + host, "https://registry.npmjs.org")
  {
    UpstreamFits();
    AddressRemainsIff(body, UPSTREAM, "/npm", tls, host);
  }

  /** The path of a tarball below the registry. */
  function Tarball(name: string, file: string): string { "/" + name + "/-/" + file }

  lemma TarballsHaveNoEmptySegment(name: string, file: string)
    requires IsName(name) && '/' !in file
    ensures NoEmptySegment(Tarball(name, file))
  {
    var t := Tarball(name, file);
    assert t == ("/" + name) + ("/-/" + file);
    assert NoEmptySegment("/" + name) && name[|name| - 1] != '/';
  }

  /** An artifact URL in quotes anywhere in a manifest becomes a URL of the proxy, and when a client follows
      it, the upstream is asked for the original URL. */
  lemma RewrittenUrlLeadsBack(x: string, name: string, file: string, y: string, proxyBase: string)
    requires IsName(name) && '/' !in file && |file| > 4 && HasSuffix(file, ".tgz")
    ensures RewriteMetadata(x + ['"'] + (UPSTREAM + Tarball(name, file) + ['"'] + y), proxyBase)
            == RewriteMetadata(x, proxyBase) + ['"'] + (proxyBase + "/npm" + Tarball(name, file) + ['"'] + RewriteMetadata(y, proxyBase))
    ensures Parse("/npm" + Tarball(name, file)).Some?
    ensures UpstreamURL(UPSTREAM, Parse("/npm" + Tarball(name, file)).value) == UPSTREAM + Tarball(name, file)
  {
    UpstreamFits();
    TarballsHaveNoEmptySegment(name, file);
    SegmentsLackAddress(Tarball(name, file), UPSTREAM, 6);
    UrlIsRewritten(x, '"', Tarball(name, file), '"', y, UPSTREAM, proxyBase + "/npm");
    PathBelowRoot("/npm", name, file);
    assert "/npm" + "/" == "/npm/";
    ParseMatches("/npm" + Tarball(name, file), name, file);
    PathBelowRoot(UPSTREAM, name, file);
  }
}
