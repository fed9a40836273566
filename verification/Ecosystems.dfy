/** What the handlers' requests mean for the cache as a whole: for which of them its runs are transparent. */
module Ecosystems {
  import opened Foundation
  import opened Keys
  import opened Strings
  import opened Upstream
  import CacheSystem
  import GoMod
  import Maven
  import Migrate
  import MigratePool
  import Npm
  import PackageStore
  import Provenance
  import Pypi
  import Transparency

  /** Requested from a Go client, which escapes upper-case letters. */
  ghost predicate CanonicalGo(p: Package) {
    exists path, encoded, version ::
      GoMod.Matches(path, encoded, version) && GoMod.Canonical(encoded) && GoMod.Parse(path) == Some(p) && ColonFree(version)
  }

  /** A tarball that is named as the npm registry names it. */
  ghost predicate ConventionalNpm(p: Package) {
    WellFormed(p) && Npm.Conventional(p) && exists path :: Npm.Parse(path) == Some(p)
  }

  /** The jar of a Maven artifact, without classifier. */
  ghost predicate MainJar(p: Package) {
    exists path, group, artifact, version ::
      && Maven.Matches(path, group, artifact, version, Maven.JarName(artifact, version, ""))
      && Maven.Parse(path) == Some(p) && ColonFree(artifact) && ColonFree(version)
  }

  /** A wheel or source distribution with a standard name, in the directory where the registry keeps it. */
  ghost predicate StandardPypi(p: Package, where: string -> string) {
    WellFormed(p) && exists path, name, version, ext :: IsStandardPypi(p, where, path, name, version, ext)
  }

  predicate IsStandardPypi(p: Package, where: string -> string, path: string, name: string, version: string, ext: string) {
    && Pypi.Parse(path) == Some(p) && Pypi.Standard(p.filename, name, version, ext)
    && path == "/pypi/packages/" + where(p.filename) + "/" + p.filename
  }

  /** What the clients ask for; where maps the name of a file on PyPI to its directory. */
  ghost predicate Plain(p: Package, where: string -> string) {
    CanonicalGo(p) || ConventionalNpm(p) || MainJar(p) || StandardPypi(p, where)
  }

  ghost function PlainPackages(where: string -> string): iset<Package> { iset p: Package | Plain(p, where) }

  lemma GoIs(p: Package) returns (path: string, encoded: string, version: string)
    requires CanonicalGo(p)
    ensures GoMod.Matches(path, encoded, version) && GoMod.Canonical(encoded) && GoMod.Parse(path) == Some(p)
    ensures p == GoMod.PackageOf(encoded, version) && WellFormed(p)
  {
    path, encoded, version :|
      GoMod.Matches(path, encoded, version) && GoMod.Canonical(encoded) && GoMod.Parse(path) == Some(p) && ColonFree(version);
    GoMod.ParseMatches(path, encoded, version);
  }

  lemma NpmIs(p: Package) returns (path: string)
    requires ConventionalNpm(p)
    ensures Npm.Parse(path) == Some(p) && p.ecosystem == "npm" && WellFormed(p)
  {
    path :| Npm.Parse(path) == Some(p);
    var name, file := Npm.ParsedMatches(path);
  }

  lemma JarIs(p: Package) returns (group: string, artifact: string, version: string)
    requires MainJar(p)
    ensures p == Maven.PackageOf(group, artifact, version, Maven.JarName(artifact, version, ""))
    ensures ColonFree(artifact) && WellFormed(p)
  {
    var path;
    path, group, artifact, version :|
      && Maven.Matches(path, group, artifact, version, Maven.JarName(artifact, version, ""))
      && Maven.Parse(path) == Some(p) && ColonFree(artifact) && ColonFree(version);
    Maven.ParseMatches(path, group, artifact, version, Maven.JarName(artifact, version, ""));
    JarNameIsColonFree(group, artifact, version);
  }

  lemma JarNameIsColonFree(group: string, artifact: string, version: string)
    requires ColonFree(artifact) && ColonFree(version)
    ensures WellFormed(Maven.PackageOf(group, artifact, version, Maven.JarName(artifact, version, "")))
  {
    var stem := artifact + "-" + version;
    assert ColonFree(stem) && stem + "" == stem;
    assert ColonFree(stem + ".jar") && ColonFree("maven");
  }

  lemma PypiIs(p: Package, where: string -> string) returns (path: string, name: string, version: string, ext: string)
    requires StandardPypi(p, where)
    ensures IsStandardPypi(p, where, path, name, version, ext)
    ensures Pypi.SplitFile(p.filename).Some? && p == Pypi.PackageOf(path, p.filename)
  {
    path, name, version, ext :| IsStandardPypi(p, where, path, name, version, ext);
    var root, a, b, c, file := Pypi.ParsedMatches(path);
  }

  lemma PlainIsWellFormed(p: Package, where: string -> string)
    requires Plain(p, where)
    ensures WellFormed(p)
    ensures CanonicalGo(p) <==> p.ecosystem == "go"
    ensures ConventionalNpm(p) <==> p.ecosystem == "npm"
    ensures MainJar(p) <==> p.ecosystem == "maven"
    ensures StandardPypi(p, where) <==> p.ecosystem == "pypi"
  {
    if CanonicalGo(p) { var path, encoded, version := GoIs(p); }
    if ConventionalNpm(p) { var path := NpmIs(p); }
    if MainJar(p) { var group, artifact, version := JarIs(p); }
    if StandardPypi(p, where) { var path, name, version, ext := PypiIs(p, where); }
  }

  lemma GoIsDetermined(p: Package, q: Package)
    requires CanonicalGo(p) && CanonicalGo(q) && p.Id() == q.Id()
    ensures p == q
  {
    var path, encoded, version := GoIs(p);
    var path', encoded', version' := GoIs(q);
    GoMod.CanonicalRequestsAreDetermined(path, encoded, version, path', encoded', version');
  }

  lemma NpmIsDetermined(p: Package, q: Package)
    requires ConventionalNpm(p) && ConventionalNpm(q) && p.Id() == q.Id()
    ensures p == q
  {
    var path := NpmIs(p);
    var path' := NpmIs(q);
    Npm.SharedEntryIff(path, path');
  }

  lemma JarsAreDetermined(p: Package, q: Package)
    requires MainJar(p) && MainJar(q) && p.Id() == q.Id()
    ensures p == q
  {
    var group, artifact, version := JarIs(p);
    var group', artifact', version' := JarIs(q);
    SplitAtLast(ReplaceChar(group, '/', '.'), artifact, ReplaceChar(group', '/', '.'), artifact', ':');
  }

  lemma PypiIsDetermined(p: Package, q: Package, where: string -> string)
    requires StandardPypi(p, where) && StandardPypi(q, where) && p.Id() == q.Id()
    ensures p == q
  {
    var path, name, version, ext := PypiIs(p, where);
    var path', name', version', ext' := PypiIs(q, where);
    Pypi.StandardIsFixed(path, p.filename, name, version, ext, path', q.filename, name', version', ext');
  }

  /** Whatever the clients of these ecosystems request together, ecosystem, name and version fix the artifact. */
  lemma PlainIsDetermined(where: string -> string)
    ensures Provenance.WellFormedRequests(PlainPackages(where)) && Transparency.TripleDetermines(PlainPackages(where))
  {
    forall p | p in PlainPackages(where) ensures WellFormed(p) {
      PlainIsWellFormed(p, where);
    }
    forall p, q | p in PlainPackages(where) && q in PlainPackages(where) && p.Id() == q.Id() ensures p == q {
      PlainIsWellFormed(p, where);
      PlainIsWellFormed(q, where);
      if p.ecosystem == "go" {
        GoIsDetermined(p, q);
      } else if p.ecosystem == "npm" {
        NpmIsDetermined(p, q);
      } else if p.ecosystem == "pypi" {
        PypiIsDetermined(p, q, where);
      } else {
        JarsAreDetermined(p, q);
      }
    }
  }

  /** So each answer 200 to such a client is what the upstream once returned for that very request. */
  lemma PlainRunsAreTransparent(cfg: RetryConfig, ttl: int, start: int, s: CacheSystem.State, where: string -> string)
    requires cfg.maxAttempts >= 1 && Transparency.Reachable(CacheSystem.Empty(cfg, ttl, start), s, PlainPackages(where))
    ensures Transparency.Transparent(s)
  {
    var U := PlainPackages(where);
    PlainIsDetermined(where);
    var s0 := CacheSystem.Empty(cfg, ttl, start);
    var actions :| CacheSystem.IsRun(s0, actions, U) && CacheSystem.Exec(s0, actions, U) == s;
    Transparency.DeterminedRunsAreTransparent(cfg, ttl, start, actions, U);
  }

  /** A run in which a request for `path'` is answered with what was fetched for `path`. */
  ghost predicate Confused(s: CacheSystem.State, p: Package, q: Package, b: Bytes) {
    && s.gets == [CacheSystem.GetRecord(p, Fetched(b))] && p != q
    && exists d :: d in s.deliveries && d.pkg == q && d.sent == b && d.complete
  }

  /** The client of a classifier jar can be served the main jar. */
  lemma ClassifierGetsMainJar(cfg: RetryConfig, ttl: int, start: int, group: string, artifact: string, version: string,
                              classifier: string, b: Bytes)
    returns (p: Package, q: Package, s: CacheSystem.State)
    requires cfg.maxAttempts >= 1
    requires group != "" && '\n' !in group && artifact != "" && '/' !in artifact && version != "" && '/' !in version
    requires classifier != "" && '/' !in classifier
    ensures p.filename == Maven.JarName(artifact, version, "") && q.filename == Maven.JarName(artifact, version, classifier)
    ensures Transparency.Reachable(CacheSystem.Empty(cfg, ttl, start), s, iset{p, q}) && Confused(s, p, q, b)
  {
    Maven.ClassifiersShareTheEntry(group, artifact, version, classifier);
    var file, file' := Maven.JarName(artifact, version, ""), Maven.JarName(artifact, version, classifier);
    p, q := Maven.PackageOf(group, artifact, version, file), Maven.PackageOf(group, artifact, version, file');
    assert |file| < |file'|;
    s := Transparency.SharedTripleConfuses(cfg, ttl, start, p, q, b, iset{p, q});
  }

  /** The client of a zip file on PyPI can be served the tar file of the same version. */
  lemma ZipGetsTarball(cfg: RetryConfig, ttl: int, start: int, a: string, b: string, c: string,
                       a': string, b': string, c': string, stem: string, body: Bytes)
    returns (p: Package, q: Package, s: CacheSystem.State)
    requires cfg.maxAttempts >= 1
    requires Pypi.Matches("/pypi/packages/" + Pypi.Location(a, b, c, stem + ".tar.gz"), "", a, b, c, stem + ".tar.gz")
    requires Pypi.IsSegment(a') && Pypi.IsSegment(b') && Pypi.IsSegment(c')
    requires !Contains("/pypi/packages/" + Pypi.Location(a', b', c', stem + ".zip"), "/simple/")
    ensures Pypi.Parse("/pypi/packages/" + Pypi.Location(a, b, c, stem + ".tar.gz")) == Some(p)
    ensures Pypi.Parse("/pypi/packages/" + Pypi.Location(a', b', c', stem + ".zip")) == Some(q)
    ensures Transparency.Reachable(CacheSystem.Empty(cfg, ttl, start), s, iset{p, q}) && Confused(s, p, q, body)
  {
    Pypi.SourcesShareTheEntry(a, b, c, a', b', c', stem);
    p := Pypi.Parse("/pypi/packages/" + Pypi.Location(a, b, c, stem + ".tar.gz")).value;
    q := Pypi.Parse("/pypi/packages/" + Pypi.Location(a', b', c', stem + ".zip")).value;
    s := Transparency.SharedTripleConfuses(cfg, ttl, start, p, q, body, iset{p, q});
  }

  // ---- The migration tool on rows of the cache -----------------------------------------------------

  /** Some handler makes p out of a path. */
  ghost predicate ParsedFrom(p: Package, path: string) {
    GoMod.Parse(path) == Some(p) || Npm.Parse(path) == Some(p) || Maven.Parse(path) == Some(p) || Pypi.Parse(path) == Some(p)
  }

  ghost predicate Requestable(U: iset<Package>) {
    forall p :: p in U ==> exists path :: ParsedFrom(p, path)
  }

  lemma ParsedKeysAreLong(p: Package, path: string)
    requires ParsedFrom(p, path)
    ensures |p.CacheKey()| >= 12
  {
    if GoMod.Parse(path) == Some(p) { GoMod.KeysAreLongEnough(path); }
    if Npm.Parse(path) == Some(p) { Npm.KeysAreLongEnough(path); }
    if Maven.Parse(path) == Some(p) { Maven.KeysAreLongEnough(path); }
    if Pypi.Parse(path) == Some(p) { Pypi.KeysAreLongEnough(path); }
  }

  lemma NamedKeysAreLong(s: CacheSystem.State, U: iset<Package>, key: string, c: string)
    requires Provenance.Prov(s, U) && Requestable(U) && Provenance.Names(s.gets, key, c)
    ensures |c| >= 12
  {
    var g :| g in s.gets && g.result.Fetched? && FlightKey(g.pkg.Id()) == key && g.pkg.CacheKey() == c;
    var path :| ParsedFrom(g.pkg, path);
    ParsedKeysAreLong(g.pkg, path);
  }

  ghost predicate RowsOf(rows: seq<PackageStore.Row>, t: PackageStore.Table) {
    forall i :: 0 <= i < |rows| ==> rows[i].key in t.rows && t.rows[rows[i].key] == rows[i]
  }

  /** Over the rows of any reachable state of the cache, the migration tool never panics on the twelve
      characters that it prints of a checksum. */
  lemma MigrationNeverPanics(cfg: RetryConfig, ttl: int, start: int, s: CacheSystem.State, U: iset<Package>,
                             rows: seq<PackageStore.Row>, work: seq<Migrate.Entry>)
    requires cfg.maxAttempts >= 1 && Provenance.WellFormedRequests(U) && Requestable(U)
    requires Transparency.Reachable(CacheSystem.Empty(cfg, ttl, start), s, U)
    requires RowsOf(rows, s.table) && Migrate.WorkFor(rows, work)
    ensures MigratePool.LongEnough(work)
  {
    var s0 := CacheSystem.Empty(cfg, ttl, start);
    var actions :| CacheSystem.IsRun(s0, actions, U) && CacheSystem.Exec(s0, actions, U) == s;
    Provenance.EmptyHasProvenance(cfg, ttl, start, U);
    Provenance.RunKeepsProvenance(s0, actions, U);
    forall i | 0 <= i < |work| ensures |work[i].checksum| >= 12 {
      assert Migrate.FromFirst(rows, work[i]);
      var j: nat :| Migrate.IsFirst(rows, j) && work[i] == Migrate.EntryOf(rows[j]);
      NamedKeysAreLong(s, U, FlightKey(rows[j].key), rows[j].checksum);
    }
  }
}
