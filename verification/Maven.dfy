/** The Maven handler (internal/ecosystem/maven.go). */
module Maven {
  import opened Foundation
  import opened Keys
  import opened Strings

  /** What follows the group in a path. */
  function Rest(artifact: string, version: string, file: string): string {
    "/" + artifact + "/" + version + "/" + file
  }

  /** ^/maven/(.+)/([^/]+)/([^/]+)/([^/]+\.jar)$ and the file is named after artifact and version */
  ghost predicate Matches(path: string, group: string, artifact: string, version: string, file: string) {
    && path == "/maven/" + group + Rest(artifact, version, file)
    && group != "" && '\n' !in group
    && artifact != "" && '/' !in artifact && version != "" && '/' !in version && '/' !in file
    && |file| > 4 && HasSuffix(file, ".jar") && HasPrefix(file, artifact + "-" + version)
  }

  function PackageOf(group: string, artifact: string, version: string, file: string): Package {
    Package("maven", ReplaceChar(group, '/', '.') + ":" + artifact, version, file, "")
  }

  const METADATA_SUFFIXES := ["/maven-metadata.xml", ".pom", ".md5", ".sha1", ".sha256"]

  /** ^/maven/.+(/maven-metadata\.xml|\.pom|\.md5|\.sha1|\.sha256)$ */
  predicate IsMetadata(path: string) {
    HasPrefix(path, "/maven/") &&
    exists i :: 0 <= i < |METADATA_SUFFIXES| && EndsWith(path[7..], METADATA_SUFFIXES[i])
  }

  /** .+ and then the suffix */
  predicate EndsWith(s: string, suffix: string) {
    |s| > |suffix| && HasSuffix(s, suffix) && '\n' !in TrimSuffix(s, suffix)
  }

  function ParseArtifact(path: string): Option<Package> {
    match CutLast(path, '/')
    case NoSeparator => None
    case At(dir, file) =>
      match CutLast(dir, '/')
      case NoSeparator => None
      case At(dir', version) =>
        match CutLast(dir', '/')
        case NoSeparator => None
        case At(top, artifact) =>
          if && HasPrefix(top, "/maven/") && |top| > 7 && '\n' !in top && artifact != "" && version != ""
             && |file| > 4 && HasSuffix(file, ".jar") && HasPrefix(file, artifact + "-" + version)
          then Some(PackageOf(top[7..], artifact, version, file))
          else None
  }

  function Parse(path: string): Option<Package> {
    if IsMetadata(path) then None else ParseArtifact(path)
  }

  lemma JarsAreNotMetadata(path: string)
    requires HasSuffix(path, ".jar")
    ensures !IsMetadata(path)
  {
    assert path[|path| - 1] == 'r' by { assert path[|path| - 4..][3] == 'r'; }
    assert forall i :: 0 <= i < |METADATA_SUFFIXES| ==>
             |METADATA_SUFFIXES[i]| > 0 && METADATA_SUFFIXES[i][|METADATA_SUFFIXES[i]| - 1] != 'r';
    forall i | 0 <= i < |METADATA_SUFFIXES| && HasPrefix(path, "/maven/") ensures !EndsWith(path[7..], METADATA_SUFFIXES[i]) {
      LastOfSuffix(path[7..], METADATA_SUFFIXES[i]);
    }
  }

  ghost predicate IsMetadataPath(path: string, front: string, suffix: string) {
    && path == "/maven/" + front + suffix && front != "" && '\n' !in front
    && suffix in {"/maven-metadata.xml", ".pom", ".md5", ".sha1", ".sha256"}
  }

  /** The metadata paths are those of the pattern. */
  lemma MetadataIff(path: string)
    ensures IsMetadata(path) <==> exists front, suffix :: IsMetadataPath(path, front, suffix)
  {
    if IsMetadata(path) {
      var i :| 0 <= i < |METADATA_SUFFIXES| && EndsWith(path[7..], METADATA_SUFFIXES[i]);
      MetadataHasFront(path, METADATA_SUFFIXES[i]);
    }
    if front, suffix :| IsMetadataPath(path, front, suffix) {
      var i := if suffix == "/maven-metadata.xml" then 0 else if suffix == ".pom" then 1 else if suffix == ".md5" then 2
               else if suffix == ".sha1" then 3 else 4;
      FrontIsMetadata(path, front, suffix);
      assert suffix == METADATA_SUFFIXES[i];
    }
  }

  lemma MetadataHasFront(path: string, suffix: string)
    requires HasPrefix(path, "/maven/") && EndsWith(path[7..], suffix)
    requires suffix in {"/maven-metadata.xml", ".pom", ".md5", ".sha1", ".sha256"}
    ensures IsMetadataPath(path, TrimSuffix(path[7..], suffix), suffix)
  {
    var rest := path[7..];
    assert path == "/maven/" + rest && rest == TrimSuffix(rest, suffix) + suffix;
    assert "/maven/" + (TrimSuffix(rest, suffix) + suffix) == "/maven/" + TrimSuffix(rest, suffix) + suffix;
  }

  lemma FrontIsMetadata(path: string, front: string, suffix: string)
    requires IsMetadataPath(path, front, suffix)
    ensures HasPrefix(path, "/maven/") && EndsWith(path[7..], suffix)
  {
    assert path[7..] == front + suffix && path[..7] == "/maven/";
    assert (front + suffix)[|front|..] == suffix && TrimSuffix(front + suffix, suffix) == front;
  }

  lemma LastOfSuffix(s: string, suffix: string)
    ensures suffix != "" && HasSuffix(s, suffix) ==> s[|s| - 1] == suffix[|suffix| - 1]
  {
    if suffix != "" && HasSuffix(s, suffix) {
      assert s[|s| - |suffix|..][|suffix| - 1] == s[|s| - 1];
    }
  }

  lemma Nested(top: string, artifact: string, version: string, file: string)
    ensures top + Rest(artifact, version, file) == top + ['/'] + artifact + ['/'] + version + ['/'] + file
  {
    var dir := top + ['/'] + artifact + ['/'] + version;
    assert top + ("/" + artifact) == top + ['/'] + artifact;
    assert top + ("/" + artifact + "/" + version) == dir;
    assert top + ("/" + artifact + "/" + version) + ("/" + file) == dir + ['/'] + file;
  }

  lemma EndsLikeFile(dir: string, file: string)
    requires HasSuffix(file, ".jar")
    ensures HasSuffix(dir + ['/'] + file, ".jar")
  {
    var path := dir + ['/'] + file;
    assert path[|path| - 4..] == file[|file| - 4..];
  }

  /** Parse accepts the paths of the pattern and returns its groups. */
  lemma ParseMatches(path: string, group: string, artifact: string, version: string, file: string)
    requires Matches(path, group, artifact, version, file)
    ensures Parse(path) == Some(PackageOf(group, artifact, version, file))
    ensures Parse(path) == Some(Package("maven", ReplaceChar(group, '/', '.') + ":" + artifact, version, file, ""))
  {
    var top := "/maven/" + group;
    var dir' := top + ['/'] + artifact;
    var dir := dir' + ['/'] + version;
    Nested(top, artifact, version, file);
    CutLastIs(dir, file, '/');
    CutLastIs(dir', version, '/');
    CutLastIs(top, artifact, '/');
    assert top[7..] == group;
    EndsLikeFile(dir, file);
    JarsAreNotMetadata(path);
  }

  /** and no others. */
  lemma ParsedMatches(path: string) returns (group: string, artifact: string, version: string, file: string)
    requires Parse(path).Some?
    ensures Matches(path, group, artifact, version, file)
    ensures Parse(path) == Some(PackageOf(group, artifact, version, file))
  {
    var a := CutLast(path, '/');
    var b := CutLast(a.before, '/');
    var c := CutLast(b.before, '/');
    group, artifact, version, file := c.before[7..], c.after, b.after, a.after;
    Nested(c.before, artifact, version, file);
    assert c.before == "/maven/" + group;
    assert forall i :: 0 <= i < |group| ==> group[i] == c.before[i + 7];
  }

  // ---- The upstream URL ----------------------------------------------------------------------------

  /** strings.SplitN(s, sep, 2) when sep occurs */
  function CutFirst(s: string, sep: char): (r: (string, string))
    requires sep in s
    ensures s == r.0 + [sep] + r.1 && sep !in r.0
  {
    if s[0] == sep then ("", s[1..]) else
      var (before, after) := CutFirst(s[1..], sep);
      assert [s[0]] + (before + [sep] + after) == ([s[0]] + before) + [sep] + after;
      ([s[0]] + before, after)
  }

  function UpstreamURL(base: string, p: Package): string
    requires ':' in p.name
  {
    var (group, artifact) := CutFirst(p.name, ':');
    base + "/" + ReplaceChar(group, '.', '/') + Rest(artifact, p.version, p.filename)
  }

  lemma GroupComesBack(group: string)
    ensures ReplaceChar(ReplaceChar(group, '/', '.'), '.', '/') == group <==> '.' !in group
  {
    var g := ReplaceChar(group, '/', '.');
    var h := ReplaceChar(g, '.', '/');
    if '.' !in group {
      assert forall i :: 0 <= i < |group| ==> h[i] == group[i];
      assert h == group;
    } else {
      var i :| 0 <= i < |group| && group[i] == '.';
      assert g[i] == '.' && h[i] == '/';
    }
  }

  lemma FirstIsFirst(s: string, sep: char, i: nat)
    requires i < |s| && s[i] == sep
    ensures var n := |CutFirst(s, sep).0|; n <= i && s[n] == sep
  {
    var (first, second) := CutFirst(s, sep);
    assert forall k :: 0 <= k < |first| ==> s[k] == first[k];
  }

  lemma CharAfter(a: string, b: string, c: string, k: nat)
    requires k < |b|
    ensures |a + b + c| > |a| + k && (a + b + c)[|a| + k] == b[k]
  {
  }

  /** A colon in the group moves the boundary between group and artifact. */
  lemma ColonMoves(base: string, group: string, artifact: string, version: string, file: string)
    requires ':' in group
    ensures UpstreamURL(base, PackageOf(group, artifact, version, file)) != base + "/" + group + Rest(artifact, version, file)
  {
    var p := PackageOf(group, artifact, version, file);
    var g := ReplaceChar(group, '/', '.');
    assert g == p.name[..|g|];
    var i :| 0 <= i < |group| && group[i] == ':';
    assert g[i] == ':' && p.name[i] == ':';
    FirstIsFirst(p.name, ':', i);
    var (first, second) := CutFirst(p.name, ':');
    var n := |first|;
    assert g[n] == ':' && group[n] == ':';
    CharAfter(base + "/", group, Rest(artifact, version, file), n);
    FirstOfRest(base + "/" + ReplaceChar(first, '.', '/'), second, version, file);
  }

  lemma FirstOfRest(front: string, artifact: string, version: string, file: string)
    ensures var s := front + Rest(artifact, version, file); |s| > |front| && s[|front|] == '/'
  {
    assert Rest(artifact, version, file)[0] == '/';
  }

  /** Without a colon the group is cut off where it was joined. */
  lemma GroupIsCut(group: string, artifact: string, version: string, file: string, base: string)
    requires ':' !in group
    ensures UpstreamURL(base, PackageOf(group, artifact, version, file))
            == base + "/" + ReplaceChar(ReplaceChar(group, '/', '.'), '.', '/') + Rest(artifact, version, file)
  {
    var p := PackageOf(group, artifact, version, file);
    var g := ReplaceChar(group, '/', '.');
    assert ':' !in g;
    var (first, second) := CutFirst(p.name, ':');
    assert p.name == g + [':'] + artifact;
    SplitAtFirst(first, second, g, artifact, ':');
  }

  /** The upstream is asked for the very path that the client asked for, if and only if no segment of the
      group contains '.' or ':'. */
  lemma UpstreamRestoresPathIff(path: string, group: string, artifact: string, version: string, file: string, base: string)
    requires Matches(path, group, artifact, version, file)
    ensures Parse(path).Some? && ':' in Parse(path).value.name
    ensures UpstreamURL(base, Parse(path).value) == base + path[6..] <==> '.' !in group && ':' !in group
  {
    ParseMatches(path, group, artifact, version, file);
    var rest := Rest(artifact, version, file);
    assert PackageOf(group, artifact, version, file).name[|group|] == ':';
    BelowMaven(base, group, rest);
    if ':' in group {
      ColonMoves(base, group, artifact, version, file);
    } else {
      var h := ReplaceChar(ReplaceChar(group, '/', '.'), '.', '/');
      GroupIsCut(group, artifact, version, file, base);
      GroupComesBack(group);
      SameTail(base, h, group, rest);
    }
  }

  lemma BelowMaven(base: string, group: string, rest: string)
    ensures base + ("/maven/" + group + rest)[6..] == base + "/" + group + rest
  {
    assert ("/maven/" + group + rest)[6..] == "/" + group + rest;
    assert base + ("/" + group + rest) == base + "/" + group + rest;
  }

  lemma SameTail(base: string, g: string, h: string, tail: string)
    requires |g| == |h|
    ensures base + "/" + g + tail == base + "/" + h + tail <==> g == h
  {
    var s, t := base + "/" + g + tail, base + "/" + h + tail;
    assert s[|base| + 1..|base| + 1 + |g|] == g && t[|base| + 1..|base| + 1 + |h|] == h;
  }

  /** The jar of an artifact, or the jar with one of its classifiers. */
  function JarName(artifact: string, version: string, classifier: string): string {
    artifact + "-" + version + (if classifier == "" then "" else "-" + classifier) + ".jar"
  }

  lemma JarMatches(group: string, artifact: string, version: string, classifier: string)
    requires group != "" && '\n' !in group && artifact != "" && '/' !in artifact && version != "" && '/' !in version
    requires '/' !in classifier
    ensures var file := JarName(artifact, version, classifier);
            Matches("/maven/" + group + Rest(artifact, version, file), group, artifact, version, file)
  {
    var stem := artifact + "-" + version;
    var stem' := stem + (if classifier == "" then "" else "-" + classifier);
    assert stem' + ".jar" == JarName(artifact, version, classifier);
    assert HasPrefix(stem', stem);
  }

  /** Requests with one group, artifact and version are one cache entry, whatever their file: the first jar
      that is cached is served for all classifier jars, too. */
  lemma ClassifiersShareTheEntry(group: string, artifact: string, version: string, classifier: string)
    requires group != "" && '\n' !in group && artifact != "" && '/' !in artifact && version != "" && '/' !in version
    requires classifier != "" && '/' !in classifier
    ensures var path, path' := "/maven/" + group + Rest(artifact, version, JarName(artifact, version, "")),
                               "/maven/" + group + Rest(artifact, version, JarName(artifact, version, classifier));
            && Parse(path).Some? && Parse(path').Some?
            && Parse(path).value.Id() == Parse(path').value.Id() && Parse(path).value != Parse(path').value
  {
    var file, file' := JarName(artifact, version, ""), JarName(artifact, version, classifier);
    assert |file| < |file'|;
    JarMatches(group, artifact, version, "");
    JarMatches(group, artifact, version, classifier);
    ParseMatches("/maven/" + group + Rest(artifact, version, file), group, artifact, version, file);
    ParseMatches("/maven/" + group + Rest(artifact, version, file'), group, artifact, version, file');
  }

  /** What a file name adds to artifact and version: classifier and extension. */
  function Classifier(artifact: string, version: string, file: string): string
    requires HasPrefix(file, artifact + "-" + version)
  {
    file[|artifact| + 1 + |version|..]
  }

  /** No segment of the group contains '.', and the artifact no ':'. */
  predicate Ordinary(group: string, artifact: string) { '.' !in group && ':' !in artifact }

  lemma GroupsAreUnique(path: string, group: string, artifact: string, version: string, file: string,
                        group': string, artifact': string, version': string, file': string)
    requires Matches(path, group, artifact, version, file) && Matches(path, group', artifact', version', file')
    ensures group == group' && artifact == artifact' && version == version' && file == file'
  {
    var top, top' := "/maven/" + group, "/maven/" + group';
    Nested(top, artifact, version, file);
    Nested(top', artifact', version', file');
    SplitAtLast(top + ['/'] + artifact + ['/'] + version, file, top' + ['/'] + artifact' + ['/'] + version', file', '/');
    SplitAtLast(top + ['/'] + artifact, version, top' + ['/'] + artifact', version', '/');
    SplitAtLast(top, artifact, top', artifact', '/');
    assert top[7..] == group && top'[7..] == group';
  }

  lemma SameName(group: string, artifact: string, group': string, artifact': string)
    requires ReplaceChar(group, '/', '.') + ":" + artifact == ReplaceChar(group', '/', '.') + ":" + artifact'
    ensures group == group' ==> artifact == artifact'
    ensures Ordinary(group, artifact) && Ordinary(group', artifact') ==> group == group' && artifact == artifact'
  {
    var g, g' := ReplaceChar(group, '/', '.'), ReplaceChar(group', '/', '.');
    if group == group' {
      assert (g + ":" + artifact)[|g| + 1..] == artifact && (g' + ":" + artifact')[|g'| + 1..] == artifact';
    } else if Ordinary(group, artifact) && Ordinary(group', artifact') {
      SplitAtLast(g, artifact, g', artifact', ':');
      GroupComesBack(group);
      GroupComesBack(group');
    }
  }

  lemma SameFile(artifact: string, version: string, file: string, file': string)
    requires HasPrefix(file, artifact + "-" + version) && HasPrefix(file', artifact + "-" + version)
    ensures file == file' <==> Classifier(artifact, version, file) == Classifier(artifact, version, file')
  {
    var stem := artifact + "-" + version;
    assert file == stem + Classifier(artifact, version, file) && file' == stem + Classifier(artifact, version, file');
  }

  /** What a triple forgets: two requests with one triple are the same if and only if group and file agree,
      and of ordinary coordinates if and only if classifier and extension do. */
  lemma SharedEntryIff(path: string, group: string, artifact: string, version: string, file: string,
                       path': string, group': string, artifact': string, version': string, file': string)
    requires Matches(path, group, artifact, version, file) && Matches(path', group', artifact', version', file')
    requires PackageOf(group, artifact, version, file).Id() == PackageOf(group', artifact', version', file').Id()
    ensures path == path' <==> group == group' && file == file'
    ensures Parse(path) == Parse(path') <==> file == file'
    ensures Ordinary(group, artifact) && Ordinary(group', artifact') ==>
              (path == path' <==> Classifier(artifact, version, file) == Classifier(artifact', version', file'))
  {
    ParseMatches(path, group, artifact, version, file);
    ParseMatches(path', group', artifact', version', file');
    SameName(group, artifact, group', artifact');
    if path == path' {
      GroupsAreUnique(path, group, artifact, version, file, group', artifact', version', file');
    }
    if artifact == artifact' { SameFile(artifact, version, file, file'); }
  }

  lemma KeysAreLongEnough(path: string)
    requires Parse(path).Some?
    ensures |Parse(path).value.CacheKey()| >= 12
  {
    var group, artifact, version, file := ParsedMatches(path);
  }
}
