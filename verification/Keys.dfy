/** Package identities and the strings that index the Redis cache, the flights and the artifact store
    (internal/ecosystem/interface.go, internal/singleflight/singleflight.go, internal/cache/redis.go). */
module Keys {
  import opened Strings

  /** A parsed package request. */
  datatype Package = Package(
    ecosystem: string, name: string, version: string, filename: string, upstreamPath: string)
  {
    function Id(): Triple { Triple(ecosystem, name, version) }

    function CacheKey(): string {
      ecosystem + ":" + name + ":" + version + ":" + filename
    }
  }

  /** The columns of the packages table that its uniqueness constraint covers. */
  datatype Triple = Triple(ecosystem: string, name: string, version: string)

  function FlightKey(t: Triple): string {
    t.ecosystem + ":" + t.name + ":" + t.version
  }

  function RedisKey(t: Triple): string {
    "cpf:" + t.ecosystem + ":" + t.name + ":" + t.version
  }

  predicate ColonFree(s: string) { ':' !in s }

  /** No field other than the name holds a ':'. A Maven name is "group:artifact". */
  predicate WellFormed(p: Package) {
    ColonFree(p.ecosystem) && ColonFree(p.version) && ColonFree(p.filename)
  }

  predicate WellFormedId(t: Triple) {
    ColonFree(t.ecosystem) && ColonFree(t.version)
  }

  /** Two requests share a flight only when ecosystem, name and version agree. */
  lemma FlightKeyInjective(t: Triple, u: Triple)
    requires WellFormedId(t) && WellFormedId(u)
    requires FlightKey(t) == FlightKey(u)
    ensures t == u
  {
    assert t.ecosystem + [':'] + (t.name + [':'] + t.version) == FlightKey(t);
    assert u.ecosystem + [':'] + (u.name + [':'] + u.version) == FlightKey(u);
    SplitAtFirst(t.ecosystem, t.name + [':'] + t.version, u.ecosystem, u.name + [':'] + u.version, ':');
    SplitAtLast(t.name, t.version, u.name, u.version, ':');
  }

  /** A Redis key is its flight key behind a fixed prefix. */
  lemma RedisKeyIsPrefixed(t: Triple)
    ensures RedisKey(t) == "cpf:" + FlightKey(t)
  {
    assert RedisKey(t) == "cpf:" + FlightKey(t);
  }

  lemma RedisKeyAgrees(t: Triple, u: Triple)
    ensures RedisKey(t) == RedisKey(u) <==> FlightKey(t) == FlightKey(u)
  {
    RedisKeyIsPrefixed(t);
    RedisKeyIsPrefixed(u);
    if RedisKey(t) == RedisKey(u) {
      assert RedisKey(t)[4..] == FlightKey(t) && RedisKey(u)[4..] == FlightKey(u);
    }
  }

  /** A storage key is a flight key, a colon and the file name, so equal storage keys mean one flight. */
  lemma CacheKeySplits(p: Package, q: Package)
    requires ColonFree(p.filename) && ColonFree(q.filename)
    requires p.CacheKey() == q.CacheKey()
    ensures FlightKey(p.Id()) == FlightKey(q.Id()) && p.filename == q.filename
  {
    assert p.CacheKey() == FlightKey(p.Id()) + [':'] + p.filename;
    assert q.CacheKey() == FlightKey(q.Id()) + [':'] + q.filename;
    SplitAtLast(FlightKey(p.Id()), p.filename, FlightKey(q.Id()), q.filename, ':');
  }

  /** Distinct artifacts never share a storage object. */
  lemma CacheKeyInjective(p: Package, q: Package)
    requires WellFormed(p) && WellFormed(q)
    requires p.CacheKey() == q.CacheKey()
    ensures p.Id() == q.Id() && p.filename == q.filename
  {
    CacheKeySplits(p, q);
    FlightKeyInjective(p.Id(), q.Id());
  }

  /** None of the three conditions of WellFormed can be dropped. */
  lemma ColonsCollide()
    ensures Package("a:b", "c", "1", "f", "").CacheKey() == Package("a", "b:c", "1", "f", "").CacheKey()
    ensures FlightKey(Triple("a", "b", "1:2")) == FlightKey(Triple("a", "b:1", "2"))
    ensures Package("a", "b", "1", "2:f", "").CacheKey() == Package("a", "b:1", "2", "f", "").CacheKey()
  {
    assert Package("a:b", "c", "1", "f", "").CacheKey() == "a:b:c:1:f" == Package("a", "b:c", "1", "f", "").CacheKey();
    assert FlightKey(Triple("a", "b", "1:2")) == "a:b:1:2" == FlightKey(Triple("a", "b:1", "2"));
    assert Package("a", "b", "1", "2:f", "").CacheKey() == "a:b:1:2:f" == Package("a", "b:1", "2", "f", "").CacheKey();
  }
}
