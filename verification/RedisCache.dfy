/** The Redis index as an expiring map (internal/cache/redis.go). */
module RedisCache {
  import opened Foundation
  import opened Keys

  datatype Entry = Entry(checksum: string, expiresAt: int)

  const DEFAULT_TTL: int := 24 * 3600 * 1_000_000_000

  /** What a GET at time now answers: an entry is gone once its time has come. */
  function Lookup(entries: map<string, Entry>, key: string, now: int): Option<string> {
    if key in entries && now < entries[key].expiresAt then Some(entries[key].checksum) else None
  }

  /** The entries that have not expired, as the map that a reader sees. */
  function Live(entries: map<string, Entry>, now: int): (m: map<string, string>)
    ensures forall k :: Lookup(entries, k, now) == if k in m then Some(m[k]) else None
  {
    map k | k in entries && now < entries[k].expiresAt :: entries[k].checksum
  }

  /** A set is visible at once, and removes or changes nothing else. */
  lemma SetIsLive(entries: map<string, Entry>, key: string, checksum: string, now: int, ttl: int)
    requires ttl > 0
    ensures Live(entries[key := Entry(checksum, now + ttl)], now) == Live(entries, now)[key := checksum]
  {
  }

  class Client {
    var entries: map<string, Entry>
    const ttl: int

    constructor (ttl: int)
      ensures entries == map[] && this.ttl == if ttl == 0 then 86_400_000_000_000 else ttl
    {
      entries := map[];
      this.ttl := if ttl == 0 then DEFAULT_TTL else ttl;
    }

    method Get(t: Triple, now: int, ok: bool) returns (checksum: Option<string>)
      ensures checksum == if ok then Lookup(entries, RedisKey(t), now) else None
    {
      var k := RedisKey(t);
      checksum := if ok && k in entries && now < entries[k].expiresAt then Some(entries[k].checksum) else None;
    }

    /** After a set at time now, and until ttl later, this key and no other reads differently. */
    method Set(t: Triple, checksum: string, now: int, ok: bool)
      modifies this`entries
      ensures !ok ==> entries == old(entries)
      ensures ok ==> forall k, at :: Lookup(entries, k, at) ==
                       if k == RedisKey(t) then (if at < now + ttl then Some(checksum) else None)
                       else Lookup(old(entries), k, at)
      ensures entries == if ok then old(entries)[RedisKey(t) := Entry(checksum, now + ttl)] else old(entries)
    {
      if ok { entries := entries[RedisKey(t) := Entry(checksum, now + ttl)]; }
    }

    method Delete(t: Triple, ok: bool)
      modifies this`entries
      ensures entries == if ok then old(entries) - {RedisKey(t)} else old(entries)
    {
      if ok { entries := entries - {RedisKey(t)}; }
    }
  }
}
