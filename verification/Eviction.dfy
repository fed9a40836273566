/** One cycle of the eviction worker against the three stores, with any of its calls failing
    (internal/eviction/eviction.go). */
module Eviction {
  import opened Foundation
  import opened Keys
  import opened ObjectStore
  import opened PackageStore
  import opened RedisCache

  /** Which of the three calls of evictOne would succeed. */
  datatype Calls = Calls(storage: bool, redis: bool, table: bool)

  /** The three stores; the Redis entries may hold more than the checksum. */
  datatype Stores<E> = Stores(table: Table, entries: map<string, E>, objects: map<string, Bytes>)

  /** Storage first, Redis regardless of its outcome, the row last. */
  function EvictRow<E>(v: Stores<E>, row: Row, calls: Calls): Stores<E> {
    if !calls.storage then v
    else
      Stores(if calls.table then Delete(v.table, row.id) else v.table,
             if calls.redis then v.entries - {RedisKey(row.key)} else v.entries,
             v.objects - {row.checksum})
  }

  predicate Evicts(calls: Calls) { calls.storage && calls.table }

  /** The first n rows of a listing are evicted one by one. */
  function EvictRows<E>(v: Stores<E>, rows: seq<Row>, calls: nat -> Calls, n: nat): Stores<E>
    requires n <= |rows|
  {
    if n == 0 then v else EvictRow(EvictRows(v, rows, calls, n - 1), rows[n - 1], calls(n - 1))
  }

  function CountEvicted(calls: nat -> Calls, n: nat): nat {
    if n == 0 then 0 else CountEvicted(calls, n - 1) + (if Evicts(calls(n - 1)) then 1 else 0)
  }

  function SizeEvicted(rows: seq<Row>, calls: nat -> Calls, n: nat): int
    requires n <= |rows|
  {
    if n == 0 then 0 else SizeEvicted(rows, calls, n - 1) + (if Evicts(calls(n - 1)) then rows[n - 1].size else 0)
  }

  class Worker {
    const db: Database
    const cache: Client
    const store: Backend
    const ttl: int

    constructor (db: Database, cache: Client, store: Backend, ttl: int)
      ensures this.db == db && this.cache == cache && this.store == store && this.ttl == ttl
    {
      this.db, this.cache, this.store, this.ttl := db, cache, store, ttl;
    }

    ghost function View(): Stores<Entry>
      reads db, cache, store
    {
      Stores(db.table, cache.entries, store.objects)
    }

    method EvictOne(row: Row, calls: Calls) returns (ok: bool)
      requires ValidTable(db.table)
      modifies db`table, cache`entries, store`objects
      ensures ValidTable(db.table)
      ensures ok == (calls.storage && calls.table) && View() == EvictRow(old(View()), row, calls)
      ensures store.objects == if calls.storage then old(store.objects) - {row.checksum} else old(store.objects)
      ensures cache.entries == if calls.storage && calls.redis then old(cache.entries) - {RedisKey(row.key)} else old(cache.entries)
      ensures forall k :: k in db.table.rows <==> k in old(db.table).rows && !(ok && old(db.table).rows[k].id == row.id)
    {
      store.Delete(row.checksum, calls.storage);
      if !calls.storage {
        return false;
      }
      cache.Delete(row.key, calls.redis);
      db.DeletePackage(row.id, calls.table);
      ok := calls.table;
    }

    /** The loop of evict over the listed rows. */
    method EvictListed(pkgs: seq<Row>, calls: nat -> Calls) returns (evicted: nat, failed: nat, bytesFreed: int)
      requires ValidTable(db.table)
      modifies db`table, cache`entries, store`objects
      ensures ValidTable(db.table) && View() == EvictRows(old(View()), pkgs, calls, |pkgs|)
      ensures evicted + failed == |pkgs| && evicted == CountEvicted(calls, |pkgs|)
      ensures bytesFreed == SizeEvicted(pkgs, calls, |pkgs|)
    {
      evicted, failed, bytesFreed := 0, 0, 0;
      ghost var before := View();
      for i := 0 to |pkgs|
        invariant ValidTable(db.table)
        invariant View() == EvictRows(before, pkgs, calls, i)
        invariant evicted + failed == i && evicted == CountEvicted(calls, i)
        invariant bytesFreed == SizeEvicted(pkgs, calls, i)
      {
        var ok := EvictOne(pkgs[i], calls(i));
        if !ok {
          failed := failed + 1;
          continue;
        }
        evicted := evicted + 1;
        bytesFreed := bytesFreed + pkgs[i].size;
      }
    }

    /** evict at time now. listOk says whether the listing succeeds; calls(i) is the fate of row i. A row that
        was used within ttl stays, whatever happens, and when nothing fails no other cached row does. */
    method Evict(now: int, listOk: bool, calls: nat -> Calls)
      returns (err: bool, evicted: nat, failed: nat, bytesFreed: int, ghost listed: seq<Row>)
      requires ValidTable(db.table)
      modifies db`table, cache`entries, store`objects
      ensures ValidTable(db.table)
      ensures err == !listOk && (err ==> listed == [] && View() == old(View()))
      ensures !err ==> IsExpiredListing(old(db.table), now - ttl, listed)
      ensures KeepsUsed(old(db.table), db.table, now - ttl)
      ensures !err && NothingFails(calls) ==> OnlyUsedAreLeft(db.table, now - ttl)
      ensures View() == EvictRows(old(View()), listed, calls, |listed|)
      ensures evicted + failed == |listed| && evicted == CountEvicted(calls, |listed|)
      ensures bytesFreed == SizeEvicted(listed, calls, |listed|)
    {
      evicted, failed, bytesFreed, listed := 0, 0, 0, [];
      if !listOk {
        return true, 0, 0, 0, [];
      }
      err := false;
      ghost var before := View();
      var pkgs := db.ListExpiredPackages(now - ttl);
      listed := pkgs;
      evicted, failed, bytesFreed := EvictListed(pkgs, calls);
      CycleIsExact(before, now - ttl, pkgs, calls);
    }
  }

  // ---- What a cycle does ---------------------------------------------------------------------------

  /** Row k was listed at position i < n. */
  ghost predicate ListedBefore(rows: seq<Row>, n: nat, i: nat, k: Triple)
    requires n <= |rows|
  {
    i < n && rows[i].key == k
  }

  /** Row k was one of the first n, and evicting it succeeded. */
  ghost predicate EvictedBefore(rows: seq<Row>, calls: nat -> Calls, n: nat, k: Triple)
    requires n <= |rows|
  {
    exists i: nat :: ListedBefore(rows, n, i, k) && calls(i).storage && calls(i).table
  }

  lemma OneMoreEvicted(rows: seq<Row>, calls: nat -> Calls, n: nat, k: Triple)
    requires 0 < n <= |rows|
    ensures EvictedBefore(rows, calls, n, k)
            <==> EvictedBefore(rows, calls, n - 1, k) || (rows[n - 1].key == k && Evicts(calls(n - 1)))
  {
    if EvictedBefore(rows, calls, n - 1, k) {
      var i: nat :| ListedBefore(rows, n - 1, i, k) && Evicts(calls(i));
      assert ListedBefore(rows, n, i, k);
    }
    if rows[n - 1].key == k && Evicts(calls(n - 1)) { assert ListedBefore(rows, n, n - 1, k); }
    if EvictedBefore(rows, calls, n, k) {
      var i: nat :| ListedBefore(rows, n, i, k) && Evicts(calls(i));
      assert i < n - 1 ==> ListedBefore(rows, n - 1, i, k);
    }
  }

  /** After n rows of a listing: exactly the rows evicted so far are gone, and no other row changed. */
  lemma {:induction false} RowsGone<E>(v: Stores<E>, cutoff: int, rows: seq<Row>, calls: nat -> Calls, n: nat, k: Triple)
    requires ValidTable(v.table) && IsExpiredListing(v.table, cutoff, rows) && n <= |rows|
    ensures var t := EvictRows(v, rows, calls, n).table;
            && (k in t.rows <==> k in v.table.rows && !EvictedBefore(rows, calls, n, k))
            && (k in t.rows ==> t.rows[k] == v.table.rows[k])
  {
    if n > 0 {
      RowsGone(v, cutoff, rows, calls, n - 1, k);
      var w := EvictRows(v, rows, calls, n - 1);
      var row := rows[n - 1];
      assert row.key in v.table.rows && v.table.rows[row.key] == row;
      OneMoreEvicted(rows, calls, n, k);
      if k in w.table.rows {
        assert w.table.rows[k].id == row.id <==> k == row.key;
      }
    }
  }

  /** An object is gone exactly if a listed row with its checksum got past the storage delete. */
  lemma {:induction false} ObjectsGone<E>(v: Stores<E>, rows: seq<Row>, calls: nat -> Calls, n: nat, c: string)
    requires n <= |rows|
    ensures var o := EvictRows(v, rows, calls, n).objects;
            && (c in o <==> c in v.objects && !exists i: nat :: i < n && rows[i].checksum == c && calls(i).storage)
            && (c in o ==> o[c] == v.objects[c])
  {
    if n > 0 { ObjectsGone(v, rows, calls, n - 1, c); }
  }

  lemma {:induction false} EntriesGone<E>(v: Stores<E>, rows: seq<Row>, calls: nat -> Calls, n: nat, k: string)
    requires n <= |rows|
    ensures var e := EvictRows(v, rows, calls, n).entries;
            && (k in e <==> k in v.entries
                            && !exists i: nat :: i < n && RedisKey(rows[i].key) == k && calls(i).storage && calls(i).redis)
            && (k in e ==> e[k] == v.entries[k])
  {
    if n > 0 { EntriesGone(v, rows, calls, n - 1, k); }
  }

  /** In a cycle that no request interleaves with, a row that goes has lost its object first. When requests do,
      `Orphans` says exactly when it has not. */
  lemma NoOrphans<E>(v: Stores<E>, cutoff: int, rows: seq<Row>, calls: nat -> Calls, k: Triple)
    requires ValidTable(v.table) && IsExpiredListing(v.table, cutoff, rows)
    requires k in v.table.rows && k !in EvictRows(v, rows, calls, |rows|).table.rows
    ensures v.table.rows[k].checksum !in EvictRows(v, rows, calls, |rows|).objects
  {
    RowsGone(v, cutoff, rows, calls, |rows|, k);
    ObjectsGone(v, rows, calls, |rows|, v.table.rows[k].checksum);
    var i: nat :| ListedBefore(rows, |rows|, i, k) && Evicts(calls(i));
    assert rows[i].checksum == v.table.rows[k].checksum && calls(i).storage;
  }

  /** Every cached row holds the storage key of a package of its own triple, as the cache keeps it. */
  ghost predicate RowsNamed(t: Table) {
    && (forall k :: k in t.rows && t.rows[k].status.Cached? ==> RowNamed(t.rows[k], k))
    && (forall k :: k in t.rows && t.rows[k].status.Blocked? ==> t.rows[k].checksum == "")
    && (forall k :: k in t.rows ==> WellFormedId(k))
  }

  ghost predicate RowNamed(r: Row, k: Triple) {
    exists p: Package :: WellFormed(p) && p.Id() == k && p.CacheKey() == r.checksum
  }

  lemma NamedRowsShareNothing(t: Table, k: Triple, l: Triple)
    requires RowsNamed(t) && k in t.rows && l in t.rows && t.rows[l].status.Cached?
    requires t.rows[k].checksum == t.rows[l].checksum
    ensures k == l
  {
    assert RowNamed(t.rows[l], l);
    var q: Package :| WellFormed(q) && q.Id() == l && q.CacheKey() == t.rows[l].checksum;
    assert |q.CacheKey()| > 0;
    assert RowNamed(t.rows[k], k);
    var p: Package :| WellFormed(p) && p.Id() == k && p.CacheKey() == t.rows[k].checksum;
    CacheKeyInjective(p, q);
  }

  /** A row that was used since the cutoff, or is blocked, keeps itself, its object and its Redis entry,
      whatever fails: no other row shares them. */
  lemma LiveRowsUntouched<E>(v: Stores<E>, cutoff: int, rows: seq<Row>, calls: nat -> Calls, k: Triple)
    requires ValidTable(v.table) && RowsNamed(v.table) && IsExpiredListing(v.table, cutoff, rows)
    requires k in v.table.rows && (v.table.rows[k].status == Blocked || UsedSince(v.table.rows[k], cutoff))
    ensures var w, r := EvictRows(v, rows, calls, |rows|), v.table.rows[k];
            && k in w.table.rows && w.table.rows[k] == r
            && (r.checksum in w.objects <==> r.checksum in v.objects)
            && (r.checksum in v.objects ==> w.objects[r.checksum] == v.objects[r.checksum])
            && (RedisKey(k) in w.entries <==> RedisKey(k) in v.entries)
            && (RedisKey(k) in v.entries ==> w.entries[RedisKey(k)] == v.entries[RedisKey(k)])
  {
    var r := v.table.rows[k];
    RowsGone(v, cutoff, rows, calls, |rows|, k);
    ObjectsGone(v, rows, calls, |rows|, r.checksum);
    EntriesGone(v, rows, calls, |rows|, RedisKey(k));
    forall i: nat | i < |rows|
      ensures rows[i].key != k && rows[i].checksum != r.checksum && RedisKey(rows[i].key) != RedisKey(k)
    {
      assert rows[i].key in v.table.rows && v.table.rows[rows[i].key] == rows[i];
      if rows[i].checksum == r.checksum { NamedRowsShareNothing(v.table, k, rows[i].key); }
      if RedisKey(rows[i].key) == RedisKey(k) {
        RedisKeyAgrees(rows[i].key, k);
        FlightKeyInjective(rows[i].key, k);
      }
    }
  }

  /** One cycle without failures removes every cached row that was not used since the cutoff, whatever earlier
      cycles left behind. */
  lemma CleanCycleConverges<E>(v: Stores<E>, cutoff: int, rows: seq<Row>, calls: nat -> Calls, k: Triple)
    requires ValidTable(v.table) && IsExpiredListing(v.table, cutoff, rows)
    requires forall i: nat :: calls(i).storage && calls(i).table
    requires k in EvictRows(v, rows, calls, |rows|).table.rows
    ensures var r := EvictRows(v, rows, calls, |rows|).table.rows[k]; r.status == Blocked || UsedSince(r, cutoff)
  {
    RowsGone(v, cutoff, rows, calls, |rows|, k);
    assert Expired(v.table.rows[k], cutoff) <==> v.table.rows[k] in rows;
    forall i: nat | i < |rows| ensures rows[i].key != k {
      assert !(ListedBefore(rows, |rows|, i, k) && Evicts(calls(i)));
    }
  }

  ghost predicate NothingFails(calls: nat -> Calls) { forall i: nat :: calls(i).storage && calls(i).table }

  /** Blocked rows, and rows that were used since the cutoff, stay as they are. */
  ghost predicate KeepsUsed(t: Table, t': Table, cutoff: int) {
    forall k :: k in t.rows && (t.rows[k].status == Blocked || UsedSince(t.rows[k], cutoff)) ==> k in t'.rows && t'.rows[k] == t.rows[k]
  }

  ghost predicate OnlyUsedAreLeft(t: Table, cutoff: int) {
    forall k :: k in t.rows ==> t.rows[k].status == Blocked || UsedSince(t.rows[k], cutoff)
  }

  /** Used rows stay, and when nothing fails no other cached row does. */
  lemma CycleIsExact<E>(v: Stores<E>, cutoff: int, rows: seq<Row>, calls: nat -> Calls)
    requires ValidTable(v.table) && IsExpiredListing(v.table, cutoff, rows)
    ensures var t := EvictRows(v, rows, calls, |rows|).table;
            KeepsUsed(v.table, t, cutoff) && (NothingFails(calls) ==> OnlyUsedAreLeft(t, cutoff))
  {
    var t := EvictRows(v, rows, calls, |rows|).table;
    forall k | k in v.table.rows && (v.table.rows[k].status == Blocked || UsedSince(v.table.rows[k], cutoff))
      ensures k in t.rows && t.rows[k] == v.table.rows[k]
    {
      RowsGone(v, cutoff, rows, calls, |rows|, k);
    }
    if NothingFails(calls) {
      forall k | k in t.rows ensures t.rows[k].status == Blocked || UsedSince(t.rows[k], cutoff) {
        CleanCycleConverges(v, cutoff, rows, calls, k);
      }
    }
  }

  /** evicted is how many rows the table lost. */
  lemma {:induction false} EvictedAreLost<E>(v: Stores<E>, cutoff: int, rows: seq<Row>, calls: nat -> Calls, n: nat)
    requires ValidTable(v.table) && IsExpiredListing(v.table, cutoff, rows) && n <= |rows|
    ensures CountEvicted(calls, n) == |v.table.rows| - |EvictRows(v, rows, calls, n).table.rows|
  {
    if n > 0 {
      EvictedAreLost(v, cutoff, rows, calls, n - 1);
      NextRowIsThere(v, cutoff, rows, calls, n - 1);
      RowsStayValid(v, rows, calls, n - 1);
      DeleteTakesARow(EvictRows(v, rows, calls, n - 1).table, rows[n - 1]);
    }
  }

  lemma DeleteTakesARow(t: Table, row: Row)
    requires ValidTable(t) && row.key in t.rows && t.rows[row.key] == row
    ensures |Delete(t, row.id).rows| == |t.rows| - 1
  {
    assert Delete(t, row.id).rows == t.rows - {row.key};
  }

  function SizeOf(r: Row): int { r.size }

  lemma {:induction false} RowsStayValid<E>(v: Stores<E>, rows: seq<Row>, calls: nat -> Calls, n: nat)
    requires ValidTable(v.table) && n <= |rows|
    ensures ValidTable(EvictRows(v, rows, calls, n).table)
  {
    if n > 0 { RowsStayValid(v, rows, calls, n - 1); }
  }

  lemma DeleteTakesOne(t: Table, row: Row)
    requires ValidTable(t) && row.key in t.rows && t.rows[row.key] == row
    ensures Sum(Delete(t, row.id).rows, SizeOf) == Sum(t.rows, SizeOf) - row.size
  {
    assert Delete(t, row.id).rows == t.rows - {row.key};
    SumWithout(t.rows, row.key, SizeOf);
  }

  lemma NextRowIsThere<E>(v: Stores<E>, cutoff: int, rows: seq<Row>, calls: nat -> Calls, n: nat)
    requires ValidTable(v.table) && IsExpiredListing(v.table, cutoff, rows) && n < |rows|
    ensures var w := EvictRows(v, rows, calls, n); rows[n].key in w.table.rows && w.table.rows[rows[n].key] == rows[n]
  {
    RowsGone(v, cutoff, rows, calls, n, rows[n].key);
    assert forall i :: 0 <= i < n ==> rows[i].key != rows[n].key;
  }

  lemma FreedByOne<E>(v: Stores<E>, cutoff: int, rows: seq<Row>, calls: nat -> Calls, n: nat)
    requires ValidTable(v.table) && IsExpiredListing(v.table, cutoff, rows) && n < |rows|
    ensures Sum(EvictRows(v, rows, calls, n).table.rows, SizeOf)
            == Sum(EvictRow(EvictRows(v, rows, calls, n), rows[n], calls(n)).table.rows, SizeOf)
               + (if Evicts(calls(n)) then rows[n].size else 0)
  {
    if Evicts(calls(n)) {
      NextRowIsThere(v, cutoff, rows, calls, n);
      RowsStayValid(v, rows, calls, n);
      DeleteTakesOne(EvictRows(v, rows, calls, n).table, rows[n]);
    }
  }

  /** bytesFreed is what the table lost. */
  lemma {:induction false} FreedIsLost<E>(v: Stores<E>, cutoff: int, rows: seq<Row>, calls: nat -> Calls, n: nat)
    requires ValidTable(v.table) && IsExpiredListing(v.table, cutoff, rows) && n <= |rows|
    ensures SizeEvicted(rows, calls, n)
            == Sum(v.table.rows, SizeOf) - Sum(EvictRows(v, rows, calls, n).table.rows, SizeOf)
  {
    if n > 0 {
      FreedIsLost(v, cutoff, rows, calls, n - 1);
      FreedByOne(v, cutoff, rows, calls, n - 1);
    }
  }
}
