/** The packages and cache_events tables (internal/db/package_store.go, internal/db/db.go). A table value
    is keyed by the columns of its uniqueness constraint; every statement is its effect on the value, and
    the class applies the statements to the live tables. */
module PackageStore {
  import opened Foundation
  import opened Keys

  datatype Status = Cached | Blocked

  datatype Row = Row(id: nat, key: Triple, status: Status, checksum: string, size: int,
                     cachedAt: int, lastHitAt: Option<int>)
  {
    /** COALESCE(last_hit_at, cached_at) */
    function LastAccess(): int { if lastHitAt.Some? then lastHitAt.value else cachedAt }
  }

  /** nextId is the BIGSERIAL sequence, which an INSERT advances even when it ends in ON CONFLICT. */
  datatype Table = Table(rows: map<Triple, Row>, nextId: nat)

  datatype EventKind = Hit | Miss
  datatype Event = Event(key: Triple, kind: EventKind, bytes: int, at: int)

  function UpsertPackage(t: Table, k: Triple, checksum: string, size: int, now: int): Table {
    Table(
      t.rows[k := if k in t.rows
                  then t.rows[k].(checksum := checksum, size := size, status := Cached)
                  else Row(t.nextId, k, Cached, checksum, size, now, None)],
      t.nextId + 1)
  }

  function UpsertBlocked(t: Table, k: Triple, now: int): Table {
    Table(
      t.rows[k := if k in t.rows
                  then t.rows[k].(checksum := "", size := 0, status := Blocked)
                  else Row(t.nextId, k, Blocked, "", 0, now, None)],
      t.nextId + 1)
  }

  function Touch(t: Table, k: Triple, now: int): Table {
    if k in t.rows then t.(rows := t.rows[k := t.rows[k].(lastHitAt := Some(now))]) else t
  }

  function Delete(t: Table, id: nat): Table {
    t.(rows := map k | k in t.rows && t.rows[k].id != id :: t.rows[k])
  }

  /** No row but that of k differs. */
  ghost predicate OnlyRow(t: Table, t': Table, k: Triple) {
    forall l :: l != k ==> (l in t'.rows <==> l in t.rows) && (l in t.rows ==> t'.rows[l] == t.rows[l])
  }

  ghost predicate ValidTable(t: Table) {
    && (forall k :: k in t.rows ==> t.rows[k].key == k && t.rows[k].id < t.nextId)
    && (forall k, l :: k in t.rows && l in t.rows && t.rows[k].id == t.rows[l].id ==> k == l)
  }

  predicate Expired(r: Row, cutoff: int) { r.status.Cached? && r.LastAccess() < cutoff }

  /** The last hit of r, or if never hit its caching, is at time or later. */
  ghost predicate UsedSince(r: Row, time: int) {
    match r.lastHitAt
    case Some(hit) => hit >= time
    case None => r.cachedAt >= time
  }

  ghost predicate UsedBefore(r: Row, q: Row) {
    match q.lastHitAt
    case Some(hit) => !UsedSince(r, hit)
    case None => !UsedSince(r, q.cachedAt)
  }

  /** A listing holds exactly the cached rows that were not used since the cutoff. */
  lemma ListedIff(t: Table, cutoff: int, list: seq<Row>, k: Triple)
    requires IsExpiredListing(t, cutoff, list) && k in t.rows
    ensures t.rows[k] in list <==> t.rows[k].status == Cached && !UsedSince(t.rows[k], cutoff)
  {
  }

  /** What ListExpiredPackages may answer: every expired row once, oldest access first. */
  ghost predicate IsExpiredListing(t: Table, cutoff: int, list: seq<Row>) {
    && (forall i :: 0 <= i < |list| ==>
          list[i].key in t.rows && t.rows[list[i].key] == list[i] && Expired(list[i], cutoff))
    && (forall i, j :: 0 <= i < j < |list| ==> list[i].key != list[j].key && list[i].LastAccess() <= list[j].LastAccess())
    && (forall k :: k in t.rows && Expired(t.rows[k], cutoff) ==> t.rows[k] in list)
  }

  datatype Statement =
    | Upsert(k: Triple, checksum: string, size: int)
    | Block(k: Triple)
    | TouchHit(k: Triple)
    | DeleteId(id: nat)

  function Execute(t: Table, st: Statement, now: int): Table {
    match st
    case Upsert(k, checksum, size) => UpsertPackage(t, k, checksum, size, now)
    case Block(k) => UpsertBlocked(t, k, now)
    case TouchHit(k) => Touch(t, k, now)
    case DeleteId(id) => Delete(t, id)
  }

  lemma StatementKeepsValid(t: Table, st: Statement, now: int)
    requires ValidTable(t)
    ensures ValidTable(Execute(t, st, now))
  {
  }

  /** A row that a statement leaves in place keeps its identity and the time it was first cached, and a
      statement issued past every access never moves an access back. A row that was not there draws an id
      that no row ever had. */
  lemma RowsKeepIdentity(t: Table, st: Statement, now: int, l: Triple)
    requires ValidTable(t) && l in Execute(t, st, now).rows
    requires forall k :: k in t.rows ==> t.rows[k].LastAccess() <= now
    ensures var r := Execute(t, st, now).rows[l];
            && r.LastAccess() <= now
            && (if l in t.rows
                then r.id == t.rows[l].id && r.cachedAt == t.rows[l].cachedAt
                     && t.rows[l].LastAccess() <= r.LastAccess()
                     && (!st.TouchHit? ==> r.lastHitAt == t.rows[l].lastHitAt)
                else r.id == t.nextId && r.lastHitAt == None && r.cachedAt == now)
  {
  }

  /** Which rows a statement can change, and how: the one it names, or by deletion the one with its id. */
  lemma StatementsTouchOneRow(t: Table, st: Statement, now: int, l: Triple)
    requires ValidTable(t) && l in t.rows
    ensures match st
            case DeleteId(id) => (l !in Execute(t, st, now).rows <==> t.rows[l].id == id)
                                 && (t.rows[l].id != id ==> Execute(t, st, now).rows[l] == t.rows[l])
            case _ => l in Execute(t, st, now).rows && (l != st.k ==> Execute(t, st, now).rows[l] == t.rows[l])
  {
  }

  // ---- Aggregates ----------------------------------------------------------------------------------

  ghost function CountEvents(events: seq<Event>, kind: EventKind, since: int): nat {
    if events == [] then 0
    else CountEvents(events[..|events| - 1], kind, since)
         + (if events[|events| - 1].kind == kind && events[|events| - 1].at >= since then 1 else 0)
  }

  ghost function SumBytes(events: seq<Event>, kind: EventKind, since: int): int {
    if events == [] then 0
    else SumBytes(events[..|events| - 1], kind, since)
         + (if events[|events| - 1].kind == kind && events[|events| - 1].at >= since then events[|events| - 1].bytes else 0)
  }

  /** The positions of the events of this kind that were recorded at since or later. */
  ghost function Matching(events: seq<Event>, kind: EventKind, since: int): (positions: set<nat>)
    ensures forall i: nat :: i in positions <==> i < |events| && events[i].kind == kind && events[i].at >= since
  {
    set i: nat | i < |events| && events[i].kind == kind && events[i].at >= since
  }

  ghost function EventsAt(events: seq<Event>, positions: set<nat>): map<nat, Event>
    requires forall i :: i in positions ==> i < |events|
  {
    map i | i in positions :: events[i]
  }

  function BytesOf(e: Event): int { e.bytes }

  lemma OneMoreMatches(events: seq<Event>, kind: EventKind, since: int)
    requires events != []
    ensures var n, last := |events| - 1, events[|events| - 1];
            var front := Matching(events[..n], kind, since);
            && n !in front
            && Matching(events, kind, since) == (if last.kind == kind && last.at >= since then front + {n} else front)
  {
    var n := |events| - 1;
    assert forall i: nat :: i < n ==> events[..n][i] == events[i];
  }

  lemma EventsGrow(events: seq<Event>, front: set<nat>)
    requires events != [] && forall i :: i in front ==> i < |events| - 1
    ensures var n := |events| - 1;
            && EventsAt(events, front) == EventsAt(events[..n], front)
            && EventsAt(events, front + {n}) == EventsAt(events[..n], front)[n := events[n]]
  {
    var n := |events| - 1;
    assert forall i: nat :: i < n ==> events[..n][i] == events[i];
  }

  lemma {:induction false} CountIsExact(events: seq<Event>, kind: EventKind, since: int)
    ensures CountEvents(events, kind, since) == |Matching(events, kind, since)|
  {
    if events != [] {
      CountIsExact(events[..|events| - 1], kind, since);
      OneMoreMatches(events, kind, since);
    }
  }

  lemma {:induction false} SumIsExact(events: seq<Event>, kind: EventKind, since: int)
    ensures SumBytes(events, kind, since) == Sum(EventsAt(events, Matching(events, kind, since)), BytesOf)
  {
    if events != [] {
      var n: nat := |events| - 1;
      var front := Matching(events[..n], kind, since);
      SumIsExact(events[..n], kind, since);
      OneMoreMatches(events, kind, since);
      EventsGrow(events, front);
      var bytes, all := EventsAt(events[..n], front), EventsAt(events, Matching(events, kind, since));
      SumUpdate(bytes, n, events[n], BytesOf);
      assert all == if events[n].kind == kind && events[n].at >= since then bytes[n := events[n]] else bytes;
      assert n !in bytes;
    } else {
      assert EventsAt(events, Matching(events, kind, since)) == map[];
    }
  }

  /** The counts and sums are those of the matching events. */
  lemma StatsAreExact(events: seq<Event>, kind: EventKind, since: int)
    ensures CountEvents(events, kind, since) == |Matching(events, kind, since)|
    ensures SumBytes(events, kind, since) == Sum(EventsAt(events, Matching(events, kind, since)), BytesOf)
  {
    CountIsExact(events, kind, since);
    SumIsExact(events, kind, since);
  }

  // ---- The live tables -----------------------------------------------------------------------------

  /** The database as its clients see it. ok says whether the statement reached the database. */
  class Database {
    var table: Table
    var events: seq<Event>

    constructor ()
      ensures table == Table(map[], 0) && events == [] && ValidTable(table)
    {
      table, events := Table(map[], 0), [];
    }

    method GetPackage(k: Triple, ok: bool) returns (row: Option<Row>)
      ensures row == if ok && k in table.rows then Some(table.rows[k]) else None
    {
      row := if ok && k in table.rows then Some(table.rows[k]) else None;
    }

    method UpsertPackage(k: Triple, checksum: string, size: int, now: int, ok: bool)
      requires ValidTable(table)
      modifies this`table
      ensures ValidTable(table) && (!ok ==> table == old(table))
      ensures ok ==> k in table.rows && OnlyRow(old(table), table, k) && table.nextId == old(table).nextId + 1
      ensures ok ==> var r := table.rows[k]; r.key == k && r.status == Cached && r.checksum == checksum && r.size == size
      ensures ok && k !in old(table).rows ==>
                var r := table.rows[k]; r.id == old(table).nextId && r.cachedAt == now && r.lastHitAt == None
      ensures ok && k in old(table).rows ==>
                var r, o := table.rows[k], old(table).rows[k];
                r.id == o.id && r.cachedAt == o.cachedAt && r.lastHitAt == o.lastHitAt
      ensures table == if ok then Execute(old(table), Upsert(k, checksum, size), now) else old(table)
    {
      if ok {
        table := Execute(table, Upsert(k, checksum, size), now);
      }
    }

    method UpsertBlockedPackage(k: Triple, now: int, ok: bool)
      requires ValidTable(table)
      modifies this`table
      ensures ValidTable(table) && (!ok ==> table == old(table))
      ensures ok ==> k in table.rows && OnlyRow(old(table), table, k) && table.nextId == old(table).nextId + 1
      ensures ok ==> var r := table.rows[k]; r.key == k && r.status == Blocked && r.checksum == "" && r.size == 0
      ensures ok && k !in old(table).rows ==>
                var r := table.rows[k]; r.id == old(table).nextId && r.cachedAt == now && r.lastHitAt == None
      ensures ok && k in old(table).rows ==>
                var r, o := table.rows[k], old(table).rows[k];
                r.id == o.id && r.cachedAt == o.cachedAt && r.lastHitAt == o.lastHitAt
      ensures table == if ok then UpsertBlocked(old(table), k, now) else old(table)
    {
      if ok {
        table := UpsertBlocked(table, k, now);
      }
    }

    method TouchPackage(k: Triple, now: int, ok: bool)
      requires ValidTable(table)
      modifies this`table
      ensures ValidTable(table) && (!ok ==> table == old(table)) && table.nextId == old(table).nextId
      ensures OnlyRow(old(table), table, k) && (k in table.rows <==> k in old(table).rows)
      ensures ok && k in old(table).rows ==>
                var r, o := table.rows[k], old(table).rows[k];
                && r.lastHitAt == Some(now) && r.id == o.id && r.key == o.key && r.status == o.status
                && r.checksum == o.checksum && r.size == o.size && r.cachedAt == o.cachedAt
      ensures table == if ok then Touch(old(table), k, now) else old(table)
    {
      if ok { table := Touch(table, k, now); }
    }

    method DeletePackage(id: nat, ok: bool)
      requires ValidTable(table)
      modifies this`table
      ensures ValidTable(table) && table.nextId == old(table).nextId
      ensures forall k :: k in table.rows <==> k in old(table).rows && !(ok && old(table).rows[k].id == id)
      ensures forall k :: k in table.rows ==> table.rows[k] == old(table).rows[k]
      ensures table == if ok then Delete(old(table), id) else old(table)
    {
      if ok { table := Delete(table, id); }
    }

    method RecordEvent(k: Triple, kind: EventKind, bytes: int, now: int, ok: bool)
      modifies this`events
      ensures events == if ok then old(events) + [Event(k, kind, bytes, now)] else old(events)
    {
      if ok { events := events + [Event(k, kind, bytes, now)]; }
    }

    /** The rows that the WHERE clause keeps, appended in ORDER BY order: the cached rows that were last hit,
        or if never hit were cached, before the cutoff. */
    method ListExpiredPackages(cutoff: int) returns (list: seq<Row>)
      requires ValidTable(table)
      ensures IsExpiredListing(table, cutoff, list)
      ensures forall k :: k in table.rows ==>
                var r := table.rows[k];
                r in list <==> r.status == Cached && (r.lastHitAt.Some? ==> r.lastHitAt.value < cutoff)
                               && (r.lastHitAt.None? ==> r.cachedAt < cutoff)
      ensures forall r :: r in list ==> r.key in table.rows && table.rows[r.key] == r
      ensures forall i, j :: 0 <= i < j < |list| ==> list[i].id != list[j].id && !UsedBefore(list[j], list[i])
    {
      var rest := set k | k in table.rows && Expired(table.rows[k], cutoff);
      list := [];
      while rest != {}
        invariant IsListedSoFar(table, cutoff, rest, list)
        decreases |rest|
      {
        OldestExists(table, rest);
        var k :| k in rest && forall l :: l in rest ==> table.rows[k].LastAccess() <= table.rows[l].LastAccess();
        OldestIsNext(table, cutoff, rest, list, k);
        list := list + [table.rows[k]];
        rest := rest - {k};
      }
    }

    /** The event columns of GetStats: how many hits and misses were recorded at since or later, and the bytes
        of those hits. */
    method GetStats(since: int) returns (hits: nat, misses: nat, saved: int)
      ensures hits == |Matching(events, Hit, since)| && misses == |Matching(events, Miss, since)|
      ensures saved == Sum(EventsAt(events, Matching(events, Hit, since)), BytesOf)
      ensures hits == CountEvents(events, Hit, since) && misses == CountEvents(events, Miss, since)
      ensures saved == SumBytes(events, Hit, since)
    {
      hits, misses, saved := 0, 0, 0;
      for i := 0 to |events|
        invariant hits == CountEvents(events[..i], Hit, since) && misses == CountEvents(events[..i], Miss, since)
        invariant saved == SumBytes(events[..i], Hit, since)
      {
        assert events[..i + 1][..i] == events[..i];
        if events[i].at >= since {
          if events[i].kind.Hit? {
            hits, saved := hits + 1, saved + events[i].bytes;
          } else {
            misses := misses + 1;
          }
        }
      }
      assert events[..|events|] == events;
      StatsAreExact(events, Hit, since);
      StatsAreExact(events, Miss, since);
    }
  }

  /** list holds all expired rows but those of rest, which are not older. */
  ghost predicate IsListedSoFar(t: Table, cutoff: int, rest: set<Triple>, list: seq<Row>) {
    && (forall k :: k in rest ==> k in t.rows && Expired(t.rows[k], cutoff))
    && (forall i :: 0 <= i < |list| ==>
          list[i].key in t.rows && t.rows[list[i].key] == list[i] && Expired(list[i], cutoff) && list[i].key !in rest)
    && (forall i, k :: 0 <= i < |list| && k in rest ==> list[i].LastAccess() <= t.rows[k].LastAccess())
    && (forall i, j :: 0 <= i < j < |list| ==> list[i].key != list[j].key && list[i].LastAccess() <= list[j].LastAccess())
    && (forall k :: k in t.rows && Expired(t.rows[k], cutoff) && k !in rest ==> t.rows[k] in list)
  }

  lemma OldestIsNext(t: Table, cutoff: int, rest: set<Triple>, list: seq<Row>, k: Triple)
    requires ValidTable(t) && IsListedSoFar(t, cutoff, rest, list)
    requires k in rest && forall l :: l in rest ==> t.rows[k].LastAccess() <= t.rows[l].LastAccess()
    ensures IsListedSoFar(t, cutoff, rest - {k}, list + [t.rows[k]])
  {
    var row, list' := t.rows[k], list + [t.rows[k]];
    assert row.key == k && forall i :: 0 <= i < |list| ==> list'[i] == list[i];
    assert forall l :: l in t.rows && t.rows[l] in list ==> t.rows[l] in list';
  }

  lemma {:induction false} OldestExists(t: Table, keys: set<Triple>)
    requires keys != {} && forall k :: k in keys ==> k in t.rows
    ensures exists k :: k in keys && forall l :: l in keys ==> t.rows[k].LastAccess() <= t.rows[l].LastAccess()
    decreases keys
  {
    var k :| k in keys;
    if keys != {k} {
      OldestExists(t, keys - {k});
      var m :| m in keys - {k} && forall l :: l in keys - {k} ==> t.rows[m].LastAccess() <= t.rows[l].LastAccess();
      var oldest := if t.rows[k].LastAccess() <= t.rows[m].LastAccess() then k else m;
      assert forall l :: l in keys ==> t.rows[oldest].LastAccess() <= t.rows[l].LastAccess();
    }
  }
}
