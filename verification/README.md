# CacheProxyfy: a verified model

CacheProxyfy is a caching proxy for npm, PyPI, Maven and Go modules. A request looks for its artifact in a
Redis index, then in a Postgres index, and is then scanned for vulnerabilities, fetched from the upstream
registry by one of the requests that ask for it at the same time, stored, and indexed by a goroutine that
the request leaves behind. A worker evicts rows that nobody used for some time. Every one of these calls can
fail, and all of them interleave. This project models that code in Dafny and proves what it keeps.

`dafny verify dfyconfig.toml` checks everything.

## How the model is built

| file | content |
|---|---|
| `Foundation`, `Strings`, `Replacing` | bytes, sums over maps, Go's string functions |
| `Keys` | packages and the strings that index Redis, flights and storage |
| `SingleFlight`, `SingleFlightGroup` | the coalescing protocol as a state machine, and the class whose methods are its steps |
| `Upstream` | outcome classes of a GET, the retry loop, its backoff |
| `PackageStore`, `RedisCache`, `ObjectStore` | the two indexes and the artifact store |
| `CacheSystem` | the whole cache as one transition system: requests, goroutines, eviction, and an environment that expires keys, loses objects, fails any call and changes the upstream |
| `Provenance`, `Transparency` | where served bytes come from, over all runs, and exactly when runs are transparent |
| `BlockSafety`, `Accounting`, `EvictionRuns` | blocked packages, conservation of counters, and eviction, over all runs |
| `Flights`, `Progress`, `Traces` | how requests stand in single flight, which of them can still come to store something, and the states along a run |
| `Orphans`, `BlockedRows` | objects without a row, and rows that do not stay blocked: exactly which steps lead there, exactly in which states they still can come, and runs in which they do |
| `SerialRuns`, `ProxyServer` | `serve` as an imperative program over the three stores, whose calls are a run of the system |
| `Eviction` | one cycle of the eviction worker as a program |
| `Paths`, `LocalStorage`, `LocalBackend` | the local storage backend: its paths, its system calls under crashes and readers, its methods |
| `Migrate`, `MigratePool`, `MigrateRun` | the migration tool: deduplication, the worker pool under every schedule, and the program with one worker |
| `Security` | severities, the record loop of the scanner, the policy |
| `GoMod`, `Maven`, `Npm`, `Pypi`, `Ecosystems` | the four handlers, and what their requests mean for the cache |

A main result comes in one of three forms. Safety over runs is an invariant, one lemma per action that keeps
it, and an induction over runs (`Provenance.StepKeepsProvenance`, `Transparency.TransparencyIff`). An
imperative method is proved against a function or relation of the old state, whose own properties are lemmas
(`Eviction.Worker.Evict` and `Eviction.CleanCycleConverges`). A parser is proved to accept exactly the paths
of its pattern, and its URLs are proved to lead back. Where a property fails, the run that breaks it starts
at the empty cache, and a lemma says in which states it can still fail (`Orphans.NoOrphanIff`,
`BlockedRows.SettledIff`).

## What the code does, where its documentation says otherwise

- The repository's README says that artifacts are stored by their SHA-256. The code stores them under
  `CacheKey()`, the string "ecosystem:name:version:filename", and every column called checksum holds it.
- Redis, Postgres and single flight index by ecosystem, name and version, storage by those and the file name.
  Nothing makes the first three fix the file. `Transparency.TransparencyIff` shows that runs are transparent
  exactly when they do; classifier jars, a zip file beside a tar file on PyPI, and unescaped Go paths break it.
- With `maxAttempts` of 0 or less the fetch loop returns no bytes and no error, and that is served and stored.
- `Do` answers `true` to the leader; its caller names this value `shared`.
- The comment on `retryDelay` calls the delay capped at `maxDelay`. The jitter comes after the cap, so a
  delay can exceed it by up to a quarter.
- `Put` of the local backend is meant never to overwrite. It does when its `Stat` fails with an error.
- A blocking scan is remembered in the table, but a request looks in Redis first: with a blocked row, and when Postgres answers, it is
  refused if and only if its Redis lookup yields no object (`ProxyServer.RefusedIff`), and there is a run in
  which a blocked package is served (`BlockedRows.BlockedIsServedFromEmpty`). The row is unblocked by an
  upsert that was already on its way, and deleted by an evictor that had listed it while it was cached.
- The evictor deletes the object before the row so that no object is left without a row. Between the two a
  request can store it again; a failing upsert, a later blocking scan and another file of the same triple
  leave objects without a row as well.

## Model

| member | source | states |
|---|---|---|
| Keys.FlightKeyInjective | internal/singleflight/singleflight.go:24-26 | requests share a flight only when ecosystem, name and version agree |
| Keys.RedisKeyAgrees | internal/cache/redis.go:54-56 | two packages share a Redis entry exactly when they share a flight |
| Keys.CacheKeySplits | internal/ecosystem/interface.go:19-21 | equal storage keys mean one flight and one file name |
| Keys.CacheKeyInjective | internal/ecosystem/interface.go:19-21 | distinct artifacts never share a storage object |
| Keys.ColonsCollide | internal/ecosystem/interface.go:19-21 | a colon in ecosystem, version or file name makes keys collide: no condition can be dropped |
| SingleFlight.StepKeepsInv | internal/singleflight/singleflight.go:29-54 | every step of the protocol keeps its invariant |
| SingleFlight.MutualExclusion | internal/singleflight/singleflight.go:30-51 | a key is in the map exactly while one thread leads it, so at most one fn runs per key |
| SingleFlight.RemoveIsOwn | internal/singleflight/singleflight.go:48-50 | the delete removes the leader's own call and no other |
| SingleFlight.JoinsTheLeader | internal/singleflight/singleflight.go:32-43 | a joiner waits on the call of the one leader, or leads if there is none |
| SingleFlight.ResultsAreStable | internal/singleflight/singleflight.go:45-46 | an assigned result never changes |
| SingleFlight.ReturnsAgree | internal/singleflight/singleflight.go:35-52 | all callers of one call return the same value and error, and at most one of them was told that it led |
| SingleFlight.EveryCallerGetsTheLeadersResult | internal/singleflight/singleflight.go:28-54 | over all runs, a caller returns what its own call's leader got from fn |
| SingleFlight.ResultsComeFromFn | internal/singleflight/singleflight.go:45 | over all runs, every result was returned by the fn of the call's leader |
| SingleFlight.NeverStuck | internal/singleflight/singleflight.go:32-52 | while a caller has not returned, some thread can move |
| SingleFlight.StepUsesWork | internal/singleflight/singleflight.go:32-52 | every step lowers the rank of the program counters |
| SingleFlight.RunsEnd | internal/singleflight/singleflight.go:32-52 | a run without new callers ends within that rank |
| SingleFlightGroup.Group.Join | internal/singleflight/singleflight.go:30-43 | the first critical section is the step Enter of the protocol |
| SingleFlightGroup.Group.Assign | internal/singleflight/singleflight.go:45 | storing what fn returned is the step FnReturn |
| SingleFlightGroup.Group.Done | internal/singleflight/singleflight.go:46 | wg.Done is the step Signal |
| SingleFlightGroup.Group.Forget | internal/singleflight/singleflight.go:48-52 | the second critical section is the step Remove |
| SingleFlightGroup.Group.Await | internal/singleflight/singleflight.go:34-35 | the end of wg.Wait is the step Wake and returns the call's result |
| SingleFlightGroup.Group.Lead | internal/singleflight/singleflight.go:45-52 | the leader's part is a run of the protocol and leaves no call behind |
| SingleFlightGroup.Group.Do | internal/singleflight/singleflight.go:29-54 | whatever state the call is in, Do is a run of the protocol: a leader returns what its fn returned, a joiner waits and returns what the call's leader got |
| Upstream.FetchFromUpstream | internal/proxy/proxy.go:299-364 | against every stream of responses and cancellations: it retries after a broken connection and after 429, 500, 502, 503 and 504, and nothing else, and reports its last response or the cancellation; with its GETs, retries and time asleep |
| Upstream.OutcomeIsExact | internal/proxy/proxy.go:299-328 | uncancelled: the first response that is not transient, within the limit, is reported, else the last, with one GET more than retries; cancelled: the context's error with one retry per GET |
| Upstream.CancelledGetEnds | internal/proxy/retry.go:40-43 | a GET that was cancelled ends the fetch at once |
| Upstream.ClassifyReports | internal/proxy/proxy.go:331-364 | what each response means to the caller, and which ones are worth another attempt |
| Upstream.FetchedIff | internal/proxy/proxy.go:299-364 | a fetch yields a body if and only if a response within the limit is a 200 read to its end, and all before it are transient and no backoff was cancelled |
| Upstream.StepsFollowTheLoop | internal/proxy/proxy.go:301-326 | the step functions of the transition system are this loop |
| Upstream.DelayBounds | internal/proxy/retry.go:65-80 | a delay is the capped Retry-After (section 10.2.3 of RFC 9110), or within a quarter of min(base * 2^i, max) |
| Upstream.DelayIsJittered | internal/proxy/retry.go:73-79 | exactly: min(base * 2^i, max) times the random factor, truncated |
| Upstream.RetryAfterIsObeyed | internal/proxy/proxy.go:347-355 | the wait after each response: a 429 with a positive Retry-After waits that many seconds up to max, every other failure the exponential delay |
| Upstream.DefaultDelays | internal/proxy/retry.go:30-34 | with the default configuration: three attempts, waits around 100 and 200 ms, and a Retry-After is obeyed up to two seconds |
| Upstream.ShiftedIsExact | internal/proxy/retry.go:73 | below 2^63 no shift wraps around |
| Upstream.CapIsExactIff | internal/proxy/retry.go:73-76 | the cap gives min(base * 2^i, max) exactly when the product fits in 63 bits, or the low 64 - i bits of base alone give a delay that fits and reaches max |
| Upstream.OverflowExample | internal/proxy/retry.go:73-76 | a large base delay makes the second delay negative |
| Upstream.FetchSleepsAtMost | internal/proxy/proxy.go:301-325 | without Retry-After, n attempts sleep at most 1.25 * min(base * (2^(n-1) - 1), (n-1) * max) in all |
| Upstream.SleepsAtLeast | internal/proxy/retry.go:65-80 | and each backoff takes at least three quarters of min(base, max), up to a nanosecond |
| Upstream.DefaultSleepsAtMost | internal/proxy/retry.go:30-34 | with the default configuration that is at most 375 ms |
| PackageStore.StatementKeepsValid | internal/db/package_store.go:28-70 | no statement gives two rows one id or one key |
| PackageStore.RowsKeepIdentity | internal/db/package_store.go:28-38 | on conflict a row keeps id, cached_at and last_hit_at, and accesses never move back; a new row draws a new id |
| PackageStore.StatementsTouchOneRow | internal/db/package_store.go:28-115 | a statement changes the row it names and no other; a delete takes exactly the row with its id |
| PackageStore.Database.ListExpiredPackages | internal/db/package_store.go:330-365 | a row is listed if and only if it is cached and its last hit, or if never hit its caching, is before the cutoff; once each, oldest first |
| PackageStore.OldestIsNext | internal/db/package_store.go:330-365 | appending the oldest remaining row keeps the listing complete and ordered |
| PackageStore.Database.UpsertPackage | internal/db/package_store.go:28-52 | the row is cached with this checksum and size; on conflict it keeps id and times, else it gets the next id and is cached now; no other row differs |
| PackageStore.Database.UpsertBlockedPackage | internal/db/package_store.go:56-70 | likewise the row is blocked, with an empty checksum and size 0 |
| PackageStore.Database.TouchPackage | internal/db/package_store.go:103-115 | last_hit_at of this row, if there is one, is now; all its other columns and all other rows stay |
| PackageStore.Database.DeletePackage | internal/db/package_store.go:367-374 | exactly the row with this id goes |
| PackageStore.Database.GetStats | internal/db/package_store.go:495-527 | the numbers of hits and of misses recorded at since or later, and the sum of those hits' bytes |
| PackageStore.StatsAreExact | internal/db/package_store.go:495-509 | the running sums over the log are those of the matching events |
| RedisCache.Client.Set | internal/cache/redis.go:71-78 | until the TTL has passed, this key and no other reads differently |
| Provenance.StepKeepsProvenance | internal/proxy/proxy.go:154-285 | every step of the cache keeps: index entries may dangle but only name storage keys of their own package, and an object only holds what was fetched for it |
| Provenance.RunKeepsProvenance | internal/proxy/proxy.go:154-285 | so does every run |
| Provenance.NamedObject | internal/proxy/proxy.go:156-158 | reading the object that an index entry names gives a body fetched for that flight |
| Provenance.KeepsPut | internal/proxy/proxy.go:259-276 | storing, and what the goroutine is left with, keep it |
| Provenance.KeepsEvict | internal/eviction/eviction.go:124-144 | so does every step of the evictor |
| Provenance.KeepsTask | internal/proxy/proxy.go:165-276 | and every step of the goroutines |
| Transparency.ServedWasFetched | internal/proxy/proxy.go:154-285 | over all runs, a 200 answer is a body (a prefix, if the copy broke off) fetched before for that ecosystem, name and version |
| Transparency.DeterminedRunsAreTransparent | internal/proxy/proxy.go:154-285 | and fetched for that very package, if those three determine the package |
| Transparency.SharedTripleConfuses | internal/proxy/proxy.go:156-170 | if two packages share them, there is a run that serves one the bytes of the other |
| Transparency.NoAttemptServesNothing | internal/proxy/proxy.go:299-328 | without an attempt there is a run that serves nothing as a success |
| Transparency.TransparencyIff | internal/proxy/proxy.go:154-285 | all runs are transparent if and only if an attempt is allowed and no two requested packages share ecosystem, name and version |
| BlockSafety.StepKeepsBlocked | internal/proxy/proxy.go:174-216 | no step lets a package past the scan that every scan of it blocks |
| BlockSafety.BlockedNeverEnters | internal/proxy/proxy.go:174-216 | over all runs, such a package is never fetched, stored, indexed or served |
| BlockSafety.StepKeepsBlockedRow | internal/db/package_store.go:56-70 | no step removes or unblocks its row |
| BlockSafety.BlockedRowStaysFromEmpty | internal/proxy/proxy.go:174-216 | from an empty cache, while every scan of the package blocks, its blocked row stays the same row in every continuation, the evictor's steps included |
| BlockedRows.StaysBlockedIff | internal/db/package_store.go:28-70 | whatever the scans say, a row stays blocked over a run if and only if no upsert of its key and no delete of its id is executed |
| BlockedRows.SettledIff | internal/proxy/proxy.go:205-276 | in every reachable state: no run without a further passing scan ends the block, if and only if no goroutine has an upsert of it, no request is between its scan and its Put, and the evictor has not listed it |
| BlockedRows.BlockedIsServed | internal/proxy/proxy.go:155-216 | from every reachable state with a Redis entry and its object, a run blocks the row and then serves the package |
| BlockedRows.BlockedIsServedFromEmpty | internal/proxy/proxy.go:155-216 | and so does a run from the empty cache |
| Flights.StepKeepsFit | internal/proxy/proxy.go:198-258 | every step keeps a request and its thread in single flight in agreement, whatever is requested |
| Progress.NobodySlipsIn | internal/proxy/proxy.go:198-258 | no step but its own passing scan brings a request among those that may still store something |
| Progress.ReachesStoring | internal/proxy/proxy.go:218-260 | and each of those can come to its Put, in steps inside single flight and the fetch alone |
| Accounting.StepKeepsUpstreamBooks | internal/proxy/proxy.go:228-277 | every step keeps the balance of GETs, waits, puts and fetch counters with the flights |
| Accounting.UpstreamBound | internal/proxy/proxy.go:228-328 | GETs are at most maxAttempts per flight, waits at most one, puts at most the successful fetches |
| Accounting.EveryFlightIsCounted | internal/proxy/proxy.go:241-248 | when all requests are through, ok plus error fetches equal the flights |
| Accounting.StepKeepsEventBooks | internal/proxy/proxy.go:98-134 | every step keeps the balance of hits, misses and hit bytes with events, pending goroutines and failed inserts |
| Accounting.CountersMatchEvents | internal/db/package_store.go:495-527 | at rest and without failed inserts, the counters are what GetStats reports, misses plus the successful followers |
| Accounting.RunsBalance | internal/proxy/proxy.go:98-285 | all of this for every run from an empty cache, whatever is requested and however many attempts are allowed |
| Accounting.EveryAnswerIsCounted | internal/proxy/proxy.go:98-134 | over all runs the counters of hits, misses, errors and hit bytes are those of the requests that are through, and each of these is counted once |
| EvictionRuns.StepKeepsEviction | internal/eviction/eviction.go:82-155 | every step keeps: queued rows are as listed, and no access lies in the future |
| EvictionRuns.OnlyListedRowsAreDeleted | internal/eviction/eviction.go:82-144 | a row disappears only by the evictor's last step, and at the listing it was cached with that id and not used within ttl |
| EvictionRuns.TouchIsRecorded | internal/proxy/proxy.go:165-168 | the goroutine of an L1 hit sets the last hit of the row to now and leaves its other columns |
| EvictionRuns.TouchedIsNotListed | internal/eviction/eviction.go:82-84 | over all runs from an empty cache, a row touched at time t is in no listing up to t + ttl |
| EvictionRuns.AccessNeverMovesBack | internal/db/package_store.go:103-108 | over all runs the last access of a surviving row never decreases, and a row with another id is a new one |
| EvictionRuns.TableChangesByStatements | internal/db/package_store.go:28-115 | every step changes the table by one statement or not at all |
| EvictionRuns.StepsEvictOneRow | internal/eviction/eviction.go:124-144 | undisturbed, the system's steps for one row do what evictOne does, whichever calls fail |
| EvictionRuns.RunsKeepRowsNamed | internal/proxy/proxy.go:259-274 | in every run each cached row holds the storage key of a package of its own triple |
| SerialRuns.LoopRuns | internal/proxy/proxy.go:299-328 | the system can take the loop's whole way, one GET or backoff per step |
| ProxyServer.Proxy.Serve | internal/proxy/proxy.go:154-285 | what serve answers, stores and leaves to its goroutine, by what the stores hold and which calls succeed; and that it is a run of the system |
| ProxyServer.AnswerIsExact | internal/proxy/proxy.go:154-285 | the answer, case by case, by the contents of the maps: the object that Redis names, 403 for a blocked row, the object that the row names, 403 after a blocking scan, or what a miss is told |
| ProxyServer.MissStatus | internal/proxy/proxy.go:110-131 | a miss is told 429 if and only if the limiter refuses, 200 with a body if and only if the upstream has it, and else 502 |
| ProxyServer.Proxy.ServeTogether | internal/proxy/proxy.go:218-285 | a leader and any number of followers: one fetch, one Put and one goroutine, and every follower gets the leader's answer, with the status of a miss |
| ProxyServer.Proxy.MissThenHit | internal/proxy/proxy.go:154-285 | the request after a miss is a hit without a GET exactly with the object that Redis, or else the row, then names, a Redis entry from before the miss included |
| ProxyServer.MissIsFollowedByHit | internal/proxy/proxy.go:155-285 | once either index is written, and unless the Put failed with nothing there, that object exists; it is what the miss stored, unless an old Redis entry names another one that is there |
| ProxyServer.Proxy.BlockThenServe | internal/proxy/proxy.go:155-216 | after a blocking scan the next request is refused if and only if its Redis lookup yields no object, and otherwise gets that object; nothing is fetched or stored |
| ProxyServer.RefusedIff | internal/proxy/proxy.go:155-187 | with a blocked row that is a matter of the Redis lookup alone |
| ProxyServer.Proxy.Stats | internal/db/package_store.go:495-527 | at rest and without lost events, the statistics over the proxy's life agree with its metrics, misses up to the served followers |
| Eviction.Worker.EvictOne | internal/eviction/eviction.go:124-144 | storage first, then Redis whatever happens there, then the row; what each store holds afterwards; true exactly if storage and row succeed |
| Eviction.Worker.Evict | internal/eviction/eviction.go:82-122 | a row that is blocked or was used within ttl stays, and when nothing fails no other does; evicted plus failed are the listed rows, bytesFreed the sizes of the evicted |
| Eviction.RowsGone | internal/eviction/eviction.go:82-144 | exactly the rows whose eviction succeeded are gone, and no other row changed |
| Eviction.ObjectsGone | internal/eviction/eviction.go:124-130 | an object is gone exactly if a listed row with its checksum got past the storage delete |
| Eviction.EntriesGone | internal/eviction/eviction.go:131-137 | likewise for Redis entries |
| Eviction.NoOrphans | internal/eviction/eviction.go:124-144 | in a cycle that no request interleaves with, a row that goes has lost its object first |
| Orphans.StoredIff | internal/storage/local.go:47-102 | over all runs, an object is in storage at the end if and only if it was there and never taken, or an effective Put of it was not followed by a loss or a delete |
| Orphans.LeftBehindIff | internal/eviction/eviction.go:124-144 | however requests interleave, an object deleted by the evictor is there again at the delete of its row if and only if an effective Put came in between and nothing took it since |
| Orphans.OrphanedIff | internal/eviction/eviction.go:124-144 | over all runs from empty, an object ends without a row if and only if a Put, a delete, a blocking or a renaming upsert left it so, and since then no row was written for it and nothing took it |
| Orphans.NoOrphanIff | internal/eviction/eviction.go:124-144 | in every reachable state between the two deletes: no way to the row's delete without a further passing scan leaves the object, if and only if no request for it is between its scan and its Put |
| Orphans.EvictionOrphans | internal/eviction/eviction.go:124-144 | a run from empty in which the evictor leaves an object without a row |
| Orphans.FailedUpsertOrphans | internal/proxy/proxy.go:259-274 | a run from empty in which a failed upsert does |
| Orphans.BlockOrphans | internal/db/package_store.go:56-70 | a run from empty in which a blocking scan does, without the evictor |
| Orphans.RenamedOrphans | internal/db/package_store.go:28-38 | a run from empty in which another file of the same triple does |
| Eviction.NamedRowsShareNothing | internal/ecosystem/interface.go:19-21 | no two rows share an object |
| Eviction.LiveRowsUntouched | internal/eviction/eviction.go:82-144 | rows that are blocked or were used since the cutoff keep themselves, their object and their entry, whatever fails |
| Eviction.CleanCycleConverges | internal/eviction/eviction.go:82-122 | after one cycle without failures every cached row was used since the cutoff, whatever earlier cycles left |
| Eviction.FreedIsLost | internal/eviction/eviction.go:96-112 | bytesFreed is what the table lost |
| Eviction.EvictedAreLost | internal/eviction/eviction.go:96-112 | evicted is the number of rows that the table lost |
| Paths.PathInjective | internal/storage/local.go:113-119 | distinct canonical keys have distinct files |
| Paths.PathIsSharded | internal/storage/local.go:112-118 | in a clean directory a canonical key lives under its first two characters, and its temporary file beside it |
| Paths.CleanUndoes | internal/storage/local.go:112-118 | in a path, ".." takes the segment before it away, and empty segments and those above the root vanish |
| Paths.TmpCollidesIff | internal/storage/local.go:58 | a temporary file is another key's file exactly if that key is this one with ".tmp" appended |
| Paths.FilesAreApart | internal/storage/local.go:47-119 | files and temporary files of artifact keys never meet |
| Paths.UncleanKeysCollide | internal/storage/local.go:113-119 | without canonical keys files do meet |
| LocalStorage.StepRefinesMap | internal/storage/local.go:47-102 | the files implement a put-if-absent map: only a delete and the rename change what Get answers, and the rename shows complete data |
| LocalStorage.StepKeepsInv | internal/storage/local.go:47-82 | every step keeps it, crashes and I/O errors included |
| LocalStorage.ReadersSeeWholeObjects | internal/storage/local.go:32-82 | over all runs Get sees nothing or the complete bytes of one Put |
| LocalStorage.ObjectsAreNotOverwritten | internal/storage/local.go:50-52 | an object, once there, stays as it is while no Stat fails |
| LocalStorage.FailingStatOverwrites | internal/storage/local.go:50-52 | with a failing Stat it is overwritten |
| LocalStorage.PackageKeysAreArtifactKeys | internal/ecosystem/interface.go:19-21 | which packages have artifact keys |
| LocalBackend.Local.Put | internal/storage/local.go:47-82 | success means the object is there, the old one if it was seen; failure changes nothing and, if the removal succeeds, leaves no temporary file |
| LocalBackend.Local.PutThenGet | internal/storage/local.go:32-93 | after a successful Put Exists and Get find the object, the old one unless its Stat failed; after a failed one both answer as before |
| LocalBackend.Local.Delete | internal/storage/local.go:95-102 | removing a missing object succeeds; no other object changes |
| Migrate.Deduplicate | cmd/migrate/main.go:87-102 | exactly one entry per distinct non-empty checksum of a cached row, with the checksum, size and key of the first such row |
| Migrate.FormatBytes | cmd/migrate/main.go:245-255 | the divisor is the largest power of 1024 not above the size, and its unit is in the table |
| MigratePool.StepKeepsOnce | cmd/migrate/main.go:152-218 | under every schedule each entry is held by one worker or has one verdict, and the counters are the numbers of verdicts |
| MigratePool.FinishedIsComplete | cmd/migrate/main.go:150-220 | at the end every entry has one verdict and the four counters add up to the total |
| MigratePool.NeverStuck | cmd/migrate/main.go:152-220 | with a worker, an unfinished pool can move |
| MigratePool.StepUsesWork | cmd/migrate/main.go:152-220 | every step lowers the work left |
| MigratePool.RunsEnd | cmd/migrate/main.go:152-220 | so every schedule ends, without a panic if no checksum is shorter than 12 |
| MigratePool.FinishesIff | cmd/migrate/main.go:152-220 | the pool can finish if and only if it has a worker or nothing to do |
| MigratePool.StepKeepsSound | cmd/migrate/main.go:175-216 | every step keeps: old objects unchanged, new ones copies, verdicts true |
| MigratePool.MigrationPostcondition | cmd/migrate/main.go:175-242 | after a run without errors the bucket holds copies of everything that was there locally, and what it held before |
| MigratePool.CleanRunIsExact | cmd/migrate/main.go:152-218 | when no call fails there are no errors, and an entry is skipped, uploaded or not found as bucket and local files decide, under every schedule |
| MigratePool.DryRunWritesNothing | cmd/migrate/main.go:168-172 | a dry run leaves the bucket as it is and reports every entry as one to upload |
| MigratePool.CachedRowsAreCopied | cmd/migrate/main.go:74-242 | from the table to the bucket: each cached row has its artifact there, unless it was missing locally |
| MigratePool.RerunUploadsNothing | cmd/migrate/main.go:74-242 | two runs: after one without errors, a second one over no further rows and files uploads nothing and leaves the bucket as it is, under every schedule of both and whatever fails |
| MigratePool.MigrationKeepsProvenance | internal/storage/s3.go:93-115 | switching the storage to the bucket keeps the provenance invariant |
| MigrateRun.Migration.Run | cmd/migrate/main.go:141-242 | the program with one worker is a schedule of the pool that finishes, and fails if and only if it is not dry and a call failed that some entry needed |
| MigrateRun.Migration.Process | cmd/migrate/main.go:156-215 | each entry gets the verdict that its calls decide |
| MigrateRun.Migration.Copy | cmd/migrate/main.go:175-215 | in a run that is not dry |
| MigrateRun.RunCopies | cmd/migrate/main.go:231-242 | so the pool's guarantees hold for it |
| Security.SeverityFromCVSSVector | internal/security/scanner.go:76-98 | critical for two or more of C:H, I:H, A:H among the parts, high for one, medium for none but some of C:L, I:L, A:L, else low |
| Security.SeverityIsSpelled | internal/security/advisory.go:31-44 | which words, in any case, are which severity |
| Security.VectorOrderAndGrowth | internal/security/scanner.go:76-98 | vectors with the same parts in any order have one severity, and more parts never lower it |
| Security.BuildRecords | internal/security/scanner.go:135-160 | the records of the vulnerabilities that are not skipped, in order |
| Security.RecordsAreExact | internal/security/scanner.go:135-158 | one vulnerability more adds its record, unless it says NONE or is a Go entry without severity; the severity is the database's word, or that of the first CVSS score, or none |
| Security.Evaluate | internal/security/policy.go:17-37 | blocks if and only if some record is at least as severe as blockAt, else warns if and only if some record is at least as severe as warnAt, else allows |
| Security.Check | internal/security/checker.go:22-32 | a failed scan or a disabled checker allows; else the same in terms of all vulnerabilities of the answer and the configured words |
| Security.DecisionIsStrictest | internal/security/policy.go:17-37 | the strictest outcome that any single record triggers, the outcomes being those of Evaluate |
| Security.DecisionMonotone | internal/security/policy.go:18-37 | only the set of records matters, and more records never lower the outcome |
| Security.FilteringPreservesDecision | internal/security/scanner.go:135-158 | skipping vulnerabilities never changes the decision |
| GoMod.DecodeCaseEncoding | internal/ecosystem/gomod.go:73-90 | the loop computes the decoding, in bounds and with an end on every input |
| GoMod.DecodeIsExact | internal/ecosystem/gomod.go:73-90 | decoding copies up to the first '!', takes 32 off the byte behind it, and goes on; a trailing '!' stays |
| GoMod.EncodeIsExact | internal/ecosystem/gomod.go:70-72 | escaping copies up to the first upper-case letter, which becomes '!' and its lower-case letter |
| GoMod.DecodeEncodeIff | internal/ecosystem/gomod.go:70-90 | decoding undoes the escaping exactly for the names with no '!' before their last character |
| GoMod.EncodeDecodeIff | internal/ecosystem/gomod.go:70-90 | escaping gives back exactly the canonical encodings |
| GoMod.DecodeInjective | internal/ecosystem/gomod.go:73-90 | decoding confuses no two canonical encodings |
| GoMod.ParseMatches | internal/ecosystem/gomod.go:13-47 | Parse accepts every path of its pattern and returns its groups |
| GoMod.ParsedMatches | internal/ecosystem/gomod.go:13-47 | and no other path |
| GoMod.UpstreamRestoresPath | internal/ecosystem/gomod.go:31-51 | the upstream is asked for the path that the client asked for |
| GoMod.CanonicalRequestsAreDetermined | internal/ecosystem/gomod.go:31-47 | canonical requests share a cache entry only when they are the same |
| GoMod.UnescapedSharesTheEntry | internal/ecosystem/gomod.go:31-47 | an unescaped path shares the entry of the escaped one |
| Maven.ParseMatches | internal/ecosystem/maven.go:11-57 | Parse accepts every path of its pattern with a matching file name |
| Maven.ParsedMatches | internal/ecosystem/maven.go:11-57 | and no other path |
| Maven.JarsAreNotMetadata | internal/ecosystem/maven.go:17-33 | the metadata test never hides a jar |
| Maven.MetadataIff | internal/ecosystem/maven.go:17-19 | the metadata test accepts exactly the paths of its pattern |
| Maven.UpstreamRestoresPathIff | internal/ecosystem/maven.go:29-71 | the upstream is asked for the client's path if and only if the group has no '.' and no ':' |
| Maven.ClassifiersShareTheEntry | internal/ecosystem/maven.go:42-57 | every classifier jar shares the entry of its main jar |
| Maven.SharedEntryIff | internal/ecosystem/maven.go:29-57 | requests of one triple are the same request if and only if group and file agree, and for groups without '.' and artifacts without ':' if and only if what follows the version does |
| Npm.ParseMatches | internal/ecosystem/npm.go:12-46 | Parse accepts every path of its pattern and returns its groups |
| Npm.ParsedMatches | internal/ecosystem/npm.go:12-46 | and no other path |
| Npm.NameIff | internal/ecosystem/npm.go:12-14 | a name is a scope and a segment, or one segment that starts with no '@'; the bare name is what stands behind the scope |
| Npm.UpstreamRestoresPath | internal/ecosystem/npm.go:30-50 | the upstream is asked for the path that the client asked for |
| Npm.VersionIsExact | internal/ecosystem/npm.go:78-87 | the file is the name's prefix, if it has it, the extracted version and ".tgz" |
| Npm.SharedEntryIff | internal/ecosystem/npm.go:30-46 | requests of one name and version are the same request if and only if both or neither are named by the convention |
| Npm.UnconventionalSharesTheEntry | internal/ecosystem/npm.go:78-87 | a version has a second path that shares its entry, unless the file named after the version alone starts with name and dash |
| Npm.TwoPathsIff | internal/ecosystem/npm.go:78-87 | and exactly those versions have more than one path |
| Npm.RewrittenUrlLeadsBack | internal/ecosystem/npm.go:30-76 | a rewritten artifact URL, parsed and turned into an upstream URL, is the original one |
| Npm.UpstreamRemainsIff | internal/ecosystem/npm.go:69-76 | the upstream's address remains in rewritten metadata if and only if it was there and the proxy's own address contains it |
| Pypi.SplitFileIs | internal/ecosystem/pypi.go:11-13 | the shortest name before a separator and a digit, and the version up to the extension |
| Pypi.SplitFileFinds | internal/ecosystem/pypi.go:11-13 | found whenever there is one |
| Pypi.ParseMatches | internal/ecosystem/pypi.go:23-46 | Parse accepts every path of its pattern that lacks "/simple/" |
| Pypi.ParsedMatches | internal/ecosystem/pypi.go:23-46 | and no other path |
| Pypi.NormaliseIsExact | internal/ecosystem/pypi.go:84-89 | letter by letter: lower case, and '-' for '_' and '.' |
| Pypi.UpstreamRestoresPathIff | internal/ecosystem/pypi.go:23-50 | the upstream is asked for the client's path if and only if it starts with "/pypi/packages/" |
| Pypi.SourcesShareTheEntry | internal/ecosystem/pypi.go:34-45 | a zip file shares the entry of the tar file of its version |
| Pypi.SharedEntryIff | internal/ecosystem/pypi.go:23-46 | requests of one triple are the same request if and only if their directories agree, and the spelling of the name, the separator and the extension of their files |
| Pypi.StandardIsFixed | internal/ecosystem/pypi.go:34-36 | the triple fixes the file among wheels and source distributions with standard names |
| Pypi.RewrittenUrlLeadsBack | internal/ecosystem/pypi.go:23-82 | a rewritten download URL, parsed and turned into an upstream URL, is the original one |
| Pypi.UpstreamRemainsIff | internal/ecosystem/pypi.go:75-82 | the upstream's address remains if and only if it was there and the proxy's own address contains it |
| Replacing.RemainsIff | internal/ecosystem/npm.go:70-74 | replacing leaves an occurrence exactly when there was one and the replacement has one, if the two cannot overlap |
| Replacing.UrlIsRewritten | internal/ecosystem/pypi.go:76-80 | in a body, a URL between delimiters is rewritten, and the text around it on its own |
| Replacing.AddressRemainsIff | internal/proxy/proxy.go:379-407 | for every address that the proxy can have, an upstream address and its replacement cannot overlap |
| Ecosystems.PlainIsDetermined | internal/ecosystem/interface.go:11-21 | for escaped Go paths, conventional npm tarballs, main Maven jars and standard PyPI files in their registry's directories together, ecosystem, name and version fix the artifact |
| Ecosystems.PlainRunsAreTransparent | internal/proxy/proxy.go:154-285 | so all runs with such requests are transparent |
| Ecosystems.ClassifierGetsMainJar | internal/ecosystem/maven.go:29-57 | there is a run in which the client of a classifier jar gets the main jar |
| Ecosystems.ZipGetsTarball | internal/ecosystem/pypi.go:23-46 | there is a run in which the client of a zip file gets the tar file |
| Ecosystems.MigrationNeverPanics | cmd/migrate/main.go:162-166 | over the rows of any reachable state the migration tool never panics on a short checksum |

## Left out

- HTTP transport, headers, logging, JSON, configuration, authentication, the dashboard, the API handlers, the router and graceful shutdown: plumbing.
- Request contexts: only the choice whether a wait, a call or a backoff is cancelled.
- Panics inside fn, and several proxy processes sharing the stores: outside the hypotheses of the single-flight results.
- Overlapping Puts of one key at file granularity: `LocalStorage` has one writer per key; the system takes a Put as one step.
- The directory probe of NewLocal and directory creation beyond its failing.
- The S3 backend's requests and key layout: a bucket is a map to which Put adds what is absent, after looking for it.
- The token bucket of the rate limiter: its Wait succeeds or fails.
- The request to the OSV service (its URL, the names of ecosystems there, canonicalVersion) and the decoding of its answer: a scan yields a list of vulnerabilities or fails.
- The recording of CVE alerts (recordCVEAlerts) and the alert columns of the statistics.
- The package columns and the hit rate of GetStats.
- List functions other than ListExpiredPackages.
- Eviction's ticker and its log lines.
- RewriteResponse: the identity in every handler.
- Metadata requests beyond the rewriting of their bodies.
- ProxyServer.Proxy.MissThenHit: the two requests come one after the other; interleaved requests are the matter of the runs of `CacheSystem`.
- ProxyServer.Proxy.Serve: copies to the client are complete and no other request for the package is in flight; followers are in `ProxyServer.Proxy.ServeTogether`, broken copies and all interleavings in `CacheSystem`.
- MigrateRun.Migration.Run: one worker; all schedules of several are in `MigratePool`.
- The progress number that the migration tool prints, and the decimal that formatBytes prints.
- Floating point: the jitter factor is a real number.
- Letters outside ASCII in names and severities: ToLower and ToUpper are those of ASCII.
- The regular-expression engine: each pattern is a predicate on strings, and its parser a sequence of cuts.
- Redis expiry in the system: any entry may expire at any time; `RedisCache` has the times.
- Progress of whole requests under a failing environment: only single flight, the fetch loop and the migration pool are shown to end; `Progress.ReachesStoring` shows that a request can come to its Put, not that it must.
