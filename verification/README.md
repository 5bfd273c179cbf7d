# A model of the HTTP chunk cache, with proofs

The server stores encrypted chunks on a file system: uploads are streamed into a temporary file, described by a
JSON sidecar and renamed into place; a sweep reclaims what has expired; owners may delete what they uploaded;
anybody may download. A daily allowance is kept per API key in counter files, traffic is counted in memory, and
a configuration link carries a key to a client.

This project models that logic and proves what it promises. `dafny verify dfyconfig.toml` checks everything.

## How it is laid out

- **The store under concurrency.** `Disk` is what is on disk. `Machine` lets any number of uploads, API deletes,
  sweeps and downloads take one file operation at a time in any order, crash after any of them, and see the
  clock move; an environment says which of six things the world does not do. `Facts` proves what every step keeps
  if only no id is drawn twice, `Order` what it keeps besides when sidecars appear whole, the clock is steady and
  reads fail only for missing files, and `Once` that a chunk is deleted once. `Safety` has the results over whole
  runs, `Promises` that chunks are as long as declared, `Reports` that sweeps count honestly. `Runs` and
  `Counterexamples` put together the runs that go wrong, and prove of each result exactly what it needs. The
  comment on the order of sidecar and rename (`pkg/storage/store.go:177-181`) is true under all six conditions;
  the sidecar is written in place (`pkg/storage/store.go:186`), so of the code as it stands only what needs
  fresh ids alone, or with faithful reads, can be relied on: contents, downloads, who may delete, and the 204.
- **The store as one process sees it.** `Store`, `Gc` and the `VarDir` directory are classes whose methods work
  through the file operations of each call, which may fail; `Handlers` puts them together with the quota.
- **The allowance.** `Quota` is the accountant: counter names, counter text, int64 arithmetic and the update under
  lock, and `Calendar` the UTC days its counters are named after. `Reservations` and `Allowance` are the reservation
  protocol over concurrent uploads and across midnights, with an update of a counter as one step. `QuotaLocks` and
  `SerialUpdates` justify that step: they take the three layers of lock apart and prove that concurrent updates
  amount to the same updates made one at a time; `LockedAllowance` draws the conclusions for any history of requests,
  and `LockedUploads` runs the uploads over the steps of the locks. `LostUpdates` has the runs in which updates are
  lost, and `LockOrder` shows that the locks never deadlock. `Settlement` runs the store and the reservations
  together, and proves that what is committed has been paid for.
- **Traffic.** `Ring` compares a lazily cleared ring of hourly slots with the log of everything added to it, for
  any kind of item; `Window` counts with it, `SketchWindow` keeps a `Sketch` in each slot.
- **Texts.** `Text` has the string routines, `Sums` sums; `Ed2kLink` the configuration link, `ByteRange` the
  Range header, `Transfer` the response and the copy loop, `Ttl` the lifetime header, `Keys` the normalised key
  list and who a secret belongs to.

An octet is a character below 256, and every text, a key id too, is the octets of its UTF-8 form. Times are
nanoseconds since the epoch where the source uses `time.Time`, and whole seconds where it calls `Unix()`. What
the outside world decides enters as a parameter: whether an operation succeeds, what a body delivers, where a
read stops, in which order a map or directory is listed, the id drawn. SHA-256 is an arbitrary function of the
body, and whether a text is an acceptable URL an arbitrary predicate that no control character satisfies.

## Where the code does not do what its documentation says

- **A TTL of more than 9223372036 seconds** is not clamped to the maximum. The multiplication by a second wraps
  around in int64, and the chunk may get the default lifetime or a short one (`http_public/upload.go:173`);
  `Ttl.HonouredExactly` and `Ttl.HonouredUnder` say exactly when a request is honoured.
- **Parsing the bare prefix and one slash** slices out of bounds (`pkg/ed2k/link.go:102`), instead of returning
  false; `Ed2kLink.ParsePanicsExactly` says that no other text does.
- **Without file locks one daemon on its own can lose an update**, although `pkg/storage/lock_other.go:9-10`
  calls the in-process mutex enough for that case: a sweep from the other side of midnight drops the gate a call
  is using. `LostUpdates.LinearExactly` says exactly when updates are safe.
- **The allowance of a day can be exceeded** by refunds of uploads charged the day before, since a refund is
  posted to the day it is made (`pkg/storage/quota.go:68`), and by a limit within one chunk of the largest
  int64. `Allowance.LimitIsPerDayExactly` and `Allowance.AllowanceHoldsExactly` say exactly when.
- **A suffix range longer than the largest int64** is refused, where section 14.1.2 of RFC 9110 has it select
  the whole representation; `ByteRange.AgreesWithStandard` says that this is the only difference on valid
  ranges.
- **A 204 does not guarantee that the chunk is gone** (`http_public/routes.go:47`, `:87-93`). A failed stat counts
  as absence, so four of them answer 204 with both files on disk: `Counterexamples.GoneUnseen` is such a run, and
  `Counterexamples.GoneExactly` says that the guarantee holds exactly when reads fail only for missing files and
  no id is drawn twice.
- **Traffic before 1970** indexes the ring out of bounds, unless its hour is a multiple of 25
  (`internal/traffic/window.go:91-93`): `Ring.OutOfBoundsExactly`.
- **The last-day figure undercounts** when an addition arrives 25 hours or more late in a slot that has been
  reused; `Ring.ReadIsExact` and `Window.RingSumExactly` say exactly when.

## Model

| member | source | states |
|---|---|---|
| Safety.SoundRunsLeaveNoOrphans | pkg/storage/store.go:167-194 | in every state a sound run reaches, with a crash after any step, every blob has a sidecar under a well-formed id |
| Counterexamples.NoOrphansExactly | pkg/storage/store.go:177-194 | no run leaves a blob without a sidecar if and only if all six hypotheses hold: each dropped one has a run that does |
| Counterexamples.MisledByTornSidecar | pkg/storage/store.go:186-190 | a run in which a sweep reads a sidecar half-way through its write, and is about to delete a chunk that is about to be committed |
| Counterexamples.MisledByLateRename | pkg/storage/gc.go:68-73 | a run in which a sweep starts after the expiry of an upload that has yet to rename its blob |
| Counterexamples.MisledByClock | pkg/storage/gc.go:56-73 | a run in which a sweep read the clock before it was set back, and takes a fresh upload for an expired one |
| Counterexamples.MisledByFailedRead | pkg/storage/store.go:278-285 | a run in which a failed read of a sidecar that is there counts as expired |
| Counterexamples.Strand | pkg/storage/store.go:186-239 | each of those four goes on to a committed blob without a sidecar, after a delete that returned true |
| Counterexamples.StrandedByRefusal | pkg/storage/store.go:235-236 | a directory that keeps the blob but gives up the sidecar leaves an orphan, since the second removal is tried after the first failed |
| Counterexamples.OrphanedByRedraw | pkg/storage/store.go:190-192 | an id drawn twice lets the second upload's failed rename retract the first one's sidecar |
| Counterexamples.MisjudgedByRedraw | pkg/storage/gc.go:62-76 | two sweeps find a chunk expired, one deletes it, its id is drawn again, and the other is about to delete the new chunk |
| Facts.ApplyKeepsSane | pkg/storage/store.go:114-239 | with fresh ids alone, every operation of every process keeps what ties each id's files, uploads, deletes and downloads to its history |
| Facts.ReachableIsSane | pkg/storage/store.go:114-239 | so it is in every reachable state |
| Order.ApplyKeepsFits | pkg/storage/gc.go:56-76 | with whole sidecars, a steady clock and faithful reads besides, every operation keeps that what a sweep goes after is gone or expired, and what is missing of an upload that is over stays missing |
| Order.ReachableFits | pkg/storage/gc.go:56-76 | so it is in every reachable state |
| Safety.SidecarIdsAreValid | pkg/storage/store.go:251-274 | every sidecar on disk is one that a listing reports |
| Once.DeleteIsTrueOnce | pkg/storage/store.go:223-239 | over all concurrent deletes by sweeps and handlers, Delete returns true at most once for an id, removals paired or not |
| Counterexamples.TrueOnceExactly | pkg/storage/store.go:223-239 | it does in every run if and only if ids are fresh, sidecars whole, renames timely, the clock steady and reads faithful |
| Reports.SweepsNeverOvercount | pkg/storage/gc.go:62-80 | in every run no sweep reports more chunks than its budget, and all finished sweeps together report at most the number of deletes that were true; where a delete is true only once for an id, that is at most the number of ids ever drawn |
| Safety.GoneForGood | http_public/routes.go:77-93 | with fresh ids and faithful reads, after a 204, by either branch, neither file of the chunk exists then or in any later state |
| Counterexamples.GoneExactly | http_public/routes.go:77-93 | a 204 means that nothing is left, in every reachable state, if and only if ids are fresh and reads faithful |
| Counterexamples.GoneUnseen | http_public/routes.go:87-93 | a run in which four failed stats are answered 204 with both files on disk |
| Safety.OnlyOwnersAndSweepsRemove | pkg/storage/store.go:223-239 | with fresh ids alone, a file of a committed chunk is removed only by a DELETE of its owner, who is never anonymous, or by a sweep |
| Counterexamples.OwnersExactly | http_public/routes.go:77-87 | no API DELETE removes what its caller did not upload, in every run, if and only if ids are fresh |
| Safety.OnlyOwnersAndExpiryRemove | pkg/storage/gc.go:56-76 | a file of a committed chunk is removed only by its owner's DELETE or by a sweep whose clock reading was at or past its expiry |
| Counterexamples.OnlyOwnersAndExpiryExactly | pkg/storage/gc.go:56-76 | so it is in every run if and only if all six hypotheses hold |
| Safety.LiveChunksAreSafeFromSweeps | pkg/storage/store.go:67-88 | a chunk Meta reports is never taken by a sweep, whenever it started, late renames and unpaired removals notwithstanding |
| Counterexamples.LiveChunksAreSafeExactly | pkg/storage/store.go:67-88 | so it is in every run if and only if ids are fresh, sidecars whole, the clock steady and reads faithful |
| Safety.AnonymousChunksOnlyExpire | internal/config/config.go:392-397 | with fresh ids alone, no API delete, under any sequence of key maps, removes an anonymous chunk; in sound runs a sweep removes it only after its expiry |
| Safety.CommittedIsImmutable | pkg/storage/store.go:143-194 | with fresh ids alone, a committed chunk never changes: in every later state its blob, if there, is the uploaded body and its sidecar, if there, says what it said; its length is the size recorded and the length declared, in 1..MaxChunkSize, and its digest is the one recorded; in sound runs the blob has its sidecar |
| Counterexamples.ContentsExactly | pkg/storage/store.go:114-194 | contents never change, in every run, if and only if ids are fresh |
| Promises.ReachableKeepsPromises | pkg/storage/store.go:148-153 | with fresh ids alone, in every reachable state each upload past its length check, and each committed chunk, is exactly as long as its request declared, and every id ever drawn has such a length on record |
| Safety.FinishedGetsAreExact | http_public/download.go:87-144 | with fresh ids alone, whatever sweeps, deletes and failures there are meanwhile, a GET that finishes has delivered exactly the span its Range header makes of the uploaded body |
| Counterexamples.DownloadsExactly | http_public/download.go:87-144 | with fresh ids every finished download has sent what it was asked for of a body committed under its id; with a limit of two octets or more that is so in every run only if ids are fresh |
| Counterexamples.DeliversHalf | http_public/routes.go:28-41 | a run in which a download reads the size of one body, its id is drawn again for a longer one, and half of that is sent as the whole |
| Store.Store.Meta | pkg/storage/store.go:67-88 | reports a chunk if and only if its sidecar decodes and is not expired and its blob is there |
| Store.Store.CopyBody | pkg/storage/store.go:343-379 | succeeds if and only if the body ends well, within the size limit and the room there is; then the file holds it and the digest is its own; otherwise 413 if the read that passes the limit comes while there is room, 507 if the room gives out first, else 400 |
| Store.Store.Ingest | pkg/storage/store.go:114-201 | succeeds exactly when every check and operation does, and then adds the delivered body and its sidecar; otherwise blobs and temporary files are as before, and each of 400, 413 and 507 has its exact condition, a body past both the limit and the room included |
| Store.Store.Exists | pkg/storage/store.go:205-216 | whether either file is on disk and the file system admits to it |
| Store.Store.Delete | pkg/storage/store.go:223-239 | with each stat and each removal failing or not by itself: takes each file it sees and can remove, true if and only if it saw one and all it saw went; with no stat failing, true if and only if there was a file and none is left |
| Store.Store.AllIDs | pkg/storage/store.go:251-274 | every well-formed id with a sidecar, once each |
| Store.Store.RawExpiresAt | pkg/storage/store.go:278-285 | what it returns is past at a time exactly when a sweep at that time would take the chunk |
| Store.Store.Measure | pkg/storage/store.go:307-333 | Usage: the number and summed blob sizes of the chunks present, and of those a sweep would take |
| Store.FootprintSplits | pkg/storage/store.go:307-333 | the bytes of a set of chunks are those of any part and of the rest |
| Gc.Gc.ReapTemps | pkg/storage/area.go:80-106 | removes exactly the temporary files older than an hour that can be removed, and counts them |
| Gc.Gc.Sweep | pkg/storage/gc.go:55-92 | of the chunks due at its clock reading removes whole as many as the budget and the file system allow, and no other; of one that cannot go whole it drops the file that can; reaps exactly the old temporary files and counters it can; stamps its start unless that write fails, so that LastSweepAt then returns it; reports the chunks alone to the hook and everything as its result; keeps only the gates of its day |
| Gc.Gc.ReclaimChunks | pkg/storage/gc.go:62-76 | the loop over the listed ids: min(budget, what is due and can go whole) chunks removed, the due ones it came by touched, each file that can go gone, and no other |
| Gc.Gc.ReapCounters | pkg/storage/gc.go:85-85 | removes exactly the counters not written for more than a week |
| Gc.OldCountersAreOld | pkg/storage/gc.go:20-22 | a reaped counter was last written at least seven UTC days earlier, so never on the current day |
| Gc.StampRoundTrip | pkg/storage/gc.go:95-107 | the stamp a sweep writes reads back as its time if and only if that is a positive int64 of seconds |
| Gc.Gc.LastSweepAt | pkg/storage/gc.go:95-107 | a stamp file that is missing, malformed or not positive means no sweep; after a sweep whose stamp was written it is the start of that sweep |
| VarDir.Directory.ReapByPrefix | pkg/storage/area.go:80-106 | removes and counts exactly the files of a prefix that are older than the age and can be removed |
| Gc.SweepTakesWhatUsageCalledExpired | pkg/storage/store.go:323-329 | with a budget for all of it and no other actor, a sweep lowers chunks and bytes by exactly the expired figures of the same time, and leaves those at zero |
| Gc.StoreDrains | pkg/storage/gc.go:55-92 | from every state any run can reach, with writers stopped and everything lapsed, each sweep of budget k takes min(k, remaining) ids, and ceil(n/k) sweeps, but at least one, leave exactly the blobs that had no sidecar: no file at all if and only if there was no such blob, so none in sound runs |
| Gc.DrainStep | pkg/storage/gc.go:62-76 | after m sweeps the number of ids left is n less m times the budget, never below zero, and the blobs without a sidecar are those there were |
| Handlers.HandleUpload | http_public/upload.go:59-122 | the answer is one of eight statuses: 401, 411, 413, 507 and 429 in the order of the checks, 201 if and only if the store takes the body, else 500, 400, 413 or 507, each with its exact condition; a 201 stores the whole body under the key, charges its declared length and touches no other counter; no upload of an unmetered key touches any; anything but a 201 stores nothing and, on one day and with working counters, leaves every counter as it was |
| Handlers.HandleDelete | http_public/routes.go:58-94 | 401 and 404 have exact causes and change nothing; for a live chunk of the caller's each file goes that can be seen and removed; a 500 means one of them is left, and a 204, with no stat failing, that none is |
| Handlers.UploaderKeyId | http_public/upload.go:132-144 | the greatest key holding the presented secret, or anonymous only on an open server and with no credential offered at all |
| Quota.CountersAreShared | pkg/storage/quota.go:188-195 | two keys share a counter file if and only if their ids read alike once made safe, on the same day |
| Quota.EndingTellsTheDay | pkg/storage/quota.go:176-185 | the ending the sweep looks for belongs to exactly the counters of its day, whatever the keys contain |
| Quota.EndingTellsThePeriod | pkg/storage/quota.go:176-195 | the counter an instant falls on has the ending of another instant if and only if both lie in the same 86400 seconds of UTC |
| Calendar.CivilIsOrdinal | pkg/storage/quota.go:194-194 | counting days from the epoch by the lengths of the months agrees with the closed form of years, leap years, months and days, so dates are valid and tell days apart |
| Calendar.SameDate | pkg/storage/quota.go:194-194 | two instants have the same date if and only if they lie in the same UTC day |
| Reservations.AccountsAreCounters | pkg/storage/quota.go:188-195 | the accounts of the reservation protocol coincide if and only if the counter files do |
| Quota.SafeKeyIsPlain | pkg/storage/quota.go:15-18 | whatever the key id, what it adds to a file name is non-empty and made of the allowed characters; an id made of them stays as it is |
| Quota.OneForEachRune | pkg/storage/quota.go:188-192 | a key id adds one character for each of its UTF-8 runes, an underscore for one that may not stand in a file name |
| Quota.StampIsTheDate | pkg/storage/quota.go:194-194 | a day's stamp reads as year, month and day in that order, the last two two digits wide |
| Quota.CounterRoundTrip | pkg/storage/quota.go:132-149 | a counter reads back as the number written, for every int64 |
| Quota.OvershootsExactly | pkg/storage/quota.go:53-58 | a granted reservation goes past the limit if and only if the sum does not fit an int64 |
| Quota.RefundUndoesReserve | pkg/storage/quota.go:53-74 | a refund undoes its reservation, wrap-around included, if and only if the counter was not negative |
| Quota.Quota.GateFor | pkg/storage/quota.go:159-170 | the gate known for a path, or a new one that is then known |
| Quota.Quota.ForgetStaleGates | pkg/storage/quota.go:175-186 | exactly the gates of today's counters stay, unchanged |
| Quota.Quota.WithLockedCounter | pkg/storage/quota.go:116-154 | on success the counter is what mutate makes of the old one; on refusal or failure it is unchanged, except that a write cut short leaves the first digits; other counters are untouched |
| Quota.Quota.Consume | pkg/storage/quota.go:41-59 | grants an unmetered key for nothing; grants a metered one if and only if the files work and the reservation fits, and charges then and only then |
| Quota.Quota.Refund | pkg/storage/quota.go:63-75 | takes the bytes off today's counter, no lower than zero, and touches no other |
| Reservations.ApplyKeepsBalance | http_public/upload.go:94-110 | every step of every upload keeps what is charged to an account between its counter and its counter plus the refunds that strayed there |
| Reservations.ReachableIsBalanced | http_public/upload.go:94-110 | so it is in every reachable state |
| Reservations.ChargedIsSplit | http_public/upload.go:94-110 | every byte charged is stored, in flight, lost or refunded elsewhere |
| Allowance.Conservation | http_public/upload.go:94-110 | within one day a counter is exactly the bytes stored, in flight or lost, and none is lost without a crash or a counter failure |
| Allowance.ClampNeverFires | pkg/storage/quota.go:68-74 | a refund to its own day takes off its full size as long as none strayed there |
| Allowance.AcrossMidnight | pkg/storage/quota.go:63-75 | what is charged to a day stays within the limit plus the refunds posted there for earlier days, for every clock that does not run backwards |
| Allowance.AllowanceHoldsExactly | pkg/storage/quota.go:53-58 | that bound holds in every run if and only if every limit leaves room for one more chunk below the largest int64 |
| Allowance.LimitIsPerDayExactly | pkg/storage/quota.go:63-75 | the plain limit holds in every run if and only if no midnight passes |
| Allowance.MidnightOvershoots | pkg/storage/quota.go:68-68 | a run in which a refund across midnight lets a day's charges past its limit |
| Settlement.ApplyKeepsTied | http_public/upload.go:94-110 | every step of store and allowance together keeps each ingestion backed by its reservation and each committed chunk by its charge |
| Settlement.ReachableIsTied | http_public/upload.go:94-110 | so it is in every state the two can reach together, and each side by itself runs as it would alone |
| Settlement.CommittedIsPaidFor | http_public/upload.go:94-110 | in every joint run the bytes committed under a counter are exactly those its stored uploads were charged: within the counter plus the refunds that strayed there, hence within the limit plus those; and within one day the counter is what is committed, in flight or lost |
| Settlement.CommittedIsCharged | http_public/upload.go:94-110 | every committed chunk of a metered key was charged to a counter of that key, for exactly its length |
| Settlement.OnDiskIsCommitted | pkg/storage/store.go:114-194 | the bytes on disk of the chunks charged to a counter are no more than those committed |
| QuotaLocks.ApplyKeepsOwnership | pkg/storage/quota.go:116-186 | after every step each mutex, gate and file lock is held by exactly the process whose position says so |
| SerialUpdates.AtMostOneInside | pkg/storage/quota.go:121-151 | in every state a safe environment can reach, two processes between taking and releasing one file's lock are the same process |
| SerialUpdates.AdvanceKeepsSerial | pkg/storage/quota.go:116-154 | each step either leaves the replayed history and the files in agreement or extends the history by one whole update, even when the gate was dropped |
| SerialUpdates.ReachableIsLinear | pkg/storage/quota.go:116-154 | in every such state the counters on disk are those of the updates replayed one at a time, each answered as the replay says, and each finished call took effect exactly once |
| LockedAllowance.CountersStayWithinLimits | pkg/storage/quota.go:41-75 | in every interleaving, a counter that only reservations and refunds touch stays between zero and the largest limit, on disk and as any update reads it |
| LockedAllowance.ReplayIsStanding | pkg/storage/quota.go:53-74 | replaying reservations and refunds one at a time gives exactly the bytes reserved and not given back, within the largest limit; the clamp at zero never fires |
| LockedAllowance.ConservationUnderLocks | pkg/storage/quota.go:116-154 | in every interleaving of the lock steps, with gates dropped or not, a counter on disk between updates is exactly the bytes reserved under it and not given back |
| LockedUploads.PathOfUpload | pkg/storage/quota.go:188-195 | the account an upload is charged to at some time has the counter file that is worked out for that key and time |
| LockedUploads.PathsTellAccounts | pkg/storage/quota.go:188-195 | different accounts have different counter files |
| LockedUploads.ReachableIsTied | pkg/storage/quota.go:116-154 | in every run of uploads whose updates go through the steps of the locks, each update under way is for an upload that waits for it, each answer is the one the upload goes on with, and the counters agree with the recorded updates |
| LockedUploads.NothingIsHeldUp | pkg/storage/quota.go:41-75 | whatever step an update is ready for, its upload is too |
| LockedUploads.CountersOnDisk | http_public/upload.go:94-110 | in every such run a counter file between updates holds exactly the counter of the reservation protocol: within the limit, at most what is charged and at least that less the refunds that strayed there, and within one day what is stored, in flight or lost |
| LostUpdates.LinearExactly | pkg/storage/lock_other.go:7-17 | every run is serial in this sense if and only if files can be locked, or one daemon is alone and no sweep drops gates |
| LostUpdates.DroppedGateLosesUpdates | pkg/storage/lock_other.go:9-10 | a run of one daemon in which a dropped gate loses an update |
| LostUpdates.TwoDaemonsLoseUpdates | pkg/storage/lock_other.go:10-12 | a run of two daemons that does |
| LockOrder.WaitingDescends | pkg/storage/quota.go:159-186 | whoever is waited for is unfinished and waits, if at all, for a lock further along |
| LockOrder.ChainsAreShort | pkg/storage/quota.go:116-170 | a chain of processes waiting one for the next has at most three members and no cycle |
| LockOrder.SomebodyCanMove | pkg/storage/quota.go:116-186 | while any call or sweep is unfinished, some process can take its next step |
| Ttl.HonouredExactly | http_public/upload.go:162-174 | a positive number of seconds is clamped to the maximum, under every valid configuration, if and only if its nanoseconds fit an int64 |
| Ttl.HonouredUnder | internal/config/config.go:269-277 | under given settings it is if and only if the nanoseconds fit, or what the wrap-around leaves reaches the maximum, or nothing is left and the default is the maximum |
| Ttl.LongRequests | http_public/upload.go:173-173 | under the default settings 9223372037 seconds get 48 hours where one second less gets a week, and 18446744074 seconds get 0.29 seconds |
| Ttl.KeptWithinMaximum | internal/config/config.go:269-277 | every header leads to a lifetime above zero and at most the maximum |
| Ring.ReadIsExact | internal/traffic/window.go:20-51 | a read finds in every slot exactly what the log has for that slot's hour if and only if no hour of the window was overwritten by another |
| Ring.LittleLagIsHarmless | internal/traffic/window.go:22-28 | additions that lag the largest hour by less than 25, read no earlier than it, overwrite nothing |
| Ring.HourOf | internal/traffic/window.go:87-89 | the hour a Unix time lies in, before the epoch too |
| Ring.OutOfBoundsExactly | internal/traffic/window.go:87-93 | the slot index is negative exactly before the epoch in an hour that is no multiple of 25, and never too large |
| Ring.WindowCoversADay | internal/traffic/window.go:5-8 | a window reaches back at least 24 hours from a read and never as far as 25 |
| Ring.FoundIsLogged | internal/traffic/window.go:95-99 | a slot of an undisturbed window holds exactly the log of its hour |
| Ring.KeptIsLatest | internal/traffic/window.go:26-28 | what a slot holds is always the tail of what the log has for its hour |
| Window.Window.Add | internal/traffic/window.go:20-32 | the slots, hours and total after an addition are those of the log with that addition, in int64 arithmetic; an addition out of bounds changes nothing |
| Window.Window.Last24h | internal/traffic/window.go:40-51 | the sum, modulo 2^64, of what the ring still has; and of the logged amounts of the 25 hours if the window is undisturbed, in particular if additions lag by less than 25 hours |
| Window.RingSumExactly | internal/traffic/window.go:40-51 | with positive amounts the figure never exceeds the logged sum, and equals it if and only if the window is undisturbed |
| Window.SlotsCoverTheWindow | internal/traffic/window.go:91-99 | the 25 slots cover the 25 hours of a window once each |
| SketchWindow.SketchWindow.Add | internal/traffic/window.go:61-72 | each slot's sketch has been shown exactly what the ring keeps for it, and the total everything; an addition out of bounds changes nothing |
| SketchWindow.SketchWindow.Counts | internal/traffic/window.go:74-85 | the merged registers are those of one sketch shown exactly the hashes of the last 25 hours if the window is undisturbed, in particular if additions lag by less than 25 hours |
| SketchWindow.FoundIsWithin | internal/traffic/window.go:77-82 | the slots of an undisturbed window hold, between them, exactly the hashes of its hours |
| Sketch.ShowsOnlyTheSet | internal/traffic/sketch.go:33-60 | the registers depend only on the set of hashes shown, and none exceeds 51 |
| Sketch.LargerShowsUnion | internal/traffic/sketch.go:52-60 | taking the larger register everywhere shows the union of two sets |
| Sketch.RankCountsZeros | internal/traffic/sketch.go:42-45 | a rank is one more than the leading zeros among the low fifty bits, the guard bit notwithstanding |
| Sketch.PartsTellTheHash | internal/traffic/sketch.go:40-44 | the register index and the ranked bits come from different parts of a hash and together determine it |
| Sketch.Sketch.Add | internal/traffic/sketch.go:39-50 | shows one hash more |
| Sketch.Sketch.Merge | internal/traffic/sketch.go:54-60 | shows everything either sketch was shown, also when merged with itself |
| Sketch.Sketch.Reset | internal/traffic/sketch.go:89-91 | shows nothing |
| Ed2kLink.EncodeField | pkg/ed2k/link.go:178-191 | the loop encodes octet by octet |
| Ed2kLink.DecodeField | pkg/ed2k/link.go:197-233 | the loop decodes or refuses as the recursive reading of the field does |
| Ed2kLink.DecodeEncode | pkg/ed2k/link.go:178-233 | decoding undoes encoding if and only if the value has no control character, and refuses it otherwise |
| Ed2kLink.EncodedIsPlain | pkg/ed2k/link.go:172-191 | an encoded field is printable and never holds the separator |
| Ed2kLink.EncodeKeeps | pkg/ed2k/link.go:172-191 | encoding leaves a value alone if and only if it has nothing to encode, and lengthens it otherwise |
| Ed2kLink.PlausibleSecret | pkg/ed2k/link.go:237-249 | one to 512 printable octets and nothing else |
| Ed2kLink.RenderLink | pkg/ed2k/link.go:63-81 | the text is the prefix, the encoded fields joined by bars and the tail |
| Ed2kLink.ParseLink | pkg/ed2k/link.go:89-152 | accepts, refuses or goes out of bounds exactly as the specification of Parse says |
| Ed2kLink.RoundTrip | pkg/ed2k/link.go:63-152 | parsing the rendering of a link gives that link back if and only if its name is free of controls, its URL fixed under normalisation, its secret plausible, its key id empty or well-formed and its rendering at most 4096 octets |
| Ed2kLink.ParsePanicsExactly | pkg/ed2k/link.go:95-102 | the slice is out of bounds for exactly one text: trimmed and up to case, the prefix and a slash |
| Ed2kLink.RedactHidesTheSecret | pkg/ed2k/link.go:158-168 | for every accepted text, what Redact overwrites is the very field decoded as the secret, and nothing else changes |
| Ed2kLink.RedactForgets | pkg/ed2k/link.go:158-168 | texts that differ only in the fifth field redact alike |
| Text.SplitConcat | pkg/ed2k/link.go:103-103 | splitting distributes over a separator |
| Text.JoinSplit | pkg/ed2k/link.go:159-167 | joining the fields of a split gives the text back |
| ByteRange.AgreesWithStandard | http_public/byterange.go:52-111 | every valid range-spec, however spaced, cased and long, is answered as section 14.1.2 of RFC 9110 says if and only if it is not a suffix length beyond int64 |
| ByteRange.SpanRoundTrip | http_public/byterange.go:92-110 | parsing the decimal rendering of a span gives it back if and only if 0 <= from <= to < size |
| ByteRange.InvertedRangeIsRefused | http_public/byterange.go:106-108 | a range that ends before it starts is a 416 |
| ByteRange.HeaderIsRead | http_public/byterange.go:42-62 | white space before the unit and around the equals sign and the case of the unit make no difference |
| ByteRange.ParseByteRange | http_public/byterange.go:52-111 | a satisfiable answer lies inside the entity |
| Transfer.StreamRange | http_public/download.go:87-144 | what was sent is a prefix of what the file holds between two places; the transfer is complete if and only if it is all of it; an undisturbed one sends all there is and drops the connection if that is less |
| Transfer.TrimBlanks | http_public/download.go:150-159 | what lies between the outer spaces and tabs |
| Transfer.ServeChunk | http_public/download.go:32-80 | each status has its exact cause and its Content-Length, for a size of zero too; what is sent is a prefix of what was asked for, all of it if and only if the transfer finishes, as it does with nothing in its way |
| Transfer.ResumingYieldsTheEntity | http_public/download.go:32-143 | whatever responses of serveChunk a client gets that asks for the rest each time, what it holds is a prefix of the entity, and all of it if and only if a transfer finishes |
| Keys.NormaliseKeys | internal/config/config.go:389-424 | for every iteration order, the kept entries once each, rising by id, quotas not negative, enabled by default |
| Keys.SortById | internal/config/config.go:421-421 | the same keys by rising id |
| Keys.OrderDoesNotMatter | internal/config/config.go:386-388 | only one list is normalised for a map, so the iteration order cannot be seen |
| Keys.Identify | internal/security/auth.go:24-55 | the loop without early exit finds the last matching key |
| Keys.IdentifiesTheGreatest | internal/security/auth.go:35-55 | over a normalised list that is the greatest enabled id with the secret, nobody exactly when there is none, and never anonymous |
| Keys.QuotaFor | internal/config/config.go:280-290 | the normalised quota of the key in the map, the open quota for anonymous uploads, and zero for a key that is not kept |

## Left out

- Sketch.Sketch.Add: the floating-point estimate that `Sketch.Count` makes of the registers is not modelled; the results stop at the registers.
- SerialUpdates.ReachableIsLinear: no crash and no failed file operation inside a locked update; one between truncating and writing would leave an empty counter, as the contract of the sequential update says.
- Allowance.Conservation: takes an update of a counter as one step; `LockedUploads.CountersOnDisk` has its steps. Its hypothesis is that no limit is within one chunk of the largest int64.
- Settlement.CommittedIsPaidFor: takes an update of a counter as one step, which `LockedUploads.CountersOnDisk` justifies.
- LockedUploads.CountersOnDisk: an upload neither crashes nor meets a failed file operation while it holds a lock; before and after it may.
- Counterexamples.DownloadsExactly: that fresh ids are needed is shown for limits of two octets and more; the run needs two bodies of different lengths.
- Ed2kLink.RoundTrip: what `url.Parse` accepts is an arbitrary predicate, so `Normalize` is modelled as trimming around it and nothing is claimed about normalising twice.
- Safety.CommittedIsImmutable: process crashes are in the model between any two file operations; power loss and fsync are not.
- Transfer.ServeChunk: headers other than Content-Length, and write deadlines, are not modelled.
- `HasRoomFor` reserves nothing, so concurrent uploads may pass it together; the handler takes its answer as given.
- Reading the credential out of the request headers: the model starts from the presented secret.
- Gin routing, the install pages, templates and the config generator: HTTP and text plumbing.
- Viper, the environment and YAML: the model starts from the raw key map and the numeric settings.
- The generation of ids: the model draws them from outside, and freshness is a hypothesis.
- `SecondsUntilReset`, the response bodies, the public base URL and the traffic middleware: single expressions whose contracts would repeat them.
- The sweep's ticker, and the `gc` subcommand, which is one more sweep.
