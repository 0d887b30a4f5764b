# Victoria Lakehouse: compaction, bloom index and caches

A Dafny model of the election-free compaction subsystem of Victoria Lakehouse
(`internal/compaction` with the manifest operations it relies on in
`internal/manifest`), of its bloom index (`internal/bloomindex`) and of two
in-memory cache structures (`internal/cache`), with proofs of what they promise.
`dafny verify dfyconfig.toml` checks everything; with
`--resource-limit 2000000 --verification-time-limit 0` the outcome does not depend on the
speed of the machine.

## What is modelled

- **The merge / publish / reclaim protocol.** Flushes, merges, delete rewrites,
  refreshes, reclaims, orphan sweeps and record pruning interleave freely; a step is
  one critical section of the manifest or one request to the object store
  (`Protocol`). The rows that count are those of the stored objects that are neither
  retired nor pending. They always equal the rows flushed (`ProtocolSafety`,
  `ProtocolRuns`). Where the code relies on something it does not check (a listing that
  misses a retired object, a drawn key that names an object not yet adopted, a late
  registration, a pruned record, refreshes that do not overlap), the exact condition is
  proved in both directions, and `ProtocolLimits` gives a concrete run for each failure.
  Any number of listings may be in flight, since nothing in the manifest forbids it
  (internal/manifest/manifest.go:1039-1042 expects it), although both binaries refresh
  serially (cmd/lakehouse-logs/main.go:1586-1708). `ProtocolRaw` follows the raw bytes a
  merge carries forward, `ProtocolOwed` the deletes that are still to come. The manifest class performs the same operations in place
  (`Manifests`), the sequential parts of a merge and of the sweep are methods (`Compactor`),
  and the row work of a merge is done on an array as in the source (`Rows`, `LogRows`,
  `TraceRows`).
- **Planning.** Which files of which tenant group merge, why, and why it stops:
  `Schemas`, `Planner`, `PlanReasons`, `Convergence`, `Partition`, `PlanOrder`, `ScanPlans`, `Freeze`,
  `TenantGroups`.
- **Leaderless ownership and fair share.** `Ownership`; `RoundRobin`, `TenantLists`,
  `Rounds`, `FairShare`, `FairScans`; `Backoff`.
- **Bloom index.** Filters at the bit level (`Bloom`), queries (`BloomIndex`), building and
  downgrading (`BloomTiers`, `BloomDowngrades`, `RowGroupKeys`), the indexes of a process on
  an explicit heap with the source's sharing (`BloomHeap`), every run of their operations
  (`BloomRuns`), the same for a store with any number of partitions (`BloomPartitions`),
  runs that end in a wrong skip (`BloomSkips`), and the binary form (`Wire`, `ItemLists`,
  `IndexCodec`, `IndexCoder`, `IndexRoundTrip`).
- **Caches.** `Singleflight` as interleaved steps, `LruOrder` and `Lru`.

Helpers: `Ordering` (orders, sorting, filtering), `Sums` (totals over sets of keys),
`Cyclic` (positions on a ring), `Files`, `Keys`.

Conventions: time is in integer nanoseconds; hashes (xxhash, FNV-1a, SHA-256), the names of
the severities, stream tags and the choice of promoted attributes are function parameters; a Go string
in the binary form is a sequence of characters below 256, one per byte; a map walked in
Go's arbitrary order is a set emptied one arbitrary element at a time; random ids, clocks,
failing requests and other pods' actions are parameters or actions of the environment.

## Where the code falls short of what it promises

- A listing that silently misses a retired object, taken as proof that it is gone, brings
  its rows back next to the merged copy (`ProtocolLimits.SparseListingDoublesRows`); exactly
  when, `ProtocolRuns.RefreshConservesIff`.
- A claim can take the key of a stored object that no refresh has adopted yet
  (`ProtocolLimits.ClaimHidesRows`, `ProtocolRuns.ClaimConservesIff`); a record can expire
  before its object is deleted (`ProtocolLimits.PruningRevivesRows`,
  `ProtocolRuns.ForgetConservesIff`); a flush that registers late can serve an object that is
  gone (`ProtocolLimits.LateFlushServesNothing`, `ProtocolRuns.RegisterServesStoredIff`), and
  one that uploads late can bring rows back (`ProtocolLimits.LateUploadRevivesRows`,
  `ProtocolRuns.ReuploadConservesIff`); of two overlapping refreshes the older can serve an
  object whose record the newer settled (`ProtocolLimits.OverlapRevives`, `ProtocolRuns.RefreshRevivesIff`).
- A merge and Tier B, unlike a reclaim, confirm a delete whatever the record says by then. If
  the key's flush has uploaded the object again in between and owes its delete anew, the older
  confirmation settles that debt too: the object stays, no reclaim and no sweep deletes it
  (`ProtocolLimits.LateConfirmLeaks`; exactly when, `ProtocolOwed.ConfirmOwesIff`), and a week
  later its rows count again (`ProtocolLimits.LeakedRowsReturn`).
- A log merge derives an empty severity text before it routes the attributes, and those may
  set the number, or an empty text, afterwards. Such a row (`LogRows.Lags`) is written without
  the text that the next merge derives, so for logs merging again changes nothing exactly where
  no row lags (`LogRows.HealsOnceIff`, `LogRows.MergedAgainIff`; a row in
  `LogRows.LateNumberLags`). What rows become in the end is kept by a merge, lagging rows
  included (`LogRows.MergeLogFiles`), and a third merge never changes a row
  (`LogRows.HealsTwice`).
- A log row with both `level` and `severity_text` attributes of different values gets one or
  the other by the order of a Go map (`LogRows.OrderMattersIff`).
- A publish reports the raw bytes its sources recorded when the merge started. The served
  total survives it exactly when the sources that a refresh replaced meanwhile still record
  the same sum (`ProtocolRaw.PublishKeepsRawIff`); `ProtocolLimits.PublishJumps` is a run where
  they do not.
- The per-scan freeze view applies the global rules to a key such as `1/2/x`, which names a
  tenant but has no group prefix; `Freeze.ViewAgreesIff` says exactly when that matters.
- A peer listed twice can be its own successor (`Ownership.ThiefIsAnotherPodIff`) and then
  passes its own steal gate (`Ownership.DuplicateStealsFromItself`).
- A union of filters of different sizes loses values (`Bloom.UnionIsSafeIff`), and filters
  are sized by each unit's number of values. A downgrade is therefore safe only where
  `BloomRuns.Assumed` says so.
- A downgrade of a file in which one row group has no filter for a column (too many values)
  and another has one makes the file skippable for values of the first
  (`BloomDowngrades.SafeDowngradeIff`, with such a file in `BloomSkips.LargeRowGroupIsSkipped`).
- A summary does not know of a file added after it was made, and rules it out for the values its
  filters do not accept (`BloomPartitions.LateFileRuledOutIff`, `BloomSkips.LateFileIsSkipped`).
- A rejected update of the cache leaves the old entry without its reservation
  (`Lru.Cache.Put`), so reservations do not equal the cached bytes.
- A repeated empty source key is not refused (`Compactor.FirstDuplicateKey`).

## Model

| member | source | states |
|---|---|---|
| `ProtocolRuns.RowsConserved` | internal/compaction/compactor.go:297-575 | over every legal run the rows of the stored, non-retired, non-pending objects equal the rows flushed; delete rewrites and removals can only take rows away |
| `ProtocolRuns.ServedOnce` | internal/manifest/manifest.go:1522-1670 | in every run only objects that count are served, and no flushed row is served twice |
| `ProtocolRuns.CompleteRefreshServesAll` | internal/manifest/retired.go:511-591 | a refresh whose listing covered every object serves exactly the rows that count, in a run of merges all rows flushed |
| `ProtocolRuns.PublishesOnce` | internal/compaction/compactor.go:520-553 | of merges that share a source at most one publishes, an unsettled or abandoned output is never served nor counted, and the branch for an already registered output key is never taken |
| `ProtocolRuns.DeletesAreSafe` | internal/compaction/orphan_sweep.go:396-471 | every delete request that lands, first or again, from a merge, a reclaim or Tier B, hits a key that was retired, never a served, held or pending object, and leaves the rows that count unchanged |
| `ProtocolRuns.RetiredStaysOut` | internal/manifest/retired.go:113-133 | a key once retired is never served again in any continuation of the run, with any number of listings overlapping, as long as no record is forgotten that another listing in flight has seen |
| `ProtocolRuns.RefreshRevivesIff` | internal/manifest/retired.go:511-591 | an accepted refresh serves no key that was ever retired if and only if every such key it lists still has its record |
| `ProtocolRuns.RefreshConservesIff` | internal/manifest/retired.go:540-570 | a refresh leaves the rows unchanged if and only if no record it forgets names a stored object with rows |
| `ProtocolRuns.ForgetConservesIff` | internal/manifest/retired.go:446-486 | pruning the records leaves the rows unchanged if and only if no pruned record names a stored object with rows |
| `Catalog.PruneSparesOwed` | internal/manifest/retired.go:446-470 | below the cap pruning never forgets a record whose delete is still owed |
| `Catalog.PruneOrder` | internal/manifest/retired.go:446-486 | every unowed record goes after a week; any other goes only over the cap and down to it, those of deleted objects first, then unowed ones, the oldest first |
| `ProtocolRuns.ClaimConservesIff` | internal/compaction/compactor.go:462-469 | claiming a key leaves the rows unchanged if and only if it names no stored object with rows |
| `ProtocolRuns.RegisterServesStoredIff` | internal/storage/parquets3/writer.go:277-281 | a flush registration serves stored objects only, if and only if its object is still stored or its retirement is on record |
| `ProtocolRuns.ReuploadConservesIff` | internal/storage/parquets3/writer.go:273-281 | an upload that lands again under a key in flight leaves the rows unchanged if and only if the object is still stored, its retirement is on record, or it has no rows |
| `ProtocolOwed.StoredIsOwed` | internal/compaction/orphan_sweep.go:396-471 | in every run whose confirmations came in time, a stored object whose key was retired can still be deleted by Tier B, unless it is held or its own flush has still to owe the delete |
| `ProtocolOwed.ConfirmOwesIff` | internal/manifest/retired.go:338-425 | a confirmation leaves no stored object settled, if and only if its object is gone, or its flush has still to owe the delete, or there is no record that it settles (for a reclaim: one made at the time it read) |
| `ProtocolOwed.ConfirmedInTime` | internal/compaction/compactor.go:541-564 | a delete that lands and is confirmed with no upload under its key landing in between is confirmed in time, whatever else happens |
| `ProtocolOwed.RefusedOwesAgain` | internal/storage/parquets3/writer.go:273-281 | in every run the retirement after a refused registration owes the delete again, whatever was settled before |
| `ProtocolRaw.PublishKeepsRawIff` | internal/compaction/compactor.go:477-488 | a merge that started anywhere, ran through any steps of anyone and publishes now leaves the served raw bytes unchanged if and only if the sources whose entries a refresh replaced since the start record the same sum as then; in particular when none was replaced |
| `ProtocolLimits.PublishJumps` | internal/compaction/compactor.go:477-488 | a legal run of flushes and one merge, with a sparse listing and a re-adoption in between, whose publish moves the served raw bytes |
| `ProtocolLimits.SparseListingDoublesRows` | internal/manifest/retired.go:532-538 | a concrete legal run after which one refresh with a listing that misses the retired source makes every flushed row count twice |
| `ProtocolLimits.ClaimHidesRows` | internal/compaction/compactor.go:225-235 | a legal run after which claiming the key of a flushed, not yet registered object takes its rows out of those that count |
| `ProtocolLimits.PruningRevivesRows` | internal/manifest/retired.go:446-486 | a legal run after which an expired record of an object still stored makes its rows count again |
| `ProtocolLimits.LateFlushServesNothing` | internal/storage/parquets3/writer.go:277-281 | a legal run after which a late flush registration serves an object that is gone |
| `ProtocolLimits.LateUploadRevivesRows` | internal/storage/parquets3/writer.go:273-281 | a legal run after which a late upload makes the rows of an object that was let go of count again |
| `ProtocolLimits.UploadAgainIsOwed` | internal/storage/parquets3/writer.go:273-281 | a legal run in which an upload recreates a swept object and ends refused, unserved and owed a delete |
| `ProtocolLimits.LateConfirmLeaks` | internal/compaction/orphan_sweep.go:465-471 | a legal run after which the confirmation of an older delete has settled an object that is stored again, and neither a reclaim nor Tier B may delete it |
| `ProtocolLimits.LeakedRowsReturn` | internal/manifest/retired.go:446-486 | a legal run after which the settled record of that object expires and its rows count again |
| `ProtocolLimits.OverlapRevives` | internal/manifest/retired.go:511-591 | a legal run after which the newer of two overlapping refreshes settles a record and the older then serves the deleted object |
| `ProtocolSafety.StepKeeps` | internal/compaction/compactor.go:462-564 | every step of every component keeps the protocol invariant |
| `Manifests.Manifest.ClaimPending` | internal/manifest/retired.go:166-189 | in place: pending exactly when the key is non-empty and neither served, retired nor pending |
| `Manifests.Manifest.ReplaceFiles` | internal/manifest/manifest.go:2252-2288 | the conditional swap, for any output key: all sources retired with their deletes owed and naming the output, which is registered; or nothing changed |
| `Manifests.Manifest.ApplyListing` | internal/manifest/manifest.go:1522-1670 | in place: refused with nothing changed, or accepted: served is what was listed and neither retired nor pending, and of what was served what was published since or lies under a skipped prefix; forgotten are exactly the older records of keys not listed outside those prefixes |
| `Manifests.UncoveredStays` | internal/manifest/manifest.go:1456-1477 | after any refresh a served key under a skipped prefix is still served, one not listed with its entry, and a record under one is still there |
| `Manifests.RecentStays` | internal/manifest/manifest.go:1522-1535 | a file published since the listing began stays served, whatever the listing returned |
| `Manifests.Manifest.AbandonPending` | internal/manifest/retired.go:279-286 | the output leaves the served and pending sets and is retired with its delete owed |
| `Manifests.Manifest.AddFileUnlessRetired` | internal/manifest/manifest.go:2686-2694 | refused for a retired key, otherwise registered as any file |
| `Manifests.Manifest.ConfirmDeleted` | internal/manifest/retired.go:338-349 | a landed delete settles the debt and keeps the record |
| `Manifests.Manifest.SettleReclaimed` | internal/manifest/retired.go:417-425 | a reclaimed delete settles the record only if it is the one the reclaim read |
| `Rows.MergeFiles` | internal/compaction/compactor.go:577-710 | append, in-place filter, in-place healing and sort yield the sources' normal form as a multiset, in order |
| `Rows.MergeKeepsContent` | internal/compaction/compactor.go:577-710 | where the rules are lawful on the rows read, any arrangement of the merged rows has exactly the sources' content, and merging it again changes nothing |
| `LogRows.RepromoteLogRow` | internal/vlstorage/insert.go:231-354 | the loop over the attribute map, in any order, routes every attribute: severities, columns and slots, the rest kept; only which of two text attributes came last is left open |
| `LogRows.ColumnsHealed` | internal/vlstorage/insert.go:231-354 | every attribute with a column is in it afterwards and no longer an attribute, the others stay, and nothing else changes |
| `LogRows.TextHealed` | internal/schema/severity.go:29-42 | without a text of its own a row gets the name of its number, and without one the level of its stream |
| `LogRows.TextAttributeWins` | internal/vlstorage/insert.go:235-248 | a severity attribute overrides the row's own |
| `LogRows.HealsOnceIff` | internal/compaction/compactor.go:614-661 | a second merge leaves a row as the first wrote it, if and only if it is not so that the attributes leave an empty text and a number or stream that derives one |
| `LogRows.HealsTwice` | internal/compaction/compactor.go:614-661 | a third merge never changes a row |
| `LogRows.OrderMattersIff` | internal/vlstorage/insert.go:338-354 | the order of the attribute map decides the row, if and only if both text attributes are there with different values |
| `LogRows.LateNumberLags` | internal/vlstorage/insert.go:243-248 | a row with only a severity_number attribute of 17: the first merge writes no text, the second the text of 17 |
| `LogRows.MergedAgainIff` | internal/compaction/compactor.go:577-669 | merging a log merge's output again leaves it as it is, as a multiset, if and only if none of its rows lagged |
| `LogRows.MergeLogFiles` | internal/compaction/compactor.go:577-669 | a log merge's times do not decrease, nor its services at one time, and it holds exactly the healed rows that are not dropped; unless a map order mattered it is the sources' content, healed once and as it becomes in the end; another merge leaves it as it is if and only if no row lagged |
| `TraceRows.RepromoteTraceRow` | lakehouse-traces/internal/vlstorage/insert.go:484-610 | the loops over both attribute maps route every attribute, whatever the order of the maps, the resource's first |
| `TraceRows.ResourceRepromoted` | lakehouse-traces/internal/vlstorage/insert.go:484-528 | every resource attribute with a column is in it, those with neither column nor slot stay |
| `TraceRows.SpanRepromoted` | lakehouse-traces/internal/vlstorage/insert.go:530-572 | the same of the span's attributes |
| `TraceRows.SlotsRepromoted` | lakehouse-traces/internal/vlstorage/insert.go:581-610 | a slot gets the span's value, or else the resource's, or else keeps its own |
| `TraceRows.RepromotedStays` | lakehouse-traces/internal/vlstorage/insert.go:574-610 | re-promoting a trace row again changes nothing |
| `TraceRows.MergeTraceFiles` | internal/compaction/compactor.go:681-710 | a trace merge is ordered by time, service and trace, holds exactly the sources' content, and another merge would change nothing, with or without re-promotion |
| `Compactor.FirstDuplicateKey` | internal/compaction/compactor.go:933-942 | returns the first repeated key; "" for distinct keys, or when the first repeated key is empty |
| `Compactor.ApplyFence` | internal/compaction/compactor.go:312-348 | keeps the unfenced inputs in order; a merge goes on if and only if nothing was fenced or two or more files are left |
| `Compactor.ClaimOutputKey` | internal/compaction/compactor.go:225-235 | the first free key of five draws becomes pending; with none free nothing changes |
| `Compactor.Settle` | internal/compaction/compactor.go:513-564 | publish and delete the sources, or retire the output before deleting it, or leave a foreign object alone: the whole new manifest and bucket, whichever deletes fail |
| `Compactor.SettleDeletesRetired` | internal/compaction/compactor.go:541-564 | whatever raced before the publish, every object a merge deletes is retired and not served, and a failed delete stays owed |
| `Compactor.SweepKeys` | internal/compaction/orphan_sweep.go:396-471 | what left the bucket was listed, old enough, had a record not settled and old enough, and was neither served, pending nor held; every such key whose delete does not fail is gone and settled, and nothing else changes |
| `TenantGroups.GroupFilesByTenant` | internal/compaction/compactor.go:237-266 | the groups in (prefix, bucket) order, each with all its files in manifest order, none missing |
| `TenantGroups.OneGroupOneOutput` | internal/compaction/compactor.go:135-166 | the files of one tenant group become one group with all of them: one output, no tenant mixed |
| `Schemas.MajorityFingerprint` | internal/compaction/planner.go:371-389 | for every order of the count map, the present fingerprint preferred to all others by count, then current, then smallest |
| `Schemas.MajorityIsUnique` | internal/compaction/planner.go:371-389 | that choice is unique |
| `Planner.FindGroupPlan` | internal/compaction/planner.go:231-275 | the loops compute the group's plan: thresholds, then rollup, then hint |
| `PlanReasons.L0Planned` | internal/compaction/planner.go:242-246 | two or more files of an old enough hour, enough of them at level 0 and two of one schema there: exactly the level-0 files of the most common schema are merged, in order |
| `PlanReasons.L1Planned` | internal/compaction/planner.go:247-251 | the same of level 1, when level 0 has nothing due |
| `PlanReasons.RollupPlanned` | internal/compaction/planner.go:252-273 | with neither level due, a closed hour rolls up the small files of the most common schema, ties to the current one, from the highest of their levels |
| `PlanReasons.HintPlannedLast` | internal/compaction/planner.go:274-312 | with nothing else due: the top level's most common schema is healed if it is stale, else its small files are merged if a file is stale or the top level is 2 or above and has two files |
| `PlanReasons.HealPlanned` | internal/compaction/planner.go:239-241 | without size merges only a stale schema is healed |
| `PlanReasons.ReasonHolds` | internal/compaction/planner.go:231-275 | each reason is given only under its own count or age condition, and none for fewer than two files or too young an hour |
| `Planner.FindHintPlan` | internal/compaction/planner.go:280-312 | the loops compute the hint's plan |
| `Planner.FindRecompactionLevel` | internal/compaction/scheduler.go:102-130 | the top level, when a file is stale or two or more files sit at a top level of 2 or above |
| `Planner.SelectFiles` | internal/compaction/policy.go:49-74 | the files of the level's majority fingerprint at that level, in order |
| `Planner.PlanIsWellFormed` | internal/compaction/planner.go:231-312 | every plan has two or more of the group's own files, one fingerprint, and an output level above every input's |
| `Planner.PlanPermutes` | internal/compaction/planner.go:231-275 | the same level, reason and multiset of files for every order of the group's files |
| `Planner.SettledGroup` | internal/compaction/planner.go:252-273 | past the rollup age with size merges allowed, a group without a plan has at most one immature file per fingerprint |
| `Convergence.RunBounds` | internal/compaction/compactor.go:520-535 | over any plan-then-merge run without new input, each merge taking the plan or any two or more files the fence and the live recheck leave of it: fewer merges than files, the file count falls with every merge, raw bytes are conserved, and a row is rewritten at most its file's level times |
| `Convergence.GroupSettles` | internal/compaction/planner.go:231-312 | at a fixed age past both thresholds every group reaches, by its own plans, a state with at most one immature file per fingerprint |
| `Partition.PartitionPlanner.PlanPartition` | internal/compaction/planner.go:118-200 | the two passes with scratch maps yield exactly the plans of the plain reading, one for each group that has one |
| `Partition.PlanPassesGates` | internal/compaction/planner.go:104-200 | every plan has live files of one tenant group and one schema, none held, fenced or class-frozen, two or more, below the output level |
| `Partition.GroupHasAll` | internal/compaction/planner.go:118-160 | a group has exactly the files of its prefix and bucket that are neither held, fenced nor class-frozen |
| `Partition.PlannedUnlessFrozen` | internal/compaction/planner.go:162-200 | a group past its freeze age is left alone, and any other is planned from its files |
| `Partition.TenantOfPrefix` | internal/compaction/planner.go:349-365 | the fair-share tenant is the account and project of the prefix, or the default one |
| `Partition.BytesAdd` | internal/compaction/planner.go:180-200 | a plan's bytes are the sum of its files' sizes |
| `Partition.PartitionPlansPermute` | internal/compaction/planner.go:118-200 | a partition's plans depend on its files, not on their order |
| `PlanOrder.SortedPlansAreUnique` | internal/compaction/planner.go:327-347 | one plan per partition and group sorts to one sequence, whatever order the plans were collected in |
| `PlanOrder.OpenHoursFirst` | internal/compaction/planner.go:327-333 | no open-hour merge is tried after a closed-hour one |
| `PlanOrder.TriedInOrder` | internal/compaction/planner.go:327-347 | of equal priority no later plan removes more files per byte rewritten, and of those that remove as many none is of an older hour |
| `ScanPlans.CollectPlans` | internal/compaction/scheduler.go:445-462 | the walk over the partitions collects exactly the plain reading's plan of every group of every partition, once each |
| `ScanPlans.ScansAgree` | internal/compaction/planner.go:327-347 | two scans over manifests with the same files in any order, walked in any order, sort to sequences that name the same merges one by one |
| `Keys.PrefixKeepsTenant` | internal/manifest/compaction_candidates.go:226-262 | a non-empty group prefix names the same tenant as the key it came from |
| `Keys.GroupPrefixOf` | internal/manifest/compaction_candidates.go:226-262 | a key of two numbers, a mode and something behind them has their prefix |
| `Keys.GroupPrefixNeeds` | internal/manifest/compaction_candidates.go:226-262 | no key of another shape has a prefix |
| `Keys.ParseTenantOf` | internal/delete/storageclass.go:234-262 | a key names the tenant of its first two segments, if both are numbers below 2^32 |
| `Keys.LabelIsInjective` | internal/compaction/planner.go:162-200 | the labels of different tenant groups differ |
| `Freeze.FreezeView.LimitsFor` | internal/compaction/lifecycle_freeze.go:161-174 | the cached answer is the uncached one, however often it was asked |
| `Freeze.ViewAgreesIff` | internal/compaction/lifecycle_freeze.go:140-206 | the view keeps out exactly the files the simple form does at every age, if and only if the key is not shadowed, or is class-frozen, or its tenant's rules freeze at the global age |
| `Freeze.ShadowedKeyDiffers` | internal/compaction/lifecycle_freeze.go:161-166 | on every shadowed key there is a configuration where the two differ |
| `Freeze.ShadowedKeyExists` | internal/manifest/compaction_candidates.go:226-262 | the key `1/2/x` is shadowed: it names tenant (1, 2) and has no group prefix |
| `Freeze.TransitionLimits` | internal/compaction/lifecycle_freeze.go:88-107 | the freeze age lies between half the transition and the transition and grows with it |
| `Freeze.TransitionFreezes` | internal/compaction/lifecycle_freeze.go:88-107 | a group is frozen from its transition less the margin on, two days by default and at most half the transition |
| `Freeze.NoTransitionNeverFreezes` | internal/compaction/lifecycle_freeze.go:88-107 | without a transition nothing freezes and size merges end at the configured age, a week by default |
| `Freeze.EarliestRuleFreezes` | internal/compaction/lifecycle_freeze.go:109-122 | no rule that applies to the key freezes later than its limits, and one of them gives the limits |
| `Freeze.NoRuleNeverFreezes` | internal/compaction/lifecycle_freeze.go:109-122 | without an applicable rule nothing freezes |
| `Freeze.ClassFrozenIff` | internal/compaction/lifecycle_freeze.go:62-70 | a recorded class freezes a file unless it is one of the two rewritable ones, in whatever case |
| `Freeze.ConflictIff` | internal/compaction/freeze_warnings.go:14-17 | the warning fires if and only if the rollup is enabled and no age is past it and unfrozen |
| `Freeze.ConflictMeansNoRollup` | internal/compaction/freeze_warnings.go:14-17 | with the warning no unfrozen group at any age is planned as a rollup |
| `Ownership.RankFromPeers` | internal/compaction/ownership.go:350-367 | weighing, sorting records and stripping weights is sorting the peers by weight and name |
| `Ownership.OwnsPartition` | internal/compaction/ownership.go:277-291 | true exactly for a settled, identified, non-draining pod at the top of the ranking |
| `Ownership.OwnsIff` | internal/compaction/ownership.go:277-291 | a pod owns a partition if and only if its ring is settled and it is a peer that does not drain and outweighs every other such peer |
| `Ownership.StealsIff` | internal/compaction/orphan_sweep.go:249-260 | of peers listed once a pod passes the steal gate if and only if exactly one such peer outweighs it |
| `Ownership.WeighedApart` | internal/compaction/ownership.go:127-145 | different pairs of peer and partition are hashed apart |
| `Ownership.RankingPermutes` | internal/compaction/ownership.go:239-265 | the ranking does not depend on the order of the peer list, collisions included |
| `Ownership.ExactlyOneOwner` | internal/compaction/ownership.go:277-291 | of the settled pods of one ring with a member left, exactly the pod of one member owns the partition |
| `Ownership.AtMostOneOwner` | internal/compaction/orphan_sweep.go:249-260 | two pods with distinct entries never both own a partition, nor both steal it |
| `Ownership.ThiefIsAnotherPodIff` | internal/compaction/orphan_sweep.go:249-260 | a thief differs from the primary if and only if the primary is listed once |
| `Ownership.DuplicateStealsFromItself` | internal/compaction/orphan_sweep.go:249-260 | a pod whose peer list names it twice owns every partition and passes the steal gate for it |
| `Ownership.RankingWithout` | internal/compaction/ownership.go:208-265 | draining or removing peers leaves the old ranking with just those peers gone |
| `Ownership.OnlyRemovedMove` | internal/compaction/ownership.go:308-317 | a kept primary stays; a removed primary's partition goes to its former secondary |
| `Ownership.AddedPeerOnlyTakes` | internal/compaction/ownership.go:239-265 | a new peer changes a partition's owner only to itself |
| `Ownership.FallbackOwnership` | cmd/lakehouse-logs/main.go:774-802 | with discovery and no list nobody owns or steals; without discovery the pod owns every partition |
| `FairShare.FairShareScheduler.PickCandidates` | internal/compaction/fair_share.go:46-102 | the nested loops return the head of the plain round robin from the cursor, and move the cursor by one |
| `FairShare.PickIsFull` | internal/compaction/fair_share.go:46-102 | exactly min(slots, plans) plans, and of each tenant a prefix of its own in order |
| `FairShare.PickIsFair` | internal/compaction/fair_share.go:66-102 | while a tenant has a plan left, no other tenant got more than the quantum more |
| `TenantLists.SortedTenantList` | internal/compaction/fair_share.go:166-183 | the insertion sort yields each tenant once, in order |
| `Ordering.LexLessMeans` | internal/compaction/fair_share.go:166-183 | strings compare by the first place where they differ, and a string comes after its own beginnings |
| `FairScans.Scan` | internal/compaction/scheduler.go:476-526 | one scan is one event of the run model: what it picks, serves, and where it leaves the cursor; one that a drain stops has started its picks in order up to there and moved the cursor by one |
| `FairScans.ScanServesWindow` | internal/compaction/scheduler.go:487-505 | with quantum 1 a scan serves a cyclic window from the cursor; cut, it leaves the cursor at the window's end, and not cut, the window is every tenant |
| `FairScans.EveryTenantIsServed` | internal/compaction/fair_share.go:104-114 | however the scans are cut, every tenant is served within as many scans as there are tenants |
| `Backoff.PlanBackoff.FilterInPlace` | internal/compaction/backoff.go:29-54 | over the reused slice: exactly the plans not waiting, in order, and exactly the entries offered again remembered |
| `Backoff.PlanBackoff.Succeed` | internal/compaction/backoff.go:79-83 | a success forgets exactly the plan's entry |
| `Backoff.Double` | internal/compaction/backoff.go:64-74 | the doubling loop computes min(1h, base * 2^(failures-1)), and its highest value stays below twice the cap unless the interval itself does not |
| `Backoff.WaitDoubles` | internal/compaction/backoff.go:56-77 | the first wait is the interval, a minute by default, and every further failure doubles it up to an hour |
| `Backoff.KeyIsOwn` | internal/compaction/backoff.go:25 | plans share a memory entry if and only if they are of one group of one partition |
| `Backoff.RetriedExactlyAfterWait` | internal/compaction/backoff.go:29-77 | a failed plan that every scan offers is withheld exactly until its wait has passed |
| `Backoff.MemoryIsBounded` | internal/compaction/backoff.go:29-54 | over every run the remembered keys are among the plans last offered and the failures since |
| `Backoff.CountsFailuresInARow` | internal/compaction/backoff.go:56-83 | the remembered count is the failures since the last success or the last scan without the plan |
| `Bloom.BloomFilter.Add` | internal/bloomindex/bloomindex.go:184-190 | in place: the filter with exactly the value's positions set as well |
| `Bloom.BloomFilter.MayContain` | internal/bloomindex/bloomindex.go:193-202 | true exactly when all of the value's bits are set |
| `Bloom.BloomFilter.MergeFrom` | internal/bloomindex/bloomindex.go:204-218 | in place, also onto itself: the bytes of the overlap OR-ed |
| `Bloom.AddedIsAccepted` | internal/bloomindex/bloomindex.go:184-202 | an added value is accepted and no accepted value is lost |
| `BloomTiers.BuiltBits` | internal/bloomindex/partitioned.go:55-69 | a built filter has the bits of its values and no others |
| `Bloom.UnionIsSafeIff` | internal/bloomindex/bloomindex.go:204-218 | for all shapes a filter can have, decoded ones included, a union keeps every value of both filters for every hash if and only if the shapes are compatible; for filters sized by their values, if and only if the lengths agree and the target has no more hashes |
| `BloomIndex.MayContainAll` | internal/bloomindex/bloomindex.go:59-114 | returns, in order, the keys that are not indexed or whose filters, for the columns that have one, accept every checked value |
| `BloomRuns.StepKeeps` | internal/bloomindex/bloomindex.go:27-55 | every operation (new index, AddFile, filter growth, Add, MergeFrom, RemoveKeys, reload from the binary form, either downgrade) keeps every index sound, those sharing the changed table or filter included |
| `BloomRuns.AddFileKeeps` | internal/bloomindex/partitioned.go:35-69 | an added file's filters, built from its values by the 50000 rule, cover it |
| `BloomRuns.ReloadKeeps` | internal/bloomindex/bloomindex.go:251-437 | the index decoded from what Marshal wrote covers what the written one covered |
| `BloomRuns.DowngradeKeeps` | internal/bloomindex/tiering.go:128-177 | a downgrade, to file keys or to the summary key, leaves its own index and all that share the united filters sound |
| `BloomRuns.NeverSkips` | internal/bloomindex/bloomindex.go:84-114 | after any run of operations from an empty process, a query on any index, fine or coarse, of one partition or of many, keeps every file the index is about that meets its checks |
| `BloomPartitions.PartitionDowngrades` | internal/bloomindex/metadata_compactor.go:34-97 | a partition whose units are indexed with filters of one shape can be downgraded to its files, to its summary, and from files to summary, whatever any other partition holds |
| `BloomPartitions.PartitionNeverSkips` | internal/bloomindex/metadata_compactor.go:34-97 | in a store with any number of partitions, after any run, a partition's downgraded index skips none of its units that meets the checks |
| `BloomPartitions.LateFileRuledOutIff` | internal/bloomindex/metadata_compactor.go:80-97 | a file added to an index that has its summary is ruled out by the summary for a value, if and only if the summary has a filter for the column that does not accept it, whatever filters the file has |
| `BloomSkips.LateFileIsSkipped` | internal/bloomindex/metadata_compactor.go:80-97 | a legal run to a summary and a legal late file, for whose value the summary rules the partition out |
| `BloomSkips.LargeRowGroupIsSkipped` | internal/bloomindex/tiering.go:128-156 | a legal run in which a row group of 50001 distinct values has no filter, after which the downgrade makes its file skipped for a value it holds |
| `BloomTiers.BuildFileColumns` | internal/bloomindex/partitioned.go:55-69 | a filter for exactly the columns of at most 50000 values, accepting all of them |
| `BloomTiers.BuiltCovers` | internal/bloomindex/partitioned.go:55-69 | a filter built from at least the values a file holds covers the file, in any index where its key is its own |
| `BloomTiers.Downgrade` | internal/bloomindex/tiering.go:128-177 | both downgrades: no filter loses a bit, each group's filter is one of its own and has every bit of the group it has room for, filters that take in no group are unchanged, and no set of filters closed under the groups they take in gains a bit from outside |
| `BloomTiers.UnitedExactly` | internal/bloomindex/tiering.go:144-153 | where no filter belongs to two groups, a bit of a group's united filter is set if and only if a filter of the group had it |
| `BloomDowngrades.DowngradeCovers` | internal/bloomindex/tiering.go:128-177 | with one shape and a filter for every unit of the group that holds values of the column, the united filter covers the group |
| `BloomDowngrades.SafeDowngradeIff` | internal/bloomindex/tiering.go:128-177 | a downgrade is safe for every content if and only if every unit of the group has a filter for the column or the united filter accepts everything |
| `BloomHeap.GrowingKeeps` | internal/bloomindex/tiering.go:144-153 | filters united or grown in place leave every index that shares them sound, the downgraded source included |
| `BloomHeap.ColumnsAdded` | internal/bloomindex/bloomindex.go:27-55 | added columns replace those of the same name under their key, and the rest of the index stays |
| `BloomHeap.IndexesMerged` | internal/bloomindex/bloomindex.go:450-468 | a merged index has the keys of both and under each the columns of both, the other's where both have one |
| `RowGroupKeys.RowGroupKeyRoundTrip` | internal/bloomindex/tiering.go:101-117 | every row-group key parses back to its file and index |
| `RowGroupKeys.RowGroupKeyShape` | internal/bloomindex/tiering.go:101-117 | what parses is a file, a # and an index, and a key without a # is a file of its own |
| `IndexCoder.Marshal` | internal/bloomindex/bloomindex.go:251-282 | the bytes of one enumeration of the maps, exactly as many as the first pass reserved |
| `IndexCoder.Unmarshal` | internal/bloomindex/bloomindex.go:286-437 | reads position by position exactly what the format of either version allows |
| `ItemLists.ReadEach` | internal/bloomindex/bloomindex.go:336-365 | the decoding loop reads the items one after the other and ends at the first that cannot be read |
| `IndexRoundTrip.MarshalUnmarshal` | internal/bloomindex/bloomindex.go:251-437 | every enumeration of an index within the format's widths decodes to the index |
| `IndexRoundTrip.AcceptedReencodes` | internal/bloomindex/bloomindex.go:286-437 | whatever bytes of either version are accepted, the decoded index can be written and read back unchanged |
| `IndexCodec.PutGet` | internal/bloomindex/bloomindex.go:323-331 | no written form is refused by the count checks, whatever follows it |
| `IndexCodec.PutGetV1` | internal/bloomindex/bloomindex.go:328-369 | bytes of version 1 read back with their filters as those of the trace ids |
| `IndexCodec.SmallIndexBytes` | internal/bloomindex/bloomindex.go:251-282 | the exact bytes of a small index |
| `IndexCodec.AcceptedHeader` | internal/bloomindex/bloomindex.go:286-331 | what is accepted has a known version and at most a million entries that fit the data |
| `IndexCodec.AddEntriesAt` | internal/bloomindex/bloomindex.go:336-365 | of entries with one key the last is kept |
| `IndexCodec.AddColumnsAt` | internal/bloomindex/bloomindex.go:371-437 | of columns with one name the last is kept |
| `Wire.LittleEndian` | internal/bloomindex/bloomindex.go:251-282 | the low byte of a length or count comes first |
| `IndexRoundTrip.SealedRoundTrip` | internal/bloomindex/tiering.go:201-220 | the checksum wrapper round-trips |
| `IndexRoundTrip.UnmarshalSealed` | internal/bloomindex/tiering.go:207-220 | accepts exactly long enough data whose stored sum is that of the payload, decoded |
| `Singleflight.OneRunPerKey` | internal/cache/coalesce.go:38-50 | in every reachable state at most one run of fn per key is in flight |
| `Singleflight.SharedResults` | internal/cache/coalesce.go:52-66 | a shared result is the one of the call joined and no context error; a context error is the caller's own; a leader gets its own run's |
| `Singleflight.WakeShares` | internal/cache/coalesce.go:52-66 | a woken caller gets exactly what its call recorded, unless that is a context error: then its own context's error, or else it starts over |
| `Singleflight.TriedCallsFailed` | internal/cache/coalesce.go:58-63 | a caller is sent back only from calls that recorded a context error |
| `Singleflight.RunRecords` | internal/cache/coalesce.go:69-83 | a call records what fn returned, or for a panic an error that is no context error |
| `Singleflight.NeverRejoins` | internal/cache/coalesce.go:69-91 | a caller never waits on a call it was sent back from, and no call in the map is closed, after panics too |
| `Singleflight.WaiterProgresses` | internal/cache/coalesce.go:72-91 | a waiter can wake or the leader of its call can take its next step |
| `Singleflight.WaitersAreCounted` | internal/cache/coalesce.go:104-113 | the waiters counter of a call in flight is the number of callers waiting on it |
| `Lru.Cache.Put` | internal/cache/lru.go:134-199 | an admitted put leaves the longest prefix of the new recency order that fits, a rejected one the old order without the key's reservation; the bound moves by exactly what the entries hold |
| `Lru.Cache.Get` | internal/cache/lru.go:91-103 | a hit returns the value and moves the entry to the front, keeping all totals |
| `Lru.Cache.Delete` | internal/cache/lru.go:214-228 | the entry leaves map and order and gives back its reservation once |
| `Lru.Cache.Clear` | internal/cache/lru.go:263-280 | empty, with every reservation given back |
| `Lru.Cache.SetBound` | internal/cache/lru.go:63-67 | entries cached before the bound is set hold no reservation |
| `LruOrder.FitIsLongest` | internal/cache/lru.go:190-211 | what stays is a prefix of the recency order that fits, and no longer prefix fits: eviction drops no more than it must |
| `Lru.Bound.TryAcquire` | internal/resourcebounds/bounds.go:296-325 | admits and reserves exactly by the limits, at least one byte and at most the limit, an outlier alone |

## Left out

- Crashes: one process lifetime and one manifest; pods with separate manifests, recovery of
  pending and held keys, `Unretire` and `ExpectInListing` are not modelled.
- Protocol: an object's content is a fixed multiset of rows, which leaves out log rows whose
  severity text depends on the order of a map.
- An upload that fails but leaves the object behind is not modelled.
- Compactor.Settle: runs without interference inside; the interleavings are those of `Protocol`.
- Compactor.ApplyFence: the fence is a given set; the test for unknown columns behind it and
  failing downloads are not modelled.
- Compactor.SweepKeys: the peer, prefix and protected-path gates choose the keys it is given,
  and the second read of the manifest before each delete is the same as the first.
- LogRows.MergeLogFiles: rows have the fields a merge reads or writes; the body and the rest are
  not modelled.
- Rows.MergeFiles: Parquet reading and writing and their errors are not modelled; rows are values.
- Manifests.Manifest.ApplyListing: label index, sizes and the HEAD sample behind a confirmed
  shrink are not modelled; the cap on the log of recent adds is not modelled.
- PlanOrder.SortedPlansAreUnique: the debt is a real number, so rounding ties are not modelled.
- ScanPlans.CollectPlans: the segment guard (`guard.ReleasedFiles`) has chosen the files it is
  given, and ownership and the parsing of partition times the partitions.
- ScanPlans.ScansAgree: both scans have one clock, configuration, segment guard and set of held
  keys.
- FairShare.FairShareScheduler.PickCandidates: the tenant is the one the planner set; the
  fallback that derives it from a partition string is not modelled, nor is integer overflow of
  the cursor.
- FairScans.Scan: merges are abstract, the live recheck and the backoff updates inside the loop
  are not modelled, and that no merge starts after a drain returned is not
  claimed.
- Ownership.OwnsPartition: how a pod finds its own entry (addresses, DNS) is a parameter.
- Bloom: the floating-point sizing of filters is a parameter.
- BloomRuns.StepKeeps: the indexes' maps are references in an explicit heap, not Dafny objects.
  A writer is assumed to add a file under its own key, a filter added by hand to cover its key, a
  written index to fit the format's widths, and a downgrade to meet filters of one shape with none
  missing among the units its result is about: the code checks none of these.
- BloomPartitions.PartitionNeverSkips: a file added to a partition after its summary was made is
  not one the summary is about; `BloomPartitions.LateFileRuledOutIff` says what becomes of it.
- BloomTiers.Downgrade: filters are values in a heap map; the byte loop of a union is
  `Bloom.BloomFilter.MergeFrom`.
- IndexCoder.Unmarshal: the column loop inside an entry is a recursive function, and the maps are
  filled after the loop has read the entries; the kinds of decoding errors are one.
- Singleflight: the group is a state machine over its locked sections and channel operations,
  not a class.
- Lru.Cache.Put: hit, miss and eviction counters, value copying and buffers shared by reference
  are not modelled.
- `stillLive`, `compactableNow`, `ForceCompactPartition`, compression schedules, label and bloom
  value extraction, metrics, logging, TTL compression, the disk cache, cache persistence and
  configuration sync: easy members or I/O.
- Tier B's assignment of date prefixes to peers, which indexes the peer list as given.
