# TopoLight: verified models

A Dafny model of the parts of TopoLight in which the deciding logic is hardest, with proofs of what
they promise. `dafny verify dfyconfig.toml` checks everything.

- **Leader election** (`ElectionNode`, `ElectionSafety`, `ElectionRaces`): the vote and heartbeat protocol
  as a transition system over all nodes, with volatile and persisted state, lost, late and repeated
  messages, and crashes. At most one node ever wins a term. Two operations of the source are not atomic
  (persisting a campaign after the lock is dropped, sending a heartbeat after the leadership check); the
  theorem holds for runs in which their second half still finds the term the first half read, and a concrete
  run for each shows two winners of one term without it.
- **Line diff** (`Subsequence`, `EditScript`, `Furthest`, `LineDiff`): Myers' search on its array,
  backtracking, trimming and the fallback. Every script is valid and numbered right, and the exact condition
  for being a shortest one is proved. The source's comment speaks of 20k lines; its code counts both trimmed
  halves against 40000.
- **Time-series store** (`TsdbBytes`, `TsdbFile`, `TsdbStore`, `TsdbLog`, `TsdbRuns`, `TsdbMarks`,
  `TsdbRaces`, `TsdbBack`, `TsdbAccepted`, `TsdbQuery`, `TsdbCompact`, `TsdbDisk`, `TsdbLife`, `Sorting`):
  chunk and file format down to bytes, the store as a refinement of a plain log per series over every run
  with checkpoints and crashes, what a crash costs, and compaction that gives the same rollups however often
  it is interrupted. The log is told from the appends of a run alone. Store and compaction together: over
  every life each rollup bucket shows mean, least and greatest of the log's values in its five minutes, and
  a query is those buckets followed by the log's samples.
- **State engine** (`UpstreamTree`, `SiteRoots`, `CutPoints`, `Impact`, `Alerts`, `Hysteresis`,
  `DeviceStatus`): the upstream tree and the impact count, alert uniqueness under every interleaving with the
  web, and alerts, thresholds and device status as functions of the whole history. The project README says
  that a device is marked unreachable when its only path runs through the failed one; the code follows the breadth-first
  parent, and the model follows the code. Every device that is cut off is below the failed one, and all below
  it are cut off exactly when no link leads around it.
- **SNMP** (`Bytes`, `Ber`, `SnmpPdu`, `SnmpV3`, `SnmpSign`): the BER codec up to PDUs (sections 8.1, 8.3 and
  8.19 of ITU-T X.690, section 3 of RFC 3416), the location of the authentication field (section 6.3.2 of
  RFC 3414), that what is built and signed parses back and verifies, and that answers of an agent with the
  literal tags of the standard, exceptions included, arrive as they were sent.
- **Cluster data** (`Forwarder`, `Mirror`, `MirrorSync`, `Sharding`) and **flows** (`FlowRings`,
  `FlowConservation`, `FlowReload`): store-and-forward, directory mirroring, device assignment, conservation
  of flow totals slot by slot, and windows that count nothing twice.

State that the source changes in place is a class whose methods are proved against functions on values;
the theorems are about those functions and about all runs of the steps built from them. Names, lines and
identifiers that are only compared are numbers. Clocks, hashes, compression, float arithmetic and
freshness decisions are parameters or free choices. `Wrappers` holds the option and result types.

Where a property fails in the code, the failing case is a lemma and the condition under which it holds is
proved: the two election races, the checkpoint written after its hour closed, the overwrite that leaves the
hour clean, buckets of days before 1970, devices below a failed one that have another way, crossed
thresholds, integers that are not encoded in minimal length, object identifiers and values that do not
survive encoding, the placeholder that occurs earlier in a message, the fallback of the diff, a journal that
is re-created, a day's journal that is there twice, a restart in an hour before the open one, a day that has
passed the raw cut and is not compacted yet.

## Model

| member | source | states |
|---|---|---|
| `ElectionNode.Node.constructor` | internal/cluster/node.go:129-135 | a node resumes as follower with the persisted term and vote, and nothing else from before |
| `ElectionNode.Node.SaveIdentity` | internal/cluster/identity.go:133-151 | the disk identity becomes the memory identity; role, term and vote in memory stay |
| `ElectionNode.Node.StepDownLocked` | internal/cluster/node.go:418-427 | the node becomes a follower; only a leader-mode node also saves its identity |
| `ElectionNode.Node.RaiseTerm` | internal/cluster/node.go:342-347 | the locked half of a campaign: next term, own vote, candidate, in memory only |
| `ElectionNode.Node.PersistCampaign` | internal/cluster/node.go:348-349 | the unlocked half: term and vote of the campaign go to memory identity and disk, whatever happened in between |
| `ElectionNode.Node.FinishCampaign` | internal/cluster/node.go:374-396 | leader exactly when still candidate of the same term with a strict majority of full members; otherwise follower or unchanged |
| `ElectionNode.Node.ObserveTermLocked` | internal/cluster/node.go:399-416 | a newer term is adopted, its vote cleared on disk too, a leader steps down; an older one changes nothing |
| `ElectionNode.Node.OnVote` | internal/cluster/transport.go:283-317 | a vote is granted exactly when the term is not old, the candidate's data is not clearly staler, the voter is a full member, and its vote of the term is free or already this candidate's; then it is given in memory and on disk; the whole new state otherwise |
| `ElectionNode.Node.OnHeartbeat` | internal/cluster/transport.go:235-256 | a stale heartbeat changes nothing; an accepted one clears the vote in memory but keeps the persisted one |
| `ElectionSafety.QuorumsMeet` | internal/cluster/node.go:333-341 | any two majorities of the full members share a member |
| `ElectionSafety.NobodyElseWon` | internal/cluster/node.go:374-381 | a candidate that counts a majority is the first winner of its term, although heartbeats may have cleared votes within the term |
| `ElectionSafety.Step` | internal/cluster/node.go:332-427 | every guarded step of every node keeps the cluster invariant: each winner's quorum is past the term or follows in it with the vote fixed |
| `ElectionSafety.ElectionIsSafe` | internal/cluster/node.go:332-427 | over every guarded run with message loss, delay, duplication and crashes, no two different nodes ever win the same term; guarded means that a campaign is persisted and a heartbeat built while the term is still the one the first half read |
| `ElectionSafety.OneLeaderPerTerm` | internal/cluster/node.go:381-383 | over every guarded run, two nodes that lead the same term at the same time are the same node |
| `ElectionSafety.TermsNeverDecrease` | internal/cluster/transport.go:247-253 | no step lowers a node's term in memory or on disk; a restart resumes at the persisted term |
| `ElectionSafety.PersistedTermNeverDecreases` | internal/cluster/transport.go:253-276 | over every guarded run the persisted term never decreases |
| `ElectionSafety.RestartFreesNoVote` | internal/cluster/transport.go:252-253 | in every guarded run a restart from the disk grants nothing of the present or a later term that the running node would refuse, except in the term of an own campaign that is not written yet |
| `ElectionSafety.EveryGrantIsCast` | internal/cluster/transport.go:303-313 | in every run, guarded or not, each vote on record is a full member's, and one for another node answers that node's request with the freshness test passed |
| `ElectionSafety.WinnersAreFresh` | internal/cluster/node.go:355-381 | over every guarded run each winner has more than half of the full members behind it, every one but itself with a vote that passed the freshness test |
| `ElectionRaces.StaleHeartbeatElectsTwice` | internal/cluster/node.go:430-433 | a three-node run from the start, of campaigns, answers and heartbeats only, whose one fault is a heartbeat built after its sender's term moved on, has two winners of one term |
| `ElectionRaces.StalePersistElectsTwice` | internal/cluster/node.go:347-349 | a three-node run from the start whose one fault is a campaign persisted after the term moved on has two winners of one term |
| `EditScript.EditsByKept` | internal/backup/diff.go:3-9 | the edits of any script from a to b are both lengths minus twice the kept lines |
| `EditScript.KeptIsOld` | internal/backup/diff.go:3-9 | the kept lines of a script are a subsequence of the old text |
| `EditScript.KeptIsNew` | internal/backup/diff.go:3-9 | the kept lines of a script are a subsequence of the new text |
| `Furthest.DominatedByCommon` | internal/backup/diff.go:57-69 | any common subsequence gives a path, so the furthest-reaching points of that many edits reach the corner |
| `Furthest.FirstHitIsCorner` | internal/backup/diff.go:70-73 | the first point with x >= n and y >= m is exactly (n, m), although points may leave the grid |
| `Furthest.SomeHit` | internal/backup/diff.go:55-70 | the search hits the corner by n + m edits at the latest |
| `LineDiff.Advance` | internal/backup/diff.go:58-68 | the step and slide from the previous round's array is the furthest-reaching point of (d, k), every index in range |
| `LineDiff.Round` | internal/backup/diff.go:57-74 | a round in place turns the array of furthest points for d - 1 into that for d, or stops at the corner |
| `LineDiff.Search` | internal/backup/diff.go:51-75 | the trace holds the true furthest points of every round, ends at the corner, and no earlier round hit it |
| `LineDiff.SearchIsOptimal` | internal/backup/diff.go:55-75 | when no round before d hits, no script has fewer than d edits |
| `LineDiff.Previous` | internal/backup/diff.go:80-89 | backtracking repeats the choice the forward step made |
| `LineDiff.StepBack` | internal/backup/diff.go:79-103 | one round back adds the slide and exactly one edit and arrives at a furthest point of the round before |
| `LineDiff.Backtrack` | internal/backup/diff.go:76-103 | the replayed path, read backwards, turns a into b with true line numbers and exactly as many edits as rounds |
| `LineDiff.ReverseOps` | internal/backup/diff.go:104-107 | the two-index swap loop reverses the array in place |
| `LineDiff.Myers` | internal/backup/diff.go:46-109 | the script turns a into b, is numbered right, and no common subsequence allows fewer edits |
| `LineDiff.CommonPrefix` | internal/backup/diff.go:17-20 | a common prefix, and one line more would not be common |
| `LineDiff.CommonSuffix` | internal/backup/diff.go:21-24 | a common suffix behind the prefix, and one line more would not be common or not behind it |
| `LineDiff.TrimKeepsCommon` | internal/backup/diff.go:15-29 | trimming prefix and suffix loses no longer common subsequence |
| `LineDiff.Replace` | internal/backup/diff.go:30-36 | the fallback removes all and adds all, numbered right |
| `LineDiff.ReplaceShortest` | internal/backup/diff.go:30-36 | the fallback is a shortest script exactly when the trimmed middles share no line |
| `LineDiff.Diff` | internal/backup/diff.go:14-44 | for all inputs the script turns a into b with true 1-based numbers, and it is a shortest one exactly when the trimmed middle has at most 40000 lines or its halves share no line |
| `TsdbBytes.WrapDifference` | internal/tsdb/tsdb.go:355-363 | adding a wrapped 64-bit difference back is exact for all int64 times |
| `TsdbBytes.VarintRoundTrip` | internal/tsdb/tsdb.go:363-364 | zig-zag varints read back every int64, whatever follows |
| `TsdbBytes.F32Idempotent` | internal/tsdb/tsdb.go:52-57 | clearing the low mantissa bits twice is clearing them once, NaN and infinities included |
| `TsdbBytes.F32Near` | internal/tsdb/tsdb.go:49-57 | NaN and infinities stay; else sign and exponent stay and a normal number comes nearer to zero by less than one part in 4096 |
| `TsdbFile.WriteChunk` | internal/tsdb/tsdb.go:352-369 | the loop that carries the previous time writes the specified chunk |
| `TsdbFile.ReadChunk` | internal/tsdb/tsdb.go:488-522 | the loop that advances a position decodes exactly as specified, every malformed chunk included |
| `TsdbFile.ChunkRoundTrip` | internal/tsdb/tsdb.go:488-522 | every chunk decodes to its points: times exactly, values under f32, three per point in rollups |
| `TsdbFile.DataTiles` | internal/tsdb/tsdb.go:370-373 | the chunks tile the data region without gap or overlap |
| `TsdbFile.FileOpens` | internal/tsdb/tsdb.go:400-458 | every written file passes the magic and size checks and yields the index that was written |
| `TsdbFile.WriteFile` | internal/tsdb/tsdb.go:370-386 | chunks while the offset advances, index, trailer: the specified file |
| `TsdbFile.WriteRaw` | internal/tsdb/tsdb.go:330-397 | the whole hour file of a head, series in id order |
| `TsdbFile.TableRoundTrip` | internal/tsdb/tsdb.go:464-484 | from any written file every series reads back point by point, and a series that was not written is empty |
| `TsdbFile.HourFileRoundTrip` | internal/tsdb/tsdb.go:464-522 | from the file of any head each series reads back with its times exactly and its values under f32 |
| `TsdbFile.HourFileSeries` | internal/tsdb/tsdb.go:444-450 | the index of an hour file lists exactly the head's series |
| `TsdbStore.FileCodecIsFaithful` | internal/tsdb/tsdb.go:330-522 | what is proved of the store holds of the bytes on disk, for any lossless compression |
| `TsdbStore.Store.constructor` | internal/tsdb/tsdb.go:107-132 | opening restores the open hour from its checkpoint, if there is one |
| `TsdbStore.Store.RolloverLocked` | internal/tsdb/tsdb.go:278-294 | the whole new state: a later hour closes and stores the head, an earlier or equal one changes nothing |
| `TsdbStore.Store.Append` | internal/tsdb/tsdb.go:249-269 | the whole new state, the equal-time overwrite that leaves the hour clean included |
| `TsdbStore.Store.BeginCheckpoint` | internal/tsdb/tsdb.go:297-308 | the locked half: a dirty hour is copied and marked clean |
| `TsdbStore.Store.FinishCheckpoint` | internal/tsdb/tsdb.go:309-310 | the unlocked half: the snapshot replaces the file of its hour |
| `TsdbStore.Store.Find` | internal/tsdb/tsdb.go:558-588 | the hour loop and the head give the specified samples |
| `TsdbLog.QueryIsLog` | internal/tsdb/tsdb.go:558-588 | what a query takes from raw hours is exactly the plain log's window from the raw cut on, strictly increasing |
| `TsdbRuns.AppendStep` | internal/tsdb/tsdb.go:249-269 | an append changes hours, files and head as it changes the plain log |
| `TsdbRuns.TickStep` | internal/tsdb/tsdb.go:278-294 | a rollover changes nothing in the log; skipped hours are empty on both sides |
| `TsdbRuns.Step` | internal/tsdb/tsdb.go:249-310 | append, rollover, both checkpoint halves, compaction deletes and crash keep the refinement |
| `TsdbRuns.EveryQueryIsLog` | internal/tsdb/tsdb.go:528-589 | after every guarded run every query of every series returns exactly the accepted samples |
| `TsdbAccepted.LogIsAppends` | internal/tsdb/tsdb.go:247-269 | over every run between crashes the log holds exactly the last sample stored at each time, told from the appends alone: one stores its sample when the value is finite, no later hour was seen and no later sample of the series was offered |
| `TsdbRuns.CrashLosesOnlyTheEnd` | internal/tsdb/tsdb.go:165-181 | a crash takes a series back to an earlier version: only samples after the newest finished checkpoint go, and only the last kept value may be an earlier one |
| `TsdbRuns.CleanCrashLosesNoSample` | internal/tsdb/tsdb.go:297-312 | with a clean hour and no checkpoint under way a crash loses no sample, and no value but perhaps the last of a series |
| `TsdbRaces.OverwriteIsForgotten` | internal/tsdb/tsdb.go:261-266 | a run in which a clean store crashes and brings back the value from before an overwrite |
| `TsdbMarks.CrashKeepsIff` | internal/tsdb/tsdb.go:107-132 | a crash gives a series back as it was stored exactly when the file of the open hour holds what the head holds |
| `TsdbMarks.CleanCrashKeepsIff` | internal/tsdb/tsdb.go:261-269 | after every guarded run that ends clean with no checkpoint under way, a crash gives a series back as it was stored exactly when its last stored value is still the one of the newest snapshot; always when no append since overwrote its last sample |
| `TsdbRaces.StaleWriteKeepsIff` | internal/tsdb/tsdb.go:309-310 | a checkpoint written after its hour closed keeps the refinement exactly when its snapshot held all the hour's file held |
| `TsdbRaces.LateCheckpointLosesSample` | internal/tsdb/tsdb.go:305-310 | a run in which the checkpoint written after the rollover drops an accepted sample |
| `TsdbRaces.ClockBackLosesSample` | internal/tsdb/tsdb.go:107-132 | a run in which a restart in an hour before the open one leads to the loss of an accepted and checkpointed sample: the hour is opened again, empty, and its end overwrites the file |
| `TsdbBack.EarlierRestartAfterRun` | internal/tsdb/tsdb.go:107-132 | after every guarded run, a restart in an hour before the open one refines the log of all that is stored exactly when no later hour file has a sample |
| `TsdbQuery.FindDays` | internal/tsdb/tsdb.go:543-562 | the loop over rollup days |
| `TsdbQuery.DaysHold` | internal/tsdb/tsdb.go:543-562 | of the visited days only the one a bucket is filed under can give it |
| `TsdbQuery.FullQueryParts` | internal/tsdb/tsdb.go:528-589 | a query is rollup buckets before the raw cut, each the one its day's rollup holds of it, followed by the log's samples from the cut on, strictly increasing throughout |
| `TsdbQuery.RawQueryIsLog` | internal/tsdb/tsdb.go:528-589 | from the raw cut on a query is the plain log and nothing else |
| `TsdbQuery.CompactedDayOk` | internal/tsdb/tsdb.go:662-794 | a compacted rollup only holds buckets filed under its own day, times before 1970 included |
| `TsdbQuery.BucketInItsDayIff` | internal/tsdb/tsdb.go:662-794 | for all accepted times: the bucket lies in the day its hour is filed under exactly when it is not before 1970 or starts that day |
| `TsdbCompact.AddPoints` | internal/tsdb/tsdb.go:686-703 | each bucket then stands for its values before and the values of the points in its five minutes: their sum in order, their number, one that none is less than, one that is less than none |
| `TsdbCompact.GatheredSummarises` | internal/tsdb/tsdb.go:686-703 | for any comparison that is a strict order, as that of floats is with NaN included, points accumulate to sum, number, least and greatest of the values in the bucket, and to nothing when there are none |
| `TsdbCompact.BucketInHour` | internal/tsdb/tsdb.go:687-687 | an accepted sample's 5-minute bucket lies in its own hour |
| `TsdbCompact.AddFiles` | internal/tsdb/tsdb.go:669-705 | all hour files in any order: each bucket is the summary of its one hour |
| `TsdbCompact.Merge` | internal/tsdb/tsdb.go:706-726 | existing buckets stay where no raw hour has one, the first of duplicates wins |
| `TsdbCompact.RollupDay` | internal/tsdb/tsdb.go:662-794 | the new rollup, bucket by bucket and in time order: mean, least and greatest of all values the hour files hold in those five minutes, truncated; the old rollup's bucket where they hold none; nothing where neither has one |
| `TsdbCompact.RollupFileRoundTrip` | internal/tsdb/tsdb.go:727-794 | a rollup file gives every bucket back, times exactly and values under f32 |
| `TsdbCompact.PassAllowed` | internal/tsdb/tsdb.go:641-649 | however far a pass gets, hours disappear only behind the rollup that holds their buckets |
| `TsdbCompact.InterruptedAllowed` | internal/tsdb/tsdb.go:641-649 | the moves of any list of interrupted passes, each starting from what the last one left, are all of this kind |
| `TsdbCompact.MovesKeepFinal` | internal/tsdb/tsdb.go:641-649 | no sequence of such moves changes what a full compaction of any day would give |
| `TsdbCompact.RerunAfterCrashes` | internal/tsdb/tsdb.go:618-662 | any list of passes over any days, each broken off after the rename and some deletes, and then a full one: the same daily rollup as an uninterrupted run |
| `TsdbCompact.PassCompletes` | internal/tsdb/tsdb.go:641-649 | an uninterrupted pass leaves the final rollup and none of the day's hours |
| `TsdbDisk.StoreGivesOwnHours` | internal/tsdb/tsdb.go:249-310 | after every guarded run each hour file holds only samples of its own hour, which is what compaction relies on |
| `TsdbDisk.CompactedIsLog` | internal/tsdb/tsdb.go:618-794 | of a store that refines a log, however often compaction was interrupted, each bucket of a finished day shows mean, least and greatest of the log's values in its five minutes |
| `TsdbDisk.RollupReadsBack` | internal/tsdb/tsdb.go:727-794 | a rollup whose values are already truncated reads back from its file as the same rollup, for any lossless compression |
| `TsdbDisk.RolledIsCut` | internal/tsdb/tsdb.go:727-794 | what compaction computes is such a rollup |
| `TsdbDisk.RerunOnDisk` | internal/tsdb/tsdb.go:618-662 | on the files themselves: after any list of interrupted passes a full one leaves the day's rollup file reading as after an uninterrupted run |
| `TsdbLife.EventKeeps` | internal/tsdb/tsdb.go:208-310 | every step of the store, every replaced rollup and every deleted hour keeps this: rollups hold the summaries of the log, hours still there hold its samples, nothing else is missing |
| `TsdbLife.RolledBucket` | internal/tsdb/tsdb.go:662-726 | rolling up a day, from whatever hours earlier passes left of it, gives of every bucket the summary of the log's samples |
| `TsdbLife.LifeGivesOwnHours` | internal/tsdb/tsdb.go:669-705 | at every moment the hour files hold only samples of their own hour, which is what rolling up relies on |
| `TsdbLife.RollupsAreLog` | internal/tsdb/tsdb.go:618-662 | over every life from an empty directory, appends, checkpoints and crashes interleaved with passes that break off and run again, each bucket of each rollup shows mean, least and greatest of the values the log has in its five minutes, and is missing exactly when it has none |
| `TsdbLife.WholeQueryIsLog` | internal/tsdb/tsdb.go:528-589 | over every life a query is, strictly increasing in time, the summaries of the log for the rolled-up days before the raw cut, each with mean, least and greatest of the log's values in its bucket, and the samples of the log from the cut on |
| `TsdbLife.QueryIsCompleteIff` | internal/tsdb/tsdb.go:541-562 | over every life the part before the raw cut shows every summary in range exactly when each day with a sample in it is already rolled up (and, before 1970, one the loop visits) |
| `TsdbCompact.Directory.CompactDay` | internal/tsdb/tsdb.go:641-649 | the day's rollup is the final one, its hours are gone, other days and hours are untouched |
| `UpstreamTree.Adjacencies` | internal/state/engine.go:985-992 | neighbours over live, non-external links, both ways |
| `UpstreamTree.EdgeIff` | internal/state/engine.go:987-991 | two devices are neighbours exactly when some link that is neither external nor stale joins them, either way round |
| `SiteRoots.PickRoot` | internal/state/engine.go:1015-1022 | the first device of a site that no other beats by role and then by links |
| `SiteRoots.ChooseRoots` | internal/state/engine.go:993-1027 | in any order of sites: the configured root and, of each site, the device picked for it if it has a link, and no other |
| `UpstreamTree.Search` | internal/state/engine.go:1028-1047 | from the roots in any order: exactly the reachable non-roots get a parent; it is adjacent and exactly one hop nearer to its nearest root |
| `SiteRoots.ComputeParents` | internal/state/engine.go:982-1048 | from links, devices and configured root: the chosen roots and a tree of shortest ways to them, every parent joined by a link that is neither external nor stale |
| `CutPoints.EdgesAreSymmetric` | internal/state/engine.go:985-992 | the graph of live links leads both ways, as the next condition needs |
| `CutPoints.CutOffIsBelow` | README.md:72-72 | every device that the loss of p cuts off is below p, in every upstream tree |
| `CutPoints.BelowIsCutOffIff` | README.md:72-72 | the devices below p are all cut off by its loss exactly when no link leads from them to a device that is neither p nor below it |
| `CutPoints.ParentIsNotACutPoint` | internal/state/engine.go:1028-1047 | in a diamond the parent may fail and the device stays reachable, whatever tree the search returns |
| `Impact.TreeIsAcyclic` | internal/state/engine.go:982-1048 | no device is upstream of itself |
| `Impact.ImpactOf` | internal/state/engine.go:1052-1074 | without a visited set the walk ends and counts every strictly downstream device exactly once |
| `Alerts.AlertStore.ByDedup` | internal/store/store.go:835-844 | an unresolved alert of the key if there is one, in any map order |
| `Alerts.AlertStore.OpenAlert` | internal/state/engine.go:812-871 | fold, else re-open, else create; a new alert exactly when all of the key are resolved for at least 1800 seconds; no other alert changes; the key then has an active alert |
| `Alerts.Step` | internal/state/engine.go:812-945 | every store access of every call, with acknowledgements and manual resolutions anywhere in between, keeps the invariant |
| `Alerts.AlertsStayUnique` | internal/state/engine.go:812-945 | in every interleaving at most one unresolved alert per dedup key, and all occurrences in book and archive add up to the calls |
| `Alerts.OpenedIsActive` | internal/state/engine.go:841-867 | a call that re-opens or creates ends with exactly one active alert of its key |
| `Alerts.LookupIsDeterministic` | internal/store/store.go:835-844 | the arbitrary map order of the lookup does not matter |
| `Alerts.AlertIsHistory` | internal/state/engine.go:820-931 | what an alert shows after any events: resolved exactly when closed and not re-opened since, else acknowledged exactly when taken since it was last open; its root cause is the last one named; its severity the highest requested since that cause came up; its occurrences the calls it stands for |
| `Alerts.CreatedAlertIsHistory` | internal/state/engine.go:812-945 | in every interleaving an alert in the book is its request and the events that the steps since its creation gave it |
| `Hysteresis.Metric.OnDevice` | internal/state/engine.go:240-261 | the device copy of a threshold check |
| `Hysteresis.Metric.OnInterface` | internal/state/engine.go:538-565 | the interface copy |
| `Hysteresis.FlagIsHistory` | internal/state/engine.go:240-261 | both flags are on exactly when enough samples reached the enter threshold since the last at or under the exit threshold |
| `Hysteresis.CopiesAgreeIff` | internal/state/engine.go:538-565 | the two copies agree on every history exactly when exit is below enter |
| `DeviceStatus.Device.OnDevice` | internal/state/engine.go:226-319 | streaks and status after one sample, case by case: maintenance, confirmed outage (unreachable exactly when the upstream is out), answered (degraded exactly when the sample is), held back or unconfirmed |
| `DeviceStatus.Device.FoldUnder` | internal/state/engine.go:1088-1096 | folding only turns down into unreachable |
| `DeviceStatus.OutIsHistory` | internal/state/engine.go:286-319 | a device is down or unreachable exactly when an outage was confirmed and neither maintenance, missing samples nor a second answer in a row ended it |
| `DeviceStatus.StatusIsHistory` | internal/state/engine.go:287-319 | in every run the whole status is what the last input with a verdict of its own has come to: degraded or up by the last answer that was not held back, down unless folded or found behind an upstream outage since, maintenance until the next sample, unknown when stale or when there was none yet |
| `DeviceStatus.EntersOnlyConfirmed` | internal/state/engine.go:290-295 | an outage starts only on a sample that ends enough unanswered ones in a row |
| `DeviceStatus.RecoversOnlyAfterTwo` | internal/state/engine.go:304-310 | down or unreachable turns into up or degraded only on a second answered sample in a row |
| `DeviceStatus.MaintenanceForgetsOutage` | internal/state/engine.go:292-303 | through maintenance one answer, or none, is enough |
| `Ber.TlvRoundTrip` | internal/snmp/ber.go:333-361 | every element with content below 2^32 bytes reads back, whatever follows it |
| `Ber.TlvTooLong` | internal/snmp/ber.go:345-349 | a longer one is rejected: the reader takes at most four length bytes |
| `Ber.IntRoundTrip` | internal/snmp/ber.go:160-185 | every int64 decodes to itself, 9-byte forms included |
| `Ber.UintRoundTrip` | internal/snmp/ber.go:187-200 | every uint64 decodes to itself, 9-byte forms included |
| `Ber.IntMinimalIff` | internal/snmp/ber.go:160-185 | no shorter byte string decodes to v exactly when v is at least -1 or -256^k <= v < -128 * 256^(k-1) for some k |
| `Ber.MinusTwo` | internal/snmp/ber.go:160-185 | -2 is encoded in two bytes although one byte decodes to it |
| `Ber.OidRoundTrip` | internal/snmp/ber.go:229-243 | every identifier that encodes decodes to its canonical form, all base-128 sub-ids included |
| `Ber.OidSurvivesIff` | internal/snmp/ber.go:238-238 | it decodes to itself exactly when the second arc is below 40 and the first two fit into their byte |
| `SnmpPdu.WriteLength` | internal/snmp/ber.go:141-151 | the digit loop of a length |
| `SnmpPdu.WriteInt` | internal/snmp/ber.go:160-185 | the three loops of an integer |
| `SnmpPdu.ReadIntBytes` | internal/snmp/ber.go:363-375 | shifting 64 bits at every turn gives the wrapped exact value |
| `SnmpPdu.WriteSubId` | internal/snmp/ber.go:214-226 | the base-128 loop |
| `SnmpPdu.ReadOid` | internal/snmp/ber.go:388-407 | the sub-id loop, unfinished last arcs included |
| `SnmpPdu.ValueRoundTrip` | internal/snmp/ber.go:263-287 | every value that encodes decodes to its canonical form: exceptions become null, 32-bit kinds keep 32 bits |
| `SnmpPdu.ValueSurvivesIff` | internal/snmp/ber.go:409-445 | exactly which values other than identifiers come back unchanged |
| `SnmpPdu.KindIsTag` | internal/snmp/ber.go:409-445 | what decodes is of the kind its tag stands for in the literal table of the standard; the three exceptions, null and byte strings decode from any content |
| `SnmpPdu.OtherTagsAreRefused` | internal/snmp/ber.go:444-444 | every tag outside that table is an error, whatever the content |
| `SnmpPdu.AgentValueDecodes` | internal/snmp/ber.go:409-445 | every value an agent encodes with literal tags, exceptions among them, decodes to itself up to the canonical form of numbers and identifiers |
| `SnmpPdu.VarBindsRoundTrip` | internal/snmp/ber.go:447-478 | every list of bindings comes back, binding by binding |
| `SnmpPdu.AgentBindsDecode` | internal/snmp/ber.go:447-478 | every list of bindings that an agent sends comes back, exceptions included: the end of the MIB, on which a walk stops, stays that |
| `SnmpPdu.PduRoundTrip` | internal/snmp/ber.go:306-324 | every PDU that encodes decodes to its canonical form |
| `SnmpPdu.PduSurvivesIff` | internal/snmp/ber.go:481-511 | exactly which PDUs come back unchanged |
| `SnmpPdu.AnswerArrives` | internal/snmp/ber.go:481-511 | a whole answer within the ranges of the standard arrives unchanged: request id, error fields and every binding, exceptions included |
| `SnmpV3.Reader.TakeTlv` | internal/snmp/ber.go:333-361 | the reader returns the first element from its position and moves behind it |
| `SnmpV3.ParseLocatesAuth` | internal/snmp/client.go:727-799 | for every byte string that parses, the offset lies in range and points at the authentication field |
| `SnmpV3.Parse` | internal/snmp/client.go:727-819 | three nested readers compute the specified message and offset |
| `SnmpV3.Blank` | internal/snmp/client.go:621-624 | the loop zeroes exactly the field in a copy |
| `SnmpV3.Verify` | internal/snmp/client.go:617-627 | accepted exactly when the length fits and the hash of the blanked message is the one carried |
| `SnmpSign.MessageRoundTrip` | internal/snmp/client.go:543-545 | every built message parses back, field by field, with the offset at its authentication field |
| `SnmpSign.IndexOf` | internal/snmp/client.go:547-547 | the first occurrence of the placeholder, or none |
| `SnmpSign.Sign` | internal/snmp/client.go:546-556 | blank, hash, fill in at the first occurrence of the placeholder |
| `SnmpSign.PlaceholderFound` | internal/snmp/client.go:547-547 | the placeholder is found at its field or before it, never behind |
| `SnmpSign.SignedVerifies` | internal/snmp/client.go:515-558 | signed at its authentication field, a message parses back with all that was drafted and its hash verifies, whatever the hash |
| `SnmpSign.SignedVerifiesIff` | internal/snmp/client.go:515-558 | the message signed at the first occurrence of the placeholder is accepted for every hash function exactly when the placeholder occurs nowhere before its field |
| `SnmpSign.EarlierLeavesPlaceholder` | internal/snmp/client.go:546-556 | whenever the first occurrence is before the authentication field, the signed message still carries the end of the placeholder there, all of it unless the two overlap |
| `SnmpSign.EarlierIsMissigned` | internal/snmp/client.go:546-556 | then no hash is accepted, unless its last byte happens to be that of the placeholder |
| `SnmpSign.UserAsPlaceholderIsMissigned` | internal/snmp/client.go:546-556 | every draft whose user name is the placeholder is such a case |
| `Forwarder.Queue.Add` | internal/cluster/sync.go:41-89 | the item goes to the end of its own stream and no other; at the maximum first the older half of metrics, logs and flows goes |
| `Forwarder.Queue.TakeBatch` | internal/cluster/sync.go:113-122 | the whole queue is taken and emptied, or nothing when it is empty |
| `Forwarder.Queue.Requeue` | internal/cluster/sync.go:142-161 | stream by stream the failed batch goes in front; above the maximum the older half of metrics, logs and flows goes; the count is the queue's |
| `Forwarder.NothingLost` | internal/cluster/sync.go:41-161 | in every interleaving of adds with flushes that may fail, of the items the run adds to each stream: four streams are exactly conserved in order, the others are ordered subsequences, exact until something is dropped, and never lose the newest item; n counts the queue |
| `Mirror.FetchedIsRemoteIff` | internal/cluster/sync.go:304-353 | a fetch leaves the leader's file of that moment exactly when it took all of it or the copy was a prefix of it |
| `Mirror.Step` | internal/cluster/sync.go:215-353 | every step of leader and mirror, deletion and re-creation of any file included, keeps the relation between the directories |
| `Mirror.JournalsStayPrefixes` | internal/cluster/sync.go:258-261 | in every run the copy of a journal not re-created since its fetch, if it has the size last fetched, is a prefix of the leader's, even after an append that broke off |
| `Mirror.ContinuedComesRight` | internal/cluster/sync.go:252-270 | a file not re-created since it was fetched is skipped with an equal copy, fetched whole, or fetched behind a prefix |
| `MirrorSync.Standby.SyncFile` | internal/cluster/sync.go:252-270 | skip, tail fetch or whole fetch of one file |
| `MirrorSync.Standby.SyncOnce` | internal/cluster/sync.go:215-302 | against an unchanging leader, path by path: a mirrored file ends up equal exactly when it was skipped equal, fetched whole or fetched behind a prefix; what the leader has not is gone; other paths are untouched |
| `MirrorSync.SyncedIsEqual` | internal/cluster/sync.go:215-302 | so after any run every mirrored path ends up equal unless it is a journal that was re-created since its fetch; the first sync after a deletion included |
| `MirrorSync.RecreatedJournalIsMixed` | internal/cluster/sync.go:259-261 | a run in which a journal, deleted and re-created longer, is mirrored as a mixture of both that the next sync takes for up to date |
| `Sharding.Rendezvous` | internal/cluster/node.go:540-547 | ascending order and a strict comparison give, of the live nodes with the highest hash, the smallest |
| `Sharding.Reshard` | internal/cluster/node.go:512-558 | every node gets exactly the devices that target it, in order |
| `Sharding.ExactlyOneTarget` | internal/cluster/node.go:536-549 | every device has exactly one target: its site's pin if that is live, else of the live nodes with the highest hash for it the smallest |
| `Sharding.JoinMovesOntoNewcomer` | internal/cluster/node.go:508-511 | a node that joins takes devices only onto itself |
| `Sharding.LeaveMovesOnlyItsOwn` | internal/cluster/node.go:508-511 | a node that leaves gives away only what it held |
| `FlowRings.MergeAll` | internal/flow/agg.go:263-267 | totals of merged summaries add up |
| `FlowRings.Rings.RollLocked` | internal/flow/agg.go:423-452 | the whole new state when a minute ends |
| `FlowRings.Rings.Add` | internal/flow/agg.go:386-404 | the whole new state after some records |
| `FlowRings.Rings.Tick` | internal/flow/agg.go:407-415 | the whole new state of an exporter after a tick |
| `FlowConservation.RingKeepsSlot` | internal/flow/agg.go:426-429 | what the minute ring forgets is never in the slot still to be folded |
| `FlowConservation.RollTotals` | internal/flow/agg.go:423-452 | a roll moves totals between bucket, ring and summaries and changes none |
| `FlowConservation.FlowsAreConserved` | internal/flow/agg.go:386-452 | over every run, compressions and restarts that reload whatever the journal files hold included, the bytes, packets and number of all records added are in the summaries, the unfolded minutes, the open minute, or were in the latter two at a restart; no slot is summarised twice |
| `FlowConservation.SlotsAreConserved` | internal/flow/agg.go:386-452 | over every run and for each five-minute slot: the records added in it are in its summary, in its minutes not summarised yet, or were in those at a restart |
| `FlowConservation.SummaryIsItsRecords` | internal/flow/agg.go:431-452 | the summary of a slot from which no restart took anything shows exactly the bytes, packets and number of the records of its five minutes |
| `FlowReload.PickLoop` | internal/flow/agg.go:609-641 | the summaries of a window, in the source's order |
| `FlowReload.WindowShows` | internal/flow/agg.go:609-641 | after every run a long window shows exactly the summaries from its start on; a short one the minutes from its start on, the open one with a flow, and the summaries that end before all of these |
| `FlowReload.JournalStep` | internal/flow/agg.go:423-522 | every step keeps each day's summaries in its written file, its compressed file, or both |
| `FlowReload.ReloadAscendsIff` | internal/flow/agg.go:524-552 | after a reload the ring of 288 holds every slot once exactly when yesterday's journal is not there both written and compressed with a recent slot, or the last 24 hours alone fill the ring |
| `FlowReload.WindowsCountOnce` | internal/flow/agg.go:609-671 | in every run whose restarts meet that condition, the summaries of any window never overlap, so nothing is counted twice |
| `FlowReload.RestartWindowsIff` | internal/flow/agg.go:524-552 | after every run, whatever earlier reloads brought, a restart leaves all windows without overlap exactly when it meets that condition; otherwise the window over the last 24 hours counts a slot twice |
| `FlowReload.DoubledDayOverlaps` | internal/flow/agg.go:515-520 | a run with such a restart: it crashes between renaming the compressed day and removing the written one |
| `ElectionSafety.RunInv` | internal/cluster/node.go:332-427 | the cluster invariant holds after every guarded run |
| `Alerts.RunInv` | internal/state/engine.go:812-945 | the alert invariant holds after every interleaving |
| `Mirror.RunInv` | internal/cluster/sync.go:215-353 | the relation between the directories holds after every run |
| `FlowConservation.Step` | internal/flow/agg.go:386-552 | add, tick, both halves of a compression and restart keep order and balance of the rings |
| `Forwarder.Step` | internal/cluster/sync.go:41-161 | add, flush, acknowledgement and failure keep every stream in its relation to the items given so far |
| `TsdbRuns.NewRefines` | internal/tsdb/tsdb.go:107-132 | a new store, in memory or in an empty directory, refines the empty log |
| `TsdbRuns.CrashStep` | internal/tsdb/tsdb.go:107-132 | a restart from the files refines the recovered log |
| `TsdbRuns.WriteStep` | internal/tsdb/tsdb.go:309-310 | a checkpoint written while its hour is open changes no closed hour |

## Left out

- TLS, certificates, join tokens, HTTP and JSON: messages are values, and `Save` succeeds and is atomic.
- Timers, lease checks and data freshness in the election are free choices; the lease gives no exclusion across terms and none is claimed.
- Membership changes, `-promote` and collectors as voters: the electorate is fixed and contains every candidate.
- Terms are unbounded; wrap-around of a 64-bit term is not modelled.
- LineDiff.Diff: does not model `Counts` and `Hunks`, which only add and select lines of a script.
- The series name table and its file: series are known by their ids, so at most 2^32 exist.
- TsdbRuns.EveryQueryIsLog: assumes that a rollover does not fall between the two halves of a checkpoint, that file writes succeed and fit into 2^63 bytes, that restarts do not go back to an hour before the open one, and that one clock reading serves a whole start; the first and the third are shown to be needed, each with its exact condition.
- TsdbFile.ReadChunk: a chunk length of 2^63 or more, with which the source cannot allocate its buffer, is an error here.
- The index cache, retention deletes of rollups and disk usage of the time-series store; a query reads files and head in one step.
- TsdbCompact.RollupDay: sums and means are any functions, so rounding of float additions is not modelled; an unreadable file counts as empty.
- TsdbLife.RollupsAreLog: passes work on days before the open hour, as they do in the store's own loop, which rolls over before it compacts; a compaction called by itself while an hour older than the raw cut is open is not covered.
- Alert text, evidence, notification and the `Children` list; alert ids are new whenever one is made.
- Metric rules whose definition changes between samples; the list of checks per device; flapping counters and transition times.
- Interface status, site status, link status and event correlation: short case distinctions.
- The dotted text of object identifiers and its parsing; community messages, walks and retries.
- HMAC, AES and DES, key localisation and engine discovery: the keyed hash is any function, the payload is opaque bytes.
- MirrorSync.Standby.SyncOnce: one fixed leader; `last` is kept across leaders, so nothing is claimed for a change of leader. Every write changes the modification time.
- Forwarder.NothingLost: says what is acknowledged, not what a leader that answered too late has already taken in; `Max` is no bound on the queue and none is claimed.
- Sharding.Reshard: liveness of nodes and the quality of the hash are parameters; at least one node is live.
- FlowConservation.FlowsAreConserved: totals only; the top lists are cut and approximate in their tail. Clocks do not go back, and a restart is later than the first day of 1970.
- FlowReload.WindowsCountOnce: one exporter writes the journal and its lines are flushed before a restart; several exporters share a day's file, and a late one may re-open a day that is already compressed.
- Pollers, discovery, SSH, mail, chat and webhook delivery, integrations, reports, web interface and licensing.
