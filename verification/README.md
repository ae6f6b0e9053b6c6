# Verified model of doris-partition-sync

doris-partition-sync copies Doris tables and partitions from a source to a target. It exports with
`OUTFILE` to object storage, imports from there with `INSERT` or `INSERT OVERWRITE`, and records its
progress in a SQLite checkpoint. Four stores move independently of the process: the source, the object
store, the target and the checkpoint. This project models the protocols that keep them together and
proves what they keep across crashes, concurrent source changes, ambiguous SQL results and statements
that finish after their client is gone.

## How it is organised

| file | what it models |
|---|---|
| `Rows.dfy` | rows as multisets, the time selections that exports make, why a delta completes its target |
| `Checkpoint.dfy` | the durable row of one partition, and the in-memory entry as a class updated in place |
| `Outside.dfy` | the world: source history, object store, target, statements in flight; `Drift` is what may happen between any two steps |
| `PartitionInvariant.dfy` | the invariant between world and durable row, and that every drift keeps it |
| `Site.dfy` | one partition with the foreign calls the program makes; each lets the world drift and may fail |
| `OverwriteSync.dfy` | `syncPartition`, step by step |
| `DeltaSync.dfy` | the watermark delta on top of it, and delta safety |
| `TableSync.dfy` | restarts, `maybeScanCompleted` and `syncTable` over all partitions |
| `Limits.dfy` | the conditions the guarantees need, each with what happens without it |
| `HourlyZone.dfy`, `HourlyCheckpoint.dfy`, `HourlySync.dfy` | the hourly append machine |
| `ObjectStore.dfy` | prefixes, listing, clearing |
| `Matching.dfy` | target partition matching, and the order of a listing |
| `TargetTable.dfy` | the one target table behind the partitions: what each source partition sees of it |
| `Cycle.dfy` | `cycle` and the loop of `run`, over `syncTable` |
| `Plan.dfy`, `PlanRun.dfy` | forced-overwrite plans: their validation, and carrying one out |
| `Strings.dfy` | strings of bytes: their order, trimming, and sorted lists of them |
| `StateKey.dfy` | checkpoint keys and source identities |
| `Scanner.dfy`, `Sql.dfy` | the parenthesis scanner; quoting of names, strings and property lists |
| `Registry.dfy` | state-file settings and task registration |
| `Status.dfy` | the status report |

A crash is a foreign call that reports failure, after which only the saved row is kept: every method
therefore promises the invariant however it ends, and `TableSync.Run` and `HourlySync.Run` restart from
the saved row any number of times. A ghost history of each partition (`fulls` counts the full statements,
`excused` says that someone dropped the target) lets `TableSync.Run` state delta safety of whole runs.
Every statement sent to the target is recorded in a ghost log with the row that was durable at that moment,
so the write-ahead discipline is a property of the log.

Each component counts the foreign calls that fail in a ghost counter (`faults`, or `trouble` for a whole
service). So progress can be stated as well as safety: an attempt, a window, a plan, a table or a cycle ends
without success only if a foreign call failed, or for a reason that its contract names. The result that ties
the modules together is that of `Cycles.Cycle`: if a cycle reports no failure, every partition of a ready
table whose source stayed as it was is up to date, and so (`TableSync.UpToDateHolds`) holds the source's rows,
unless someone dropped it; in time-window mode this takes a row that is exact.

The naive invariant of the overwrite protocol, "the target holds what the row says it imported", is
false (`Limits.NaiveInvariantFails`). The one that is kept says so only while the recorded identity is
still the source's, and rests on identities never recurring.

## What the proofs found in the code

- A full import in time-window mode that is not followed by a successful `seedWatermark`
  (incremental.go:91-110, 65-66) leaves a watermark that need not belong to what was imported. The next
  delta is right if and only if every imported row is at or before that watermark and every row added since
  is after it (`Limits.StaleWatermarkIff`); whatever may be added, it is sure to be right if and only if the
  watermark is the maximum time of what was imported (`Limits.StaleWatermarkSafeIff`). Otherwise the delta
  appends rows a second time (`Limits.StaleWatermarkDuplicates`) or, after the partition ID changed, silently
  loses rows (`Limits.StaleWatermarkLoses`). After a restore under the same partition ID no row is lost
  (`Limits.SameIdWatermarkIff`).
- An initial `INSERT` that committed but whose attempt failed is repeated unless AUTO PARTITION created a
  partition that matches the source's (main.go:817-832). The repository's README (line 204) says that the
  tool stops to prevent duplicate writes; it stops that attempt, and the next scan inserts again
  (`Limits.RetryDoublesIff`, and over the program's own steps `Limits.RetryImport`).
- `maxTime` looks for the header `max_time` (incremental.go:47), but `query` strips underscores from
  headers (database.go:131, 155-157), so as written the maximum is never found
  (`Limits.MaxTimeIsNeverFound`) and no delta starts. The delta machine is modelled with the true maximum,
  as the repository's README describes it.
- A failure to save the inventory during a cycle's preflight is counted like any other table failure and
  does not end the run (main.go:346-357, 391-393), although it wraps the error that is meant to: only a
  table's sync can end it (`Cycles.Cycle`, `Cycles.RunLoop`, `Cycles.InventoryFailureGoesOn`).
- A finished delta does not move the recorded source identity (incremental.go:226-230). So the status
  report shows the partition as monitored afterwards only if the last backup was made for the delta's own
  identity (`Status.FinishedDeltaShownIff`); after a completed full import it keeps showing it as syncing,
  delta after delta (`Status.FinishedDeltaShowsSyncing`).
- `closingParen` treats a backslash as an escape inside backquotes (sql.go:64), where neither `ident` nor
  the pattern `createPrefix` does. A name hides the close of its group if and only if its end, or a
  backquote in it, follows an odd run of backslashes (`Sql.NameInGroupIff`).
- A static hourly start that fails half way can leave `time_zone` recorded without `hourly_start`, and the
  file is then accepted for managed tasks. A managed claim that succeeds leaves a static setting beside
  `hourly_managed` if and only if the file had a `time_zone` before (`Registry.StateFile.ClaimManaged`,
  `Registry.ZoneLeftBehindIff`). "Never both" holds of the start.
- A valid overwrite plan may still write one target partition twice: with two selected source partitions of
  which one matches it by range and the other, which has no range, by name; and only then
  (`PlanRuns.WrittenTwiceIff`; `PlanRuns.WrittenTwiceHappens` gives the input).

## Assumptions

Stated in the model where they are used, and not proved:

- Source identities never recur; rows of one partition ID are only appended with rising, non-null time
  values in time-window mode (`Outside.SourceDrift`, `Outside.SourceValid`).
- `INSERT OVERWRITE` of a partition is an atomic replace and `INSERT` an atomic append; an `OUTFILE` reads
  one snapshot and, if it succeeds, wrote all of it or no file.
- Random generations are fresh, and hashes (labels) are injective.
- In the partition machines a statement on a target partition has settled before the next attempt lists
  that partition or appends to it (`Sites.Site.Settle`); `Limits.UnsettledDoublesIff` shows why. The hourly
  machine does not need this.
- A failed delta `OUTFILE` has ended before its prefix is used again; `Limits.LateWriterIff` shows that the
  delta is sure to be right exactly then. Full and hourly attempts need no such assumption, as each has a
  prefix of its own.
- Nothing removes objects under the prefix that is being worked with (`pinned`): from a successful `OUTFILE`,
  or from the check before an import, in the partition machines; from the draw of the generation in the
  hourly machine; until the next attempt. Objects under every other prefix may vanish at any time.
- Nothing but the tool writes to a target partition or creates one. Anyone may drop one at any time.
- `INSERT OVERWRITE ... PARTITION(*)` replaces or creates the one partition that has the source's range. In
  a target with coarser partitions it would also remove the rows of other source partitions.
- Source rows of an hourly window no longer change once the window is eligible.
- One process at a time owns the state file.

## Model

| member | source | states |
|---|---|---|
| Rows.DeltaCompletes | incremental.go:159-161 | over append-only data, old contents plus the rows after the old maximum are exactly the new contents |
| Rows.DeltaExactIff | incremental.go:159-161 | a delta brings a target up to date if and only if it held exactly the source rows at or before the watermark |
| Outside.Sandwich | main.go:752-758 | an identity known before an interval and seen after it was the source's all along |
| PartitionInvariant.DriftKeepsInv | main.go:684-850 | whatever happens outside (source versions, lost objects, drops, late commits), the invariant of world and durable row stands |
| PartitionInvariant.DriftKeepsPast | main.go:684-850 | what the target held through its history (nothing, what it held first, or one version of the source) stays so through every outside event, statements in flight included |
| PartitionInvariant.DriftKeepsBackup | main.go:743-768 | a ready backup stays exactly its identity's contents while its objects are all there |
| PartitionInvariant.DriftKeepsImport | main.go:692-706 | overwrite soundness survives every outside event |
| PartitionInvariant.DriftKeepsExact | incremental.go:188-223 | delta exactness survives every outside event, late commits included |
| PartitionInvariant.TargetDriftKeepsFull | main.go:805-822 | a full statement in flight, committing at any time before or after a drop, leaves the target holding what it should |
| PartitionInvariant.CommitCompletesDelta | incremental.go:220-223 | a started delta that commits, however late, completes the target once |
| PartitionInvariant.TargetDriftKeepsDelta | incremental.go:196-223 | with a started delta the target holds the old contents or the new ones, never the delta twice |
| Sites.Site.Save | state.go:212-243 | one upsert that may fail before or after committing; the row on disk is then the old or the new one |
| Sites.Site.SourcePartition | database.go:207-232 | what a listing of the source shows, at one moment |
| Sites.Site.ProbeSource | main.go:743-751 | whether the source partition has a row |
| Sites.Site.MaxTime | incremental.go:38-48 | the maximum time of the partition, none for no rows |
| Sites.Site.NewGeneration | objectstore.go:59-65 | a prefix never used before, or an error |
| Sites.Site.ClearAll | main.go:732-734 | all objects of the partition are gone, except what a late writer may still add; a failure removes some |
| Sites.Site.ClearDelta | incremental.go:155-158 | nothing is left under the delta's prefix |
| Sites.Site.OutfilePartition | main.go:736-738 | a success wrote one snapshot of the partition or no file; a failure may leave anything, now or later |
| Sites.Site.OutfileDelta | incremental.go:159-163 | a success wrote the rows of one snapshot with from < time <= to, or no file |
| Sites.Site.List | objectstore.go:69-87 | the objects under a prefix, as a set |
| Sites.Site.Exec | main.go:805-822 | every statement is announced by the durable row before it is submitted; a success has committed, a failure may never, already or later commit |
| OverwriteSync.BeginBackupKeepsInv | main.go:718-731 | saving a new backup attempt is safe even while an older import is recorded |
| OverwriteSync.BackupDoneKeepsInv | main.go:759-765 | saving a verified backup keeps the invariant |
| OverwriteSync.ImportDoneKeepsInv | main.go:841-846 | an import may be recorded once the target holds its identity's contents |
| OverwriteSync.LaunchFullKeepsInv | main.go:800-822 | submitting a full statement is safe before it is known to commit |
| OverwriteSync.StartBackup | main.go:716-731 | a fresh prefix is durable before anything is written under it |
| OverwriteSync.Upload | main.go:732-742 | what is listed is what was written of one snapshot, at most late writers of other prefixes beside it; an empty listing of an export that read rows counts as a failed call |
| OverwriteSync.SandwichedBackup | main.go:716-765 | the snapshot sandwich: listed before, exported, listed after with one identity, the objects hold exactly its rows |
| OverwriteSync.Confirm | main.go:743-758 | an empty listing is an empty partition, and the source still has the identity; it fails only for a failed call, a source that moved, or an export that lost its rows |
| OverwriteSync.AcceptBackup | main.go:759-768 | a verified backup is recorded, durably if the save succeeds |
| OverwriteSync.BackUp | main.go:716-768 | a durable ready backup is of the given identity, under a fresh prefix, with nothing older left below the partition; fails only if a foreign call does or the source moved |
| OverwriteSync.CheckObjects | main.go:769-782 | an import starts only from complete objects of the source's present identity |
| OverwriteSync.FindTarget | main.go:783-799 | a missing target partition is tolerated if and only if the target table is AUTO PARTITION, unless a call failed |
| OverwriteSync.CheckImport | main.go:769-799 | objects, source and target partition are checked before an import; a target with nothing in flight only changes by being dropped meanwhile |
| OverwriteSync.PrepareImport | main.go:769-804 | the import is marked durably before any statement |
| OverwriteSync.Submit | main.go:805-822 | exactly one statement, bringing exactly the identity's rows |
| OverwriteSync.Launch | main.go:805-822 | replace what is there, insert where nothing is, or in a forced run overwrite PARTITION(*); nothing for no rows; a success leaves the target as that very statement makes it, unless dropped since |
| OverwriteSync.ConfirmImport | main.go:823-840 | a match exists if rows were brought, and the source was listed after the statement with the same identity; it fails only for a failed call, a source that moved, or a missing target |
| OverwriteSync.RecordImport | main.go:841-846 | the finished import is recorded; the row is exact again only if its watermark fits |
| OverwriteSync.Bring | main.go:805-850 | statement, confirmation and record; the recorded import is that of the identity, and true of the target; it fails only if hindered |
| OverwriteSync.Import | main.go:769-850 | a success leaves the target holding the identity's contents, verified after the statement returned; it fails only for a failed call, or if the source moved, recorded objects vanished, or there is no target |
| OverwriteSync.Deliver | main.go:805-840 | the statement, and a look at target and source after it; without success a call failed, the source moved or there is no target |
| OverwriteSync.SkipOrForget | main.go:692-713 | what is there is skipped; a target that is absent is not, but forgotten durably first; it fails only for a failed call |
| OverwriteSync.EnsureBackup | main.go:714-768 | a ready backup of this very identity is reused, any other export is made again under a fresh prefix |
| OverwriteSync.Rebuild | main.go:714-850 | export if need be, and import; a target is replaced only if it was there |
| OverwriteSync.SyncPartition | main.go:684-850 | one attempt from any state: at most one statement, bringing exactly the identity's rows; success, skip and every failure keep the invariant; an absent target is never skipped, and one that is there is replaced only if it may not be skipped; it fails only for a failed call, or if the source moved, recorded objects vanished, or there is no target |
| OverwriteSync.ImportedIsCurrent | main.go:692-706 | overwrite soundness: recorded identity equal to the source's means target contents equal source contents, unless dropped; no stray rows |
| DeltaSync.SeedWatermark | incremental.go:50-71 | the watermark recorded is the maximum of the imported contents, which the target holds; it fails only for a failed call or a source that moved |
| DeltaSync.DiscardedKeepsInv | incremental.go:176-182 | only a delta that has not started may be discarded |
| DeltaSync.FinishedKeepsInv | incremental.go:226-230 | finishing restores the condition a delta starts from |
| DeltaSync.LaunchDeltaKeepsInv | incremental.go:214-222 | submitting the delta is safe before it is known to commit |
| DeltaSync.UploadDelta | incremental.go:155-170 | what is listed under the batch are the rows between the watermarks of one snapshot, and not none; it fails only for a failed call or a source that moved |
| DeltaSync.SandwichedDelta | incremental.go:159-183 | they are those of the batch's identity |
| DeltaSync.BackUpDelta | incremental.go:155-188 | the batch becomes ready, is discarded because the source moved, or stays as it was; a source that moved discards it, unless the export already found nothing |
| DeltaSync.CheckDelta | incremental.go:189-213 | changed objects or a started import are refused with the row unchanged; a moved source discards |
| DeltaSync.MarkStarted | incremental.go:214-217 | the start is durable before anything is submitted |
| DeltaSync.SubmitDelta | incremental.go:218-222 | exactly one append, of exactly the missing rows; a success completes the target |
| DeltaSync.FinishDelta | incremental.go:226-236 | the row moves to the delta's end |
| DeltaSync.ImportDelta | incremental.go:189-224 | at most one append; a statement went out only if the row says started or finished |
| DeltaSync.ResumeDelta | incremental.go:150-224 | a started delta is never retried, discarded or changed; any other is carried out at most once; it fails only for a failed call, an earlier start, lost objects or a source that moved |
| DeltaSync.StartDelta | incremental.go:140-148 | a new batch is durable before it is exported, and ends with its maximum as the watermark |
| DeltaSync.FullThenSeed | incremental.go:79-84 | a full import whose seed succeeds is exact again |
| DeltaSync.Advance | incremental.go:111-132 | a success is a delta if and only if the maximum time has advanced past the watermark, and a full replace otherwise |
| DeltaSync.BringNewer | incremental.go:98-132 | a newer version of an imported partition: delta or full as it should be, by whether the target is there and the maximum advanced |
| DeltaSync.SyncPartitionByMode | incremental.go:73-133 | one attempt from any checkpoint and for any identity ever listed: at most one statement, a started delta untouched, an absent target never skipped, a delta chosen if and only if it should be; success leaves the row settled at the identity the source had when the attempt began; however it ends, the row stays exact unless a full import was begun or someone had dropped the target; it fails only for a reason that is named |
| DeltaSync.SyncByWatermark | incremental.go:73-133 | the same in time-window mode: a newer version of a partition whose target is there comes by a delta if and only if the maximum advanced, and a target that is there is never replaced when it did |
| DeltaSync.Restore | incremental.go:88-90 | an identity already imported is skipped, or restored to a vanished target without spoiling exactness |
| DeltaSync.DeltaSafety | incremental.go:140-236 | in an exact state the target holds exactly the rows up to the watermark, or with a started delta possibly those up to its end, at every later version of the source |
| DeltaSync.UpToMax | incremental.go:159 | over append-only data the rows up to an old maximum are the old contents |
| TableSync.Restart | state.go:120-146 | a new process knows the saved row |
| TableSync.Run | main.go:256-285 | any number of attempts, crashes and restarts: skip decisions sound, every statement announced, a started delta never touched; from an exact row, with no full import begun and no drop, delta safety at the end of every run; and in overwrite mode the target always holds nothing, what it held first, or one version of the source, never a row twice |
| TableSync.Turn | main.go:256-285 | one turn of a run: the row stays exact unless a full import was begun or someone had dropped the target |
| TableSync.AtAnyTime | main.go:684-850 | every state of a partition has sound skip decisions, announced statements and whole contents, and delta safety while it is exact and not dropped |
| TableSync.InvSkippable | main.go:692-706 | the invariant implies that the skip decision is sound |
| TableSync.ScanTurn | main.go:501-543 | a candidate is attempted, with the identity of an earlier listing; anything else is left untouched |
| TableSync.ScanCompleted | main.go:471-548 | one attempt for each candidate of a possibly stale listing and for nothing else, going on after failures; every partition's invariant is kept, a failure to save reported; if it reports no failure, every imported partition whose source stayed is up to date; one that was is left alone |
| TableSync.SyncTable | main.go:550-660 | with no failure reported every listed partition was attempted; unless it reports a failure to save, of the schema or of a partition, memory and disk agree for every partition; ready for the next table; every partition whose source stayed was attempted for its identity and is up to date; a failure is reported only if something failed |
| TableSync.SyncOne | main.go:644-653 | one attempt; a source that stayed is up to date after a success |
| TableSync.ListAll | main.go:572-584 | a listing shows every partition whose source stayed, as it is, unless it failed |
| TableSync.UpToDateHolds | main.go:692-706 | a partition that is up to date holds the source's rows, unless someone dropped it; in time-window mode, while its row is exact |
| TableSync.SyncListed | main.go:628-656 | one turn: unless it fails the partition was attempted, with its identity looked up again if a scan came first; a partition whose source stayed is attempted for its identity, and up to date if that succeeds |
| Limits.StaleWatermarkIff | incremental.go:91-110 | after an import without a new watermark, under the same partition ID or another, the delta is right if and only if the watermark separates the imported rows from those added since |
| Limits.StaleWatermarkSafeIff | incremental.go:91-110 | every delta that may follow is right if and only if the watermark is the maximum time of what was imported |
| Limits.SameIdWatermarkIff | incremental.go:98-110 | under the same partition ID one delta already shows that, and none loses a row |
| Limits.NextDeltaIff | incremental.go:111-128 | the same of any state that satisfies the invariant and from which a delta may begin |
| Limits.StaleWatermarkDuplicates | incremental.go:65-66 | a concrete state, with a row left by the protocol's own steps and satisfying all that is proved of reachable ones, in which the next delta brings a row twice |
| Limits.StaleWatermarkLoses | incremental.go:91-97 | a concrete state of that kind after the partition ID changed, in which the next delta loses a row |
| Limits.StaleWatermarkMayFit | incremental.go:91-97 | a watermark of another partition ID that is not the maximum of what was imported may still fit |
| Limits.NaiveInvariantFails | main.go:722-728 | a concrete state, with a row left by the protocol's own steps and satisfying the invariant, in which the target does not hold the recorded import and nothing is marked in progress |
| Limits.RetryDoublesIff | main.go:817-832 | retrying a committed initial import keeps rows single if and only if AUTO PARTITION matches the source's range |
| Limits.RetryImport | main.go:769-840 | the same of two attempts made of the program's own steps, with whatever happens outside in between; without a partition that matches the first attempt is never confirmed |
| Limits.UnsettledDoublesIff | main.go:817-821 | and only once the first statement has settled |
| Limits.AcceptedBackupIff | main.go:752-765 | an accepted backup is sound if and only if the export read the contents of the identity listed last; identities that never recur see to that, one that recurs with other contents in between does not |
| Limits.LateWriterIff | incremental.go:155-163 | a batch that was checked completes the target whatever happens before it is read, if and only if no late writer is left under its prefix |
| Limits.MaxTimeIsNeverFound | database.go:155-157 | no normalized header is the one maxTime asks for |
| HourlyZone.ParseHourlyStart | hourly.go:33-43 | a stamp parses only to an instant that prints as it, on an exact hour |
| HourlyZone.FixedIsValid | hourly.go:57-59 | every fixed-offset zone is one that the loop's theorems cover |
| HourlyZone.CutoffIsAnHourBack | hourly.go:57-59 | in a fixed-offset zone the cutoff is an hour boundary between one and two hours ago |
| HourlyZone.StampOrder | hourly.go:15 | the order of fixed-width timestamp strings is the order of time |
| HourlyCheckpoint.TilesCoverOnce | hourly.go:320-339 | contiguous windows cover each stamp from the start to the cursor once and no other |
| HourlyCheckpoint.DriftKeepsInv | hourly.go:346-417 | an INSERT that commits at any later time, source changes and lost objects keep the hourly invariant |
| HourlySync.HourlySite.SaveCompleted | hourly.go:434-455 | cursor and window move in one transaction |
| HourlySync.HourlySite.Probe | hourly.go:369-377 | whether the window has a row |
| HourlySync.HourlySite.Outfile | hourly.go:378-381 | a success wrote all rows of the window or no file; an export of a nonempty window that wrote no file counts as a failed call |
| HourlySync.HourlySite.Import | hourly.go:413-415 | the labelled INSERT, submitted only while the durable row says started and names this generation |
| HourlySync.FinishedKeepsInv | hourly.go:419-432 | the cursor may pass a window that was loaded or is empty |
| HourlySync.FinishHourly | hourly.go:419-432 | the entry moves past the window only after the row has |
| HourlySync.ChooseGeneration | hourly.go:360-368 | a fresh prefix is durable before anything is written under it |
| HourlySync.BackUpWindow | hourly.go:359-393 | ready means exactly the window's rows, empty means it has none; anything else only if a foreign call failed |
| HourlySync.CheckWindow | hourly.go:394-407 | incomplete, changed or already started windows are refused |
| HourlySync.MarkWindow | hourly.go:408-411 | the start is durable before the INSERT |
| HourlySync.ImportWindow | hourly.go:394-416 | at most one INSERT, for this window; none if an earlier attempt had started it; refused only if started before or files are missing |
| HourlySync.SyncHourlyWindow | hourly.go:346-417 | one window: done moves the cursor and records it; it always is done unless a foreign call failed, an earlier attempt had started it, or its files are missing; a started window is left exactly as it is |
| HourlySync.LoadHourly | hourly.go:86-104 | a table without a checkpoint starts at the recorded start |
| HourlySync.NextWindow | hourly.go:320-339 | one turn of the loop: caught up, one window more, or a named reason |
| HourlySync.SyncHourlyTable | hourly.go:320-340 | the loop terminates, the count is the number of windows completed, a normal return has caught up with the cutoff, and in a fixed-offset zone the cursor moved by exactly that many hours, one more at most if a save was ambiguous; without failed calls it ends caught up, unless the zone stops it or the pending window is refused |
| HourlySync.Run | hourly.go:283-340 | any number of loops, crashes and restarts: at most one INSERT per window, each announced by the durable row with its window, generation and label; exactly-once contents, contiguous windows; without failed calls it ends caught up, stopped by the zone, or with a window that is refused |
| HourlySync.SubmittedOnce | hourly.go:404-415 | no two INSERTs ever submitted share a window, a stamp of one, or a label |
| HourlySync.LoadedExactly | hourly.go:346-432 | row by row, the target has the source's rows up to the cursor once; a started window is there whole or not at all |
| HourlySync.EligibleIsOld | hourly.go:332-334 | in a fixed-offset zone a window is one hour and ended at least an hour before the clock that admitted it |
| HourlySync.CountIsHours | hourly.go:338-338 | contiguous windows of an hour each: the cursor has moved one hour for every window |
| HourlySync.FixedCount | hourly.go:320-339 | in a fixed-offset zone the cursor stands one hour past the start for every window finished, over any run |
| HourlySync.FixedAdvances | hourly.go:324-331 | in a fixed-offset zone an exact hour always parses and the next is later |
| HourlySync.FixedCaughtUp | hourly.go:332-334 | a normal return leaves less than three hours between cursor and clock |
| ObjectStore.EscapeRoundTrip | objectstore.go:54-57 | path escaping can be undone, so it is injective |
| ObjectStore.EscapeHasNoSlash | objectstore.go:54-57 | an escaped segment has no slash |
| ObjectStore.PrefixInjective | objectstore.go:54-57 | distinct partitions have distinct prefixes |
| ObjectStore.PartitionsDisjoint | objectstore.go:54-57 | no object lies under two partitions' prefixes, so neither extends the other |
| ObjectStore.AttemptsDisjoint | objectstore.go:59-65 | no object lies under the prefixes of two attempts, full or delta, of any partitions |
| ObjectStore.GuardAcceptsIff | objectstore.go:89-93 | the prefixes the program builds pass the guard if and only if the root is not just slashes |
| ObjectStore.GuardedIsOnePartition | objectstore.go:89-93 | a prefix that passes the guard reaches the objects of one partition at most |
| Strings.SortedIsSet | main.go:868-878 | comparing sorted listings compares sets of objects |
| Strings.ExactIff | overwrite_plan.go:54-60 | a name is exact if and only if it is nonempty and trimming leaves it alone |
| ObjectStore.TrimSlashesIs | objectstore.go:54-56 | trimming takes slashes off both ends and nothing else |
| ObjectStore.ListedIff | objectstore.go:69-87 | a listing shows the nonempty objects directly below the prefix whose name in lower case ends in .parquet |
| ObjectStore.EqualLists | main.go:868-878 | equal if and only if the same length and elements |
| ObjectStore.Bucket.List | objectstore.go:69-87 | exactly the nonempty parquet objects directly below the prefix, in order |
| ObjectStore.Bucket.Clear | objectstore.go:89-112 | an unsafe prefix changes nothing; otherwise nothing outside the prefix changes, and a success leaves nothing inside; it succeeds if and only if the prefix is safe and no request failed |
| ObjectStore.Bucket.ClearPartition | objectstore.go:89-112 | every object of every other partition stays |
| Matching.MatchTargetPartition | database.go:256-287 | a single partition of the same range wins, else the last of the same name unless its range differs; ambiguity and difference are errors |
| Matching.MatchAnyOrder | database.go:256-287 | the answer does not depend on the order of the listing |
| Matching.MatchInjective | database.go:256-287 | source partitions with ranges of their own never share a target |
| Matching.SharedIff | database.go:256-287 | exactly when two source partitions share a target |
| Matching.StaysFound | database.go:256-287 | partitions of other ranges that are added to the target, or taken away, do not change which one is the match |
| Matching.CreateIsFramed | database.go:256-287 | a partition created for one source partition changes no other's answer, unless it takes its name |
| Matching.PrecedesTotal | database.go:224-230 | partitions of different names are ordered one way and not the other |
| Matching.OneOrder | database.go:224-242 | the sorted listing does not depend on the order in which the server listed the partitions |
| TargetTables.CommitProjects | main.go:805-822 | what a statement makes of one partition's own world is what that partition sees of the table afterwards |
| TargetTables.CommitFrames | database.go:256-287 | a statement for one source partition leaves what any other of a different range sees |
| TargetTables.OthersStaySound | main.go:805-822 | so the recorded import of every other partition is as sound as before |
| TargetTables.FleetCommit | main.go:805-822 | over the whole table: committing for one partition moves its world alone |
| OverwritePlan.ValidatePartitionNames | config.go:208-220 | accepted if and only if names are exact and distinct |
| OverwritePlan.ValidateOverwritePlan | overwrite_plan.go:47-88 | accepted if and only if the plan is valid |
| OverwritePlan.ClashIff | overwrite_plan.go:76-83 | without NULs two items clash if and only if they write one table |
| PlanRuns.ValidIsDistinct | overwrite_plan.go:76-83 | in an accepted plan no two items write one target table |
| PlanRuns.OneItemWrites | overwrite_plan.go:144-152 | so all that is ever written to a target table was asked for by one item |
| PlanRuns.Runner.Preflight | overwrite_plan.go:100-140 | a preflight only reads: it logs that the table was checked, and then the target table exists, and every listed partition exists and has a target or may get one; it refuses only for a failed call or one of those |
| PlanRuns.Runner.Export | main.go:714-742 | clear, then export; nothing is written to the target by it |
| PlanRuns.Runner.Overwrite | main.go:805-810 | the statement goes to the target partition that was matched |
| PlanRuns.Runner.Insert | main.go:811-816 | where there is no target a partition that matches is made, or the run fails |
| PlanRuns.Runner.SyncPart | main.go:714-840 | one selected partition: dealt with once if it succeeds, at most once if it fails; skipped only if it has neither rows nor a target; it fails only for a failed call or a target that cannot be matched |
| PlanRuns.Runner.SyncTable | main.go:624-660 | the selected partitions of one table in order, up to the first failure |
| PlanRuns.Runner.CycleOverwritePlan | overwrite_plan.go:90-155 | for a plan that was accepted: nothing is removed, exported or written before the last table was checked; every statement follows the export of its partition; a failure leaves exactly the earlier tables done; of all that is written to a target table, a partition is written twice only where two selected partitions share it, and in a completed table exactly there; every selected partition with rows of a completed table was written; it fails only for a failed call, a refused table or a target that cannot be matched |
| PlanRuns.TwiceIsShared | overwrite_plan.go:144-152 | however far a run came, two writes to one target come from two selected partitions that share it by range and by name |
| PlanRuns.WrittenTwiceIff | overwrite_plan.go:144-152 | once a table is completed, a target that was there is written twice if and only if two selected partitions share it, which shows before the run |
| PlanRuns.WrittenTwiceHappens | database.go:256-287 | a selection that is accepted and writes one target twice |
| Cycles.Cycle | main.go:340-394 | over real syncs: ends with a failure to save if and only if a table's sync reports one (or, forced, a preflight), syncs nothing after it, goes on after any other failure; unless a sync could not save, memory and disk agree for every partition; every ready table whose sync reports no failure had its listed partitions attempted; if the cycle reports none, every partition whose source stayed is up to date; a failure is reported only if something failed |
| Cycles.RunLoop | main.go:260-285 | the run ends with the first cycle in which a sync could not save, and with no other unless it is cancelled; until then memory and disk agree; each cycle of it is one of Cycle over the plan that was due |
| Cycles.InventoryFailureGoesOn | main.go:346-357 | a cycle in which a preflight could not save its inventory still syncs every table that is ready and reports a plain failure |
| StateKeys.KeyRoundTripIff | state.go:245-255 | a key splits back into its names if and only if none has a NUL, and is refused otherwise |
| StateKeys.KeyInjective | state.go:245-247 | different partitions never share a key |
| StateKeys.IdentityInjective | state.go:257-257 | an identity names one ID and one version |
| StateKeys.SameIdIff | incremental.go:91-91 | the prefix test compares IDs |
| Scanner.ClosingParen | sql.go:58-88 | the scanner with lookahead for doubled quotes is the close-and-reopen automaton |
| Scanner.GroupIsFound | sql.go:58-88 | for every tree of groups, text and quoted strings the close of the outermost group is found |
| Scanner.ScanIff | sql.go:58-88 | an answer is given if and only if a balanced group closes there; failure means there is none |
| Sql.IdentRoundTrip | sql.go:10-10 | any name reads back from its quoted form |
| Sql.ColumnsRoundTrip | sql.go:117-131 | a generated column list names exactly the input columns in order |
| Sql.TwoReplacements | sql.go:190-192 | the two replacements escape each character once |
| Sql.StringRoundTrip | sql.go:190-192 | any string reads back from its quoted form |
| Sql.SqlProperties | sql.go:177-188 | the printed list is that of the map's keys in order, whatever order they were ranged over |
| Sql.PropertiesRoundTrip | sql.go:177-188 | parsing the printed list gives back the map |
| Sql.OneText | sql.go:177-188 | one map has one printed list |
| Sql.NameInGroupIff | sql.go:58-88 | a group of one backquoted name, any name, is closed rightly if and only if neither its end nor any backquote in it follows an odd run of backslashes |
| Registry.StateFile.CheckHourlySettings | hourly.go:61-84 | static settings are recorded or equal what was; a managed file is refused; accepted if and only if the file agrees and no statement failed |
| Registry.StateFile.CheckManagedHourlySettings | tasks.go:21-39 | managed is recorded only in a file without a static start; accepted if and only if the file allows it and no statement failed |
| Registry.StateFile.ClaimManaged | tasks.go:54-70 | a claim that succeeds leaves a static setting beside managed if and only if the file had a time zone before |
| Registry.StateFile.SaveMetadata | state.go:176-188 | mode and time field together or not at all |
| Registry.StateFile.StartService | main.go:231-251 | a service starts only in the mode and time field of its file; it starts if and only if settings and file agree and no statement failed |
| Registry.StateFile.AddHourlyTask | tasks.go:41-75 | a task is added only where neither kind exists, and existing tasks never change; it is added if and only if names, start and file allow it and no statement failed |
| Registry.StateFile.AddFullTableTask | fulltable.go:21-49 | likewise for full-table tasks; it is added if and only if names, interval and file allow it and no statement failed |
| Registry.StateFile.Use | tasks.go:21-75 | over any sequence of commands, failing half way or not: never both kinds of settings, no key in both task tables, nothing recorded changes |
| Registry.ZoneLeftBehindIff | hourly.go:70-82 | from any valid file of neither kind, whatever a static start leaves: a managed claim is accepted if and only if the start was not recorded, and then leaves the file mixed if and only if the zone was; both happen |
| Status.StatusTruth | status.go:270-274 | in overwrite mode a monitored partition whose identity is still the source's holds the source's rows |
| Status.MonitoredIsSkipped | status.go:270-274 | with a ready backup a partition is shown as monitored if and only if a sync for its recorded identity would skip it and no delta is pending |
| Status.FinishedDeltaShownIff | incremental.go:226-230 | in any reachable state a finished delta is shown as monitored if and only if the last backup is of its identity |
| Status.FinishedDeltaShowsSyncing | incremental.go:226-230 | from a completed full import on, every delta that finishes leaves the partition shown as syncing |
| Status.FullImportNotNewer | main.go:841-846 | that holds from the moment a full import is recorded |
| Status.Tally | status.go:251-288 | every table's counters are those of its lines, the lists are the lines in their phases |
| Status.Totals | status.go:295-303 | the totals are the sums over all tables, in whatever order they are visited |
| Status.ReadStatus | status.go:221-303 | monitoring plus active is everything observed, syncing is contained in active, totals agree with the lists |

## Left out

- Sites.Site.MaxTime: is the true maximum, as the design intends; the code as written never finds the column (see above).
- Sites.Site.Settle: is an assumption, not a step of the code.
- Sites.Site.List: is one atomic look, as a set; pages, order and comparison of lists are in ObjectStore.
- Sites.Site.Exec: the forced `INSERT OVERWRITE ... PARTITION(*)` replaces or creates one partition; what it removes from coarser target partitions is not modelled.
- HourlySync.HourlySite.Probe: reads the rows of the window as the export does; schema checks and column lists are not modelled.
- PlanRuns.Runner.Preflight: checks the listing and the matching; what it checks of columns and schema is not modelled, and may fail.
- PlanRuns.Runner.SyncPart: the checkpoint and the identity checks around the statement are those of OverwriteSync, here they may fail; the source listing and what the partitions hold do not change during a plan run, the target listing only by the run itself, and a statement that made no matching partition is logged as one that made none.
- PlanRuns.Runner.Insert: a partition made by AUTO PARTITION has the source partition's range.
- TableSync.SyncTable: a table that has become an asynchronous view since the preflight, and is skipped, is not modelled.
- TableSync.RecordSchema: which schema is recorded and when it counts as changed is not modelled, only that recording it may fail.
- Registry.StateFile.AddHourlyTask: parsing of the start is a parameter.
- Pending deltas and pending windows are values of the row here and references in the code; the code never shares one between entries.
- Each partition has a world of its own: that these are projections of one target table is proved in TargetTables, step by step and not for statements in flight; that their objects do not interfere, in ObjectStore.
- TargetTables.CommitFrames: a source partition without a range, or one whose name a created partition takes, may see another's statement, see Matching.SharedIff.
- Late writers under a delta's reused prefix, which the code does not guard against.
- Rows with a null time value, and RECOVER of a dropped partition under its old identity.
- The body of the full-table task: one idempotent replace without recovery state; only its registration is modelled.
- `omitAutoPartitionDefinitions`, `targetDDL` and the other uses of regular expressions; bounds of a range are an optional value.
- The order of the lists in a report; that rangeOrderKey finds the date in a range.
- Drivers, connections, timeouts, retries of metadata queries, logging, signals, file locks, flags and configuration decoding.
- The `task` subcommands and the live row comparisons of the status report.
