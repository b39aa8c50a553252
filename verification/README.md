# OneDriveUI: a verified model

OneDriveUI is a desktop client for OneDrive on top of rclone. This project models the parts of it whose
behaviour depends on interleaving, power cuts, loops or arithmetic, and proves what they promise.

- **The single writer** (`WriterLog`, `WriterMachine`, `WriterRestarts`, `DbWriterThread`). Many producers feed one
  queue, and one thread cuts it into transactions. `WriterMachine` is a step system in which producers, stoppers and
  the thread interleave freely. It refines a sequential log: order, contents, replies and counters hold in every
  reachable state, a stop ends the thread within a stated number of steps, and nothing accepted is lost.
  `WriterRestarts` adds the calls on a thread that is not running and the sentinels that a stop puts late.
  `DbWriterThread` is the object with its loops, and each of its methods performs legal steps of the machine.
- **The generation scan** (`CacheScan`, `ScanRuns`) runs through that writer: from any reachable state that claims a
  generation, for every run of the machine, all interleavings with other producers, all cuts into batches and all
  failures of transactions, the theorems give the committed rows of every path.
- **Crash-safe files** (`AtomicFiles`, `ConfigStore`). Every system call is a step, renames survive a power cut
  only once they are synced, and the recovery ladder of `load` is proved over every state a cut can meet.
- **The configuration** (`ConfigNames`, `ConfigRules`, `ConfigClamp`, `ConfigRepairs`, `ConfigProblems`,
  `ConfigObject`, `ConfigCodec`, `ConfigSchema`, `ConfigValues`, `ConfigLoad`, `ConfigDiff`). `ConfigRepairs` says what
  `clamp` makes of each value and `ConfigProblems` what each problem of `validate` means, both on the values alone.
  It is stated exactly when reading, clamping and validating raise. Otherwise reading is
  stable, rendering is inverted exactly where accounts are named, `clamp` removes exactly those problems of `validate`
  that have a safe answer, and the problems left after loading are a short list.
- **The worker pool** (`IoPool`), with admission by kind, cancellation tokens and the fate of every task.
- **History** (`IssueTable`, `DecisionTable`, `Stamps`, `Housekeeping`, `Migrations`): write-once answers,
  one open issue per key, text stamps whose order is time order, the hourly deletions and resumable migrations.
- **Arithmetic, framing and throttling** (`Units`, `SizeTexts`, `Framing`, `IpcServerSide`,
  `IpcExtensionSide`, `Throttle`).

An object whose methods change its fields is a class. Its methods are proved against functions on values, and the
lemmas about those functions carry the theorems. `hide` statements keep definitions out of proofs that do not
need them.

Check the project with `dafny verify dfyconfig.toml`.

## What the proofs found

Where a promise fails the code is modelled as it is, and a lemma says exactly when the promise holds.

- `stop` sets its flag before it puts the sentinel, so the thread can leave a sentinel behind. A writer that is
  started again with one, or with one still to come, drains and exits unasked, and can leave an accepted operation
  behind (`RestartSafeIff`, `OwedSentinelReachable`). The next `submit` has it settled by the next exit
  (`NextSubmitSettles`, `NextExitSettles`); if `stop` comes next it is lost (`NextStopLoses`, `LostIffStopped`).
- Slices of a scan are not awaited. A slice that fails, or whose transaction does, is reported to nobody, and the
  prune then deletes the rows it did not rewrite (`RowIffWriteCommitted`, `RolledBackSliceLosesRow`). A scan that starts
  before the queue is drained keeps stale rows (`UndrainedQueue`, `LeftoverKeepsUnseenPath`).
- The hourly prune after an interrupted scan deletes what the scan had not reached (`InterruptedThenVacuumIff`,
  `InterruptedThenVacuumLoses`).
- `load` is documented never to raise, and `_coerce` too. An integer of 309 digits as `mount.tpslimit`, or a chunk
  size that long, makes it raise an `OverflowError` (`LoadRaisesIff`, `LongLimitRaises`, `LongChunkSizeRaises`). An
  upload cutoff that long makes `validate` raise, and so does a folder that is no path, as with a null character in it
  (`LongCutoffRaises`, `NullRootRaises`, `LoadLeavesLittle`). Where `clamp` raises it leaves the configuration half
  repaired (`AppConfig.Clamp`).
- A valid configuration whose size limits are below one is changed by `clamp`, for `validate` does not check these
  lower bounds (`AcceptedIsFixed`).
- With one account id twice, `changed_keys` reports nothing of the first of the two (`RepeatedIdHidesChange`); every
  change is reported exactly when the ids are distinct (`EveryChangeShowsIff`).
- `kib_to_kb` is injective and its echo is stable, although its documentation says that two values can coincide
  (`KibToKbInjective`). `format_size` is read back exactly where the printed quotient is a float
  and the number is below 2^1024, and `parse_size` raises on what it prints beyond (`SizeRoundTrip`, `LargeSizeRaises`).
- A flush reads the clock before it sends and arms the timer after, so the next flush is late by exactly the time
  spent sending (`FlushPending`, `LateIffSpentSending`, `LateTimer`). A direct send after the window leaves an older
  pending request to be sent later (`Notify`).
- A peer that is dropped in the middle of a chunk is still served to the end of the chunk; it is left subscribed
  exactly when a greeting is among those lines (`DroppingChunk`, `DroppedYetSubscribed`).
- A request whose `op` is a list makes the dispatch of its line raise, which ends the loop: the complete lines behind
  it wait until more bytes arrive, so two cuts of one stream can leave different states (`RaisingLineHoldsBack`,
  `AnyTwoCutsAgree`, `LoopEndsIff`).
- The hourly prune compares stamps with a `T` against SQLite's spelling with a space: rows go by calendar date,
  never early and up to a day late (`PastCutoffIff`).
- Of two migration files with one version only the first ever runs (`NeverTwice`).

## Model

| member | source | states |
|---|---|---|
| WriterLog.ReplayIsSequential | onedriveui/data/writer.py:241-297 | the committed database is the effect, one after the other, of exactly the operations whose batch committed, including what a failing operation had already done |
| WriterLog.ReplyCount | onedriveui/data/writer.py:241-297 | every settled operation has exactly one reply |
| WriterLog.NoErrorIffCommitted | onedriveui/data/writer.py:269-297 | a settled operation carries no error if and only if its own function succeeded on the database it was given and its transaction committed |
| WriterMachine.RefinesLog | onedriveui/data/writer.py:174-297 | every run of producers, stoppers and the thread, in any interleaving, keeps the invariant: settled, in flight and queued operations make up the submission order, the database is the replay of the committed batches, the counters account for every released operation, and every batch has at most 5000 operations with an urgent one only in last place |
| WriterMachine.InvStep | onedriveui/data/writer.py:174-318 | each single step keeps that invariant |
| WriterMachine.FifoStep | onedriveui/data/writer.py:202-239 | no step loses, repeats or reorders an operation |
| WriterMachine.LedgerStep | onedriveui/data/writer.py:241-297 | each step keeps the database and the replies equal to the replay of the log |
| WriterMachine.CountersStep | onedriveui/data/writer.py:248-297 | each step keeps applied plus failed plus the operations of batches that never began equal to the operations released |
| WriterMachine.ShapesStep | onedriveui/data/writer.py:202-239 | each step keeps the bound of 5000 and the place of the urgent operation |
| WriterMachine.ShutdownStep | onedriveui/data/writer.py:190-239 | each step keeps what shutdown relies on: after an exit nothing but sentinels is queued and the flag is set |
| WriterMachine.ReachedIds | onedriveui/data/writer.py:202-239 | in every reachable state the operations in flight are the next ones of the submission order |
| WriterMachine.FailedForGood | onedriveui/data/writer.py:248-297 | along any run, at a step where BEGIN or COMMIT fails: the committed database is the one before, exactly the operations of that batch are answered, each with an error, and however the run goes on those replies stay and none of these operations is ever among the committed ones |
| WriterMachine.StoppingStep | onedriveui/data/writer.py:190-239 | once a stop is requested every thread step strictly lowers the measure, and each further stop raises it by one |
| WriterMachine.StopTerminates | onedriveui/data/writer.py:190-239 | after a stop the thread takes at most the measure plus one step per extra sentinel, whatever interleaves, and accepts nothing more |
| WriterMachine.NeverStuck | onedriveui/data/writer.py:174-239 | until the thread has exited one of its own steps is possible |
| WriterMachine.ExitLosesNothing | onedriveui/data/writer.py:299-318 | a thread that has exited has settled every accepted operation once and in order and left no operation queued |
| WriterMachine.StopDrains | onedriveui/data/writer.py:432-452 | from every reachable state the steps of the thread alone lead to that exit |
| WriterMachine.ReturnMeansCommitted | onedriveui/data/writer.py:393-407 | when submit_sync returns normally its operation is in the committed database and everything submitted before it is settled |
| WriterMachine.FlushCoversEarlier | onedriveui/data/writer.py:413-430 | when the marker of flush is answered, everything accepted before it has been settled |
| WriterRestarts.EveryLife | onedriveui/data/writer.py:144-172 | however often the thread is stopped and started, by start_writer or by submit, order, database, replies and counters are those of one sequential log |
| WriterRestarts.StaleSentinelReachable | onedriveui/data/writer.py:432-452 | the flag is set before the sentinel is put, so a thread can exit and leave a sentinel behind: a concrete sequence of calls |
| WriterRestarts.OwedSentinelReachable | onedriveui/data/writer.py:432-452 | the same one step earlier: the thread has exited on an empty queue and the sentinel of that stop is still to be put |
| WriterRestarts.RestartSafeIff | onedriveui/data/writer.py:144-172 | a thread that is started again, by start_writer or by submit, leaves no accepted operation behind in that life, over every sequence of calls, if and only if its queue holds no sentinel and no earlier stop still owes one |
| WriterRestarts.DrainThenLeave | onedriveui/data/writer.py:202-239 | from a drain that nobody asked for, a run without any stop that leaves an accepted operation in the queue |
| WriterRestarts.NextSubmitSettles | onedriveui/data/writer.py:354-358 | after the next submit, which starts the thread again, the steps of the thread alone can settle everything left behind and the new operation |
| WriterRestarts.NextExitSettles | onedriveui/data/writer.py:354-358 | over every sequence of calls after that submit, its stops and sentinels included: whenever the thread next exits, everything left behind and the new operation are settled |
| WriterRestarts.LostIffStopped | onedriveui/data/writer.py:354-358 | operations left behind are never settled by any sequence of calls without start_writer if and only if the stop flag is set |
| WriterRestarts.NextStopLoses | onedriveui/data/writer.py:445-447 | stop on a thread that is not running sets the flag and does nothing else, so as the next call it loses what was left behind |
| DbWriterThread.DbWriter.Submit | onedriveui/data/writer.py:354-358 | on a running thread: refuses when stopping and otherwise queues exactly one new operation, as a step of the machine |
| DbWriterThread.DbWriter.Stop | onedriveui/data/writer.py:445-449 | on a running thread sets the flag and then puts one sentinel; on one that is not running sets the flag alone |
| DbWriterThread.DbWriter.Collect | onedriveui/data/writer.py:202-239 | returns nothing exactly when the thread must leave, and otherwise a batch that is the next run of the queue, in the shape the invariant demands |
| DbWriterThread.DbWriter.CollectMore | onedriveui/data/writer.py:218-239 | the gathering loop stays within 5000, stops at an urgent operation and puts a sentinel back |
| DbWriterThread.DbWriter.TakeItem | onedriveui/data/writer.py:205-239 | one get from the queue is one step of the machine; a sentinel found while gathering is queued again and stops the writer |
| DbWriterThread.DbWriter.Apply | onedriveui/data/writer.py:241-297 | one batch is settled as refused, rolled back or committed, and nothing else changes |
| DbWriterThread.DbWriter.CannotBegin | onedriveui/data/writer.py:248-260 | a failed BEGIN counts once, touches no data and answers every operation with the error |
| DbWriterThread.DbWriter.Finish | onedriveui/data/writer.py:279-297 | the batch ends as a commit or as a rollback step of the machine, with its counters and replies |
| DbWriterThread.DbWriter.RollBack | onedriveui/data/writer.py:282-297 | a failed COMMIT keeps the committed database and gives an error to those that had none |
| DbWriterThread.RunAll | onedriveui/data/writer.py:264-281 | the loop over the batch leaves the database and the replies of running its operations in order, failing ones included |
| DbWriterThread.RunOne | onedriveui/data/writer.py:269-280 | one operation gets its result or its exception, and its effects stay either way |
| DbWriterThread.Undo | onedriveui/data/writer.py:282-292 | the loop after a failed COMMIT turns successes into errors, keeps earlier errors and moves the counters |
| DbWriterThread.ErrorAll | onedriveui/data/writer.py:252-260 | every operation of a batch that never began is answered and released |
| DbWriterThread.Release | onedriveui/data/writer.py:294-297 | every waiter of the batch is woken and no reply changes |
| DbWriterThread.DbWriter.DrainRemaining | onedriveui/data/writer.py:299-318 | what is still queued at the end is settled in one last batch |
| DbWriterThread.DbWriter.DrainQueue | onedriveui/data/writer.py:301-312 | the drain takes every operation, skips sentinels and ends |
| DbWriterThread.DbWriter.OneBatch | onedriveui/data/writer.py:190-200 | one turn of the loop either leaves for the drain or gets strictly closer to the exit |
| DbWriterThread.DbWriter.ThreadBody | onedriveui/data/writer.py:174-200 | the thread body ends, and then every operation that was ever accepted is done and only sentinels are queued |
| ScanRuns.EverySnapshot | onedriveui/data/repo_files.py:357-481 | in every state of every run from the claim of a generation on, whatever is interleaved and whatever fails: a path holds the last row that a committed slice wrote there; without one, nothing once the prune has committed, and until then its old row |
| ScanRuns.InterruptedLosesNothing | onedriveui/data/repo_files.py:376-447 | until the prune is in a committed batch every path has its old row or one the scan saw, wherever the scan stops and whatever fails |
| ScanRuns.ScanLosesNothing | onedriveui/data/repo_files.py:376-481 | with every transaction since the claim committed and no slice failing, a path that was indexed and is seen is present in every state of the run |
| ScanRuns.CompletedScanIsExact | onedriveui/data/repo_files.py:449-481 | under the same conditions, once the prune has committed, the account has a row for a path if and only if the scan saw the path |
| ScanRuns.RowIffWriteCommitted | onedriveui/data/repo_files.py:415-481 | with transactions and slices failing at will: once the prune has committed, a path has a row if and only if one of the submitted writes for it is in a committed batch and took effect |
| ScanRuns.RolledBackSliceLosesRow | onedriveui/data/repo_files.py:415-481 | a run in which the COMMIT of the one slice fails and the prune commits: the indexed path the scan saw is gone |
| ScanRuns.TookAreCommitted | onedriveui/data/repo_files.py:376-481 | the committed operations since the claim are, in submission order, those of the submitted ones that are among the committed operations of the log |
| CacheScan.PruneKeepsNewer | onedriveui/data/repo_files.py:449-481 | after a prune a path has a row if and only if its last write is newer than the pruned generation |
| CacheScan.PrunedIffNoWriteTookEffect | onedriveui/data/repo_files.py:415-447 | of changes run one after the other: a path has a row after the prune if and only if a slice wrote one |
| CacheScan.UndrainedQueue | onedriveui/data/repo_files.py:357-373 | with slices of an earlier scan still queued at the claim, the result is wrong for a path if and only if a leftover row of the new or a newer generation remains and the scan did not see it |
| CacheScan.LeftoverKeepsUnseenPath | onedriveui/data/repo_files.py:357-373 | an input: a slice of an earlier scan is still queued over an empty index, and its path stays although the finished scan did not see it |
| CacheScan.VacuumAfterInterruption | onedriveui/data/db.py:629-633 | what the hourly prune leaves for each path after a scan that was interrupted |
| CacheScan.InterruptedThenVacuumIff | onedriveui/data/db.py:629-633 | an interrupted scan followed by the hourly prune loses no indexed path if and only if the scan had rewritten them all, or had written nothing over an index of one generation |
| CacheScan.InterruptedThenVacuumLoses | onedriveui/data/db.py:629-633 | an input: of two indexed paths a scan rewrites the first and is stopped, and the hourly prune removes the second |
| CacheScan.SlicesOverlay | onedriveui/data/repo_files.py:376-447 | slices overlay the index in order and remove nothing |
| CacheScan.OneChange | onedriveui/data/repo_files.py:357-481 | what each write does to the row of one path: a slice puts there the last row it has for it before it fails, the prune takes away a row of the account up to its generation, the hourly deletion one whose account has a newer generation; the reply is the number of rows; nothing else changes |
| CacheScan.CacheIndex.Generation | onedriveui/data/repo_files.py:337-355 | the largest generation among the committed rows of the account |
| CacheScan.CacheIndex.UpsertRows | onedriveui/data/repo_files.py:415-447 | one slice in place: its rows at its generation, all other rows untouched |
| CacheScan.CacheIndex.PruneGeneration | onedriveui/data/repo_files.py:449-481 | in place: exactly the rows of the account at or below the generation go |
| AtomicFiles.Disk.AtomicWrite | onedriveui/atomicio.py:96-144 | whichever call fails and wherever the power goes, the name shows what it could show before or the whole new bytes; other files are untouched and no temporary file is left by a call that returns |
| AtomicFiles.Disk.WriteTemp | onedriveui/atomicio.py:127-141 | the temporary file is complete and synced before anything else happens, or is gone |
| AtomicFiles.Disk.Promote | onedriveui/atomicio.py:136-144 | the rename publishes only synced bytes |
| AtomicFiles.Disk.Settle | onedriveui/atomicio.py:74-93 | the directory sync settles the renames, or on a filesystem that refuses it changes nothing |
| AtomicFiles.Disk.BackupThenWrite | onedriveui/atomicio.py:222-274 | every state a power cut can meet shows target and backup in the order of the rotation, and the new target never beside the old backup once the rotation was synced |
| AtomicFiles.StaysWithin | onedriveui/atomicio.py:96-144 | a step that shows no more of the permanent files keeps the bounds of the write |
| ConfigStore.CutRecovers | onedriveui/config.py:1568-1599 | a power cut at any step of a save leaves a disk from which load recovers the new document or one that could be recovered before, never the defaults where something was sure to be recovered |
| ConfigStore.Save | onedriveui/config.py:1616-1666 | the same is kept over the calls of a save, with both files given; after a save that returned with the directory synced every cut recovers the new document |
| ConfigStore.SavedIsFound | onedriveui/config.py:1616-1666 | once the new file is in place and the directory synced, every power cut leaves a disk from which load gives the new document |
| ConfigStore.Load | onedriveui/config.py:1587-1599 | the file if it decodes, else its backup if that does, else the defaults |
| ConfigStore.BackupStaysGood | onedriveui/config.py:1602-1613 | over any run of saves, saves over a target that cannot be read, cuts with or without a working directory sync, and damage to the target: a backup that is a JSON object stays one, holds bytes the target once held, and load never falls to the defaults |
| ConfigStore.CutIsADeed | onedriveui/atomicio.py:263-274 | what a cut during a save leaves of a settled disk is one of the steps of such a run, and the new file beside the old backup only if the rotation was left out or not synced |
| ConfigStore.UnguardedRotationIff | onedriveui/config.py:1655-1661 | rotating without the guard keeps something to recover if and only if the target can be read or the backup could not be read anyway |
| ConfigClamp.ClampRemovesTheRepairable | onedriveui/config.py:1344-1475 | clamp returns if and only if no chunk size overflows a float; validate raises if and only if a chunk size or an upload cutoff does, or a sync root or an enabled offline folder cannot be looked up, and on the clamped configuration if and only if a cutoff or a sync root does; otherwise what it says of the clamped configuration is exactly what it said before that has no safe answer, in the same order |
| ConfigClamp.AccountClamp | onedriveui/config.py:1379-1473 | what remains of the problems of one account, in order |
| ConfigClamp.AdvancedClamp | onedriveui/config.py:1366-1377 | the ticks in their order, the ports and the log days: no problem remains, and an accepted section is not touched |
| ConfigClamp.MountClamp | onedriveui/config.py:1387-1404 | the mount section, with the cache time before the poll interval: no problem remains, and an accepted section is not touched |
| ConfigClamp.ArgsClamp | onedriveui/config.py:1403-1404 | filtering the banned arguments leaves none that validate refuses and drops none that it accepts |
| ConfigClamp.BackendClamp | onedriveui/config.py:1406-1416 | the chunk size and the personal flags are repaired and only an unreadable cutoff stays |
| ConfigClamp.ClampedThrows | onedriveui/config.py:1406-1412 | after clamp no chunk size overflows and no offline folder is looked up, and the same cutoffs and sync roots raise as before |
| ConfigClamp.BandwidthClamp | onedriveui/config.py:1418-1425 | rates are repaired and only a missing rate stays |
| ConfigClamp.OfflineClamp | onedriveui/config.py:1460-1468 | the offline section is repaired and only a blank check file stays |
| ConfigClamp.PathClamp | onedriveui/config.py:1117-1148 | with the offline folder off only the problems of the sync root stay |
| ConfigClamp.FilesClamp | onedriveui/config.py:1437-1443 | no problem remains; an accepted section is untouched if and only if its three limits are at least one |
| ConfigClamp.NearestIsNearest | onedriveui/config.py:1452-1456 | the offered lock interval that is chosen is the nearest, and of two equally near the shorter |
| ConfigClamp.ClashesKept | onedriveui/config.py:1298-1326 | clamping changes none of the clashes between accounts |
| ConfigClamp.AcceptedIsFixed | onedriveui/config.py:1263-1341 | clamp returns on a configuration that validate accepts, and leaves it alone if and only if every files.max value is at least one |
| ConfigClamp.ZeroLimitIsChanged | onedriveui/config.py:1437-1443 | an accepted section that clamp changes: a zero size limit becomes one |
| ConfigClamp.ClampIdempotent | onedriveui/config.py:1344-1475 | where clamp returns, clamping again returns the same |
| ConfigClamp.AcceptedNames | onedriveui/config.py:1294-1326 | in an accepted configuration every account has an id and a remote and no two ids are equal |
| ConfigRepairs.ClampRepairs | onedriveui/config.py:1344-1475 | where clamp returns, every number of the configuration has gone to a nearest value of its range, each with its own range: the poll interval below the clamped cache time, the active tick up to the clamped idle tick, the file limits from one; a lock interval has gone to the nearest that is offered; everything else that clamp repairs has its one safe value; all that is not repaired is as it was |
| ConfigRepairs.StopRepairs | onedriveui/config.py:1344-1409 | where clamp raises, the accounts before the first chunk size that overflows are repaired, of that account the mount section is and the offline folder is off, and nothing behind it is touched |
| ConfigRepairs.MountIsRepaired | onedriveui/config.py:1387-1404 | the mount section: transfers of 32 become 4, and so each number the nearest of its range |
| ConfigRepairs.BandwidthIsRepaired | onedriveui/config.py:1418-1425 | the rates and the percentage go to the nearest end |
| ConfigRepairs.FilesIsRepaired | onedriveui/config.py:1437-1443 | the file limits go to the nearest value from one to their upper end |
| ConfigRepairs.ArgsOneByOne | onedriveui/config.py:1403-1404 | arguments are filtered one by one and stay in their order |
| ConfigRepairs.OneArg | onedriveui/config.py:1478-1485 | an argument is dropped, and refused by validate, exactly when what it says before its first equals sign, stripped, is the in-place switch in any case or begins with a backend prefix |
| ConfigRepairs.LockMinutesOf | onedriveui/config.py:1247-1260 | digits are read as seconds, minutes or hours by their last letter and as minutes without one |
| ConfigRepairs.NoNumber | onedriveui/config.py:1247-1260 | no text, and a unit without a number, is no interval |
| ConfigProblems.ListedIffWrong | onedriveui/config.py:1263-1341 | validate lists a problem exactly when the configuration has it, the condition of every problem spelled out on the values |
| ConfigProblems.AcceptedIff | onedriveui/config.py:1263-1341 | a configuration is accepted if and only if validate does not raise and none of these conditions holds |
| ConfigProblems.OwnSays | onedriveui/config.py:1045-1240 | the problems listed for one account on its own |
| ConfigProblems.BlankMeansDefault | onedriveui/config.py:431-438 | a blank sync root and a blank offline folder are judged as their defaults are: the same problems in the same order, and the same exceptions |
| ConfigProblems.ClashSays | onedriveui/config.py:1294-1326 | an id, an enabled root or an enabled remote that an earlier account has is listed at the later account |
| ConfigObject.NoKeysIffUnchanged | onedriveui/config.py:1361-1364 | the list of keys that clamp returns is empty if and only if it changed nothing |
| ConfigValues.ClampReports | onedriveui/config.py:1361-1364 | clamp reports a dotted key exactly when the value under it is another than before, in the advanced section or in some account |
| ConfigObject.AppConfig.Clamp | onedriveui/config.py:1344-1475 | in place, account by account: the clamped configuration and the keys that changed; or, at the first account whose chunk size overflows, the exception, with the accounts before it clamped, its mount and offline sections clamped and nothing behind it touched |
| ConfigObject.AppConfig.Validate | onedriveui/config.py:1263-1341 | the loop with its seen ids, roots and remotes returns the problems defined account by account against all earlier accounts, or raises if and only if some size overflows or some folder cannot be looked up |
| ConfigLoad.ReadingRaisesIff | onedriveui/config.py:490-518 | from_dict raises if and only if an account entry has a tpslimit that is an integer without a float |
| ConfigLoad.LoadRaisesIff | onedriveui/config.py:1568-1599 | load raises if and only if an account entry has a tpslimit that is an integer without a float, or a chunk_size text whose size has none |
| ConfigLoad.LoadLeavesLittle | onedriveui/config.py:1568-1599 | for every JSON document that load returns from: validate then raises if and only if an upload_cutoff text has no float or a sync_root cannot be looked up, and otherwise each problem that remains is one of thirteen kinds: id empty or repeated, root or remote shared, remote empty or with a colon, cutoff unreadable, root relative or under a mount, a rate unset, check file blank, active account unknown |
| ConfigLoad.LongLimitRaises | onedriveui/config.py:787-797 | an input: with the integer 2^1024 as mount.tpslimit load raises |
| ConfigLoad.LongChunkSizeRaises | onedriveui/config.py:1406-1412 | an input: with the digits of 2^1024 as backend.chunk_size load raises |
| ConfigLoad.LongCutoffRaises | onedriveui/config.py:1103-1108 | an input: with the same text as backend.upload_cutoff load returns and validate raises |
| ConfigLoad.NullRootRaises | onedriveui/config.py:992-997 | an input: with a null character in sync_root, whose lookup raises, load returns and validate raises |
| ConfigLoad.ThrowsSeenAll | onedriveui/config.py:876-895 | the sizes that overflow and the folders that cannot be looked up after reading are those of the entries of the document |
| ConfigLoad.SaveThenLoad | onedriveui/config.py:1616-1666 | what validate accepts is read back as it was written, load returns on it, and returns the same if and only if every files.max value is at least one |
| ConfigLoad.DefaultsAccepted | onedriveui/config.py:105-410 | the defaults of a new account are accepted, and validate does not raise on them, if and only if its folder can be looked up, is absolute and is not under a mount |
| ConfigSchema.LayoutIsOk | onedriveui/config.py:105-410 | id and remote are free texts that are not empty by default, and no section has the name of an account key |
| ConfigValues.ValuesAreRead | onedriveui/config.py:860-895 | an account that was read has under each key of each section the value that the document gave it |
| ConfigLoad.FreeConfig | onedriveui/config.py:640-666 | a configuration that was read never has a value outside an enumeration |
| ConfigCodec.CoercedHasType | onedriveui/config.py:806-858 | whatever _coerce returns, other than the sentinel and an exception, has the declared type |
| ConfigCodec.TypedIsKept | onedriveui/config.py:806-858 | _coerce keeps every value that already has its type and is in its enumeration |
| ConfigCodec.BoolIsRead | onedriveui/config.py:758-769 | which values are read as true and as false: truth values, 1 and 0, and eight words in any case with blanks around them |
| ConfigCodec.IntIsRead | onedriveui/config.py:772-784 | which values are read as an integer: integers, floats that are integers, and texts, never a truth value |
| ConfigCodec.IntBecomesFloat | onedriveui/config.py:787-797 | an integer under a float key becomes the nearest float of 53 bits with its sign, itself up to 2^53 |
| ConfigCodec.TooBigIff | onedriveui/config.py:787-791 | float of an integer raises if and only if its magnitude is at least 2^1024 - 2^970 |
| ConfigCodec.RaisesIffTooBig | onedriveui/config.py:806-858 | _coerce raises for a float key if and only if the value is such an integer, and never for a declaration without floats |
| ConfigCodec.SectionFromDict | onedriveui/config.py:861-873 | the loop over the hints: each key has the coerced value if there is one and its default otherwise; it raises if and only if some key does |
| ConfigCodec.SectionAlwaysFits | onedriveui/config.py:861-873 | a section read from any JSON fits its schema |
| ConfigCodec.SectionRoundTrip | onedriveui/config.py:898-904 | a section that fits is read back from any document that contains it |
| ConfigCodec.EntryRoundTrip | onedriveui/config.py:876-913 | an account is read back as it was rendered, without raising, if and only if it has an id or no remote to name it after |
| ConfigCodec.NamedAfterRemote | onedriveui/config.py:887-889 | an account whose id is absent or one of the values Python takes for false is named after its remote, unless that is such a value too |
| ConfigCodec.RoundTrip | onedriveui/config.py:475-518 | from_dict never raises on a rendered configuration that fits, and returns it if and only if every account is named in that sense |
| ConfigCodec.FromDictAlwaysFits | onedriveui/config.py:490-518 | whatever the JSON value was, unless from_dict raises it gives a configuration that fits and whose accounts are named |
| ConfigCodec.ReadingIsStable | onedriveui/config.py:475-518 | what was read from any JSON value is read again, unchanged and without raising, after it was rendered |
| ConfigCodec.MigrateIdempotent | onedriveui/config.py:945-968 | migrating twice is migrating once |
| ConfigCodec.MigrateLosesNothing | onedriveui/config.py:919-937 | each key of an account of a document that says no version of 1 or more is in the one account it gets, with its value, and every other key stays where it was |
| ConfigCodec.MigrateWraps | onedriveui/config.py:919-970 | on the document itself: with no list of accounts and some key of an account, it gets exactly one account, holding every key of an account with its value and nothing else, if and only if it does not say an integer version of 1 or more; in every other case all its keys but the version stay |
| ConfigDiff.ChangedKeys | onedriveui/config.py:1490-1539 | returns each changed key once and no other |
| ConfigDiff.KeyReportedIff | onedriveui/config.py:1490-1539 | a key of a section is reported exactly when the value under that very key differs, in the app or advanced section or in an account that is the last of its id in both documents; the version and the list of accounts exactly when they differ |
| ConfigDiff.NothingReportedIff | onedriveui/config.py:1490-1539 | for all rendered documents: no key is reported if and only if version, app and advanced are equal, the ids are the same in the same order, and each id looks up the same account, the last of its name, in both |
| ConfigDiff.EveryChangeShowsIff | onedriveui/config.py:1490-1539 | every fitting document that differs from the new one has a reported key if and only if the ids of the new one are distinct |
| ConfigDiff.SavedChangesShow | onedriveui/config.py:1616-1666 | validate accepts only distinct ids, so against anything it lets save write every change is reported |
| ConfigDiff.NothingChangedIffEqual | onedriveui/config.py:1490-1539 | with distinct ids in the new document no key has changed if and only if the documents are equal |
| ConfigDiff.RepeatedIdHidesChange | onedriveui/config.py:1514-1523 | with one id twice, whatever replaces the first of the two accounts under that id is reported under no key |
| ConfigDiff.SameAccount | onedriveui/config.py:1524-1535 | two accounts have no changed key if and only if they are equal |
| ConfigDiff.DiffShared | onedriveui/config.py:1521-1535 | every account that both documents have is compared once, by its id |
| ConfigDiff.Dedupe | onedriveui/config.py:1536-1539 | keeps every key once |
| IoPool.IOPool.Submit | onedriveui/platform/iopool.py:274-324 | the task starts at once if nothing of its kind waits and a slot is free and waits last otherwise; other kinds are untouched; its token can be reached |
| IoPool.IOPool.Pump | onedriveui/platform/iopool.py:326-345 | every kind has exactly as many tasks started as fit, so it ends drained or full, and running counts equal live tasks within their limits |
| IoPool.IOPool.PumpKind | onedriveui/platform/iopool.py:333-345 | one kind is served in submission order and no other is touched |
| IoPool.IOPool.StartOne | onedriveui/platform/iopool.py:336-345 | the first waiting task goes live and is counted |
| IoPool.IOPool.OnRetired | onedriveui/platform/iopool.py:347-362 | the task is retired, at most the next of its kind starts, and the tokens are forgotten exactly when nothing is outstanding |
| IoPool.IOPool.CancelAll | onedriveui/platform/iopool.py:388-415 | every waiting task is dropped and every token of outstanding work is cancelled |
| IoPool.IOPool.OutstandingTokens | onedriveui/platform/iopool.py:274-324 | in every reachable state the token of an outstanding task is known or already cancelled |
| IoPool.IOPool.IdleMeansEmpty | onedriveui/platform/iopool.py:377-380 | idle_now is true if and only if nothing is live and nothing waits |
| IoPool.AtMost | onedriveui/platform/iopool.py:67-78 | at any time at most three hydrations, two thumbnails, two rc calls and one task of each other listed kind run, and of an unlisted kind at most as many as there are threads |
| IoPool.DroppedNeverStarts | onedriveui/platform/iopool.py:388-415 | a dropped task has not started, does not run and waits nowhere |
| IoPool.StartedBooks | onedriveui/platform/iopool.py:336-345 | starting a task keeps every task in exactly one of waiting, live, retired and dropped, and the start order |
| IoPool.SubmittedBooks | onedriveui/platform/iopool.py:320-324 | so does submitting one |
| IoPool.RetiredBooks | onedriveui/platform/iopool.py:347-356 | so does retiring one |
| IoPool.DroppedBooks | onedriveui/platform/iopool.py:401-415 | so does dropping all that wait |
| IssueTable.EveryRun | onedriveui/data/repo_sync.py:406-545 | over every run of raise, resolve, resolve by code and mute: at most one open row per key, the occurrences of a key equal its raises, and each row is reported resolved exactly once, when it is |
| IssueTable.StepOccurrences | onedriveui/data/repo_sync.py:406-456 | each step changes the occurrences of a key by one if it raises that key and by none otherwise |
| IssueTable.StepOneOpen | onedriveui/data/repo_sync.py:406-456 | each step keeps at most one open row per key |
| IssueTable.StepReported | onedriveui/data/repo_sync.py:459-526 | each step reports exactly the rows it closes |
| IssueTable.RaiseStores | onedriveui/data/repo_sync.py:406-456 | on the rows: a raise overwrites the report of an open row of its target and counts once more, or adds a row seen once |
| IssueTable.ResolveByCodeStores | onedriveui/data/repo_sync.py:491-526 | on the rows: exactly the open rows of that account and code, and of that path if one is given, are closed, and exactly their ids are returned |
| IssueTable.OneRowStores | onedriveui/data/repo_sync.py:459-545 | on the rows: resolving closes one open row, muting marks one row, and nothing else changes |
| IssueTable.Issues.RaiseIssue | onedriveui/data/repo_sync.py:406-456 | bumps the one open row of the key or adds one |
| IssueTable.Issues.ResolveIssue | onedriveui/data/repo_sync.py:459-488 | closes an open row and says so; a closed or missing one changes nothing |
| IssueTable.Issues.ResolveIssuesByCode | onedriveui/data/repo_sync.py:491-526 | closes every open row of the code and returns exactly their ids |
| IssueTable.Issues.MuteIssue | onedriveui/data/repo_sync.py:529-545 | hides or shows a row without resolving it |
| DecisionTable.AnswersAreFinal | onedriveui/data/repo_sync.py:1028-1101 | over every run an answered row never changes again and a pending one keeps its question |
| DecisionTable.OneStepAnswers | onedriveui/data/repo_sync.py:1028-1101 | an answer comes from exactly one step, and is the one that step gave: a user answer with its text and time, or a refusal of an expiry that was due |
| DecisionTable.AnswerStores | onedriveui/data/repo_sync.py:1028-1061 | answering a pending row stores that answer and that time and keeps its question; any other call changes nothing |
| DecisionTable.ExpireStores | onedriveui/data/repo_sync.py:1064-1101 | an expiry stores a refusal and its time on exactly the pending rows whose time has come, and keeps their questions |
| DecisionTable.ExpiresExactlyTheOverdue | onedriveui/data/repo_sync.py:1064-1101 | on stamps, expiry refuses exactly the unanswered rows whose time has come |
| DecisionTable.OverdueIdsExact | onedriveui/data/repo_sync.py:1064-1101 | the ids returned are exactly those rows |
| DecisionTable.DefaultWindow | onedriveui/data/repo_sync.py:955-994 | a decision with the default window is refused by every expiry run from seven days on and by none before, unless it was answered |
| DecisionTable.Decisions.AnswerDecision | onedriveui/data/repo_sync.py:1028-1061 | answers a pending row with the given answer and time and says so; an answered or missing row is left alone |
| DecisionTable.Decisions.ExpireDecisions | onedriveui/data/repo_sync.py:1064-1101 | in place: the overdue rows are refused and their ids returned |
| Stamps.StampOrder | onedriveui/data/repo_sync.py:103-116 | the text order of the fixed-width UTC stamps (section 5.1 of RFC 3339) is the order of the instants, and distinct instants have distinct stamps |
| Stamps.DateHasNumber | onedriveui/data/repo_sync.py:103-116 | the calendar is the Gregorian one: every day number is that of its date in closed form |
| Stamps.StampReads | onedriveui/models.py:26-28 | a stamp spells year, month, day, hour, minute and second of its instant at their places |
| Stamps.DatesGrow | onedriveui/data/repo_sync.py:103-116 | later days have later calendar dates |
| Stamps.CutoffOrder | onedriveui/data/db.py:616-627 | a stamp is below the SQLite spelling of a cutoff if and only if its date is an earlier one |
| Stamps.NeverEarlyAtMostADayLate | onedriveui/data/db.py:616-627 | so nothing is removed early, and everything a day after its time |
| Stamps.PlusDaysText | onedriveui/data/repo_sync.py:103-116 | shifting by days keeps the time of day and moves the date by exactly that many days |
| Housekeeping.VerdictStable | onedriveui/data/db.py:604-614 | whether a row is beyond the newest does not depend on which doomed rows are already gone |
| Housekeeping.GoneIff | onedriveui/data/db.py:595-614 | on the rows: one is removed exactly when it is resolved, for issues, and as many such rows of its account as the limit have a larger id; an unresolved issue always stays |
| Housekeeping.NewestSurvive | onedriveui/data/db.py:604-614 | what is left of the ranked rows of an account are its newest ones, as many as the limit allows |
| Housekeeping.Table.DeleteBeyondNewest | onedriveui/data/db.py:604-614 | deciding row by row on the shrinking table, in any order, removes exactly the rows beyond the newest |
| Housekeeping.PastCutoffIff | onedriveui/data/db.py:616-627 | a finished row goes if and only if its date is before the date of the cutoff: never early and at most a day late |
| Housekeeping.NewestOf | onedriveui/data/db.py:604-614 | of finitely many ids exactly so many as the limit, or all, have fewer than limit larger ones |
| Migrations.Resumes | onedriveui/data/db.py:402-430 | an upgrade that was cut after any number of scripts and started again ends where an uncut one ends |
| Migrations.InterruptionsDoNotMatter | onedriveui/data/db.py:402-430 | the same for any number of interruptions |
| Migrations.NeverTwice | onedriveui/data/db.py:402-430 | the scripts that take effect have strictly rising versions, so none runs twice and of two files with one version only the first runs |
| Migrations.PassedOver | onedriveui/data/db.py:419-421 | scripts up to the stamped version are passed over |
| Migrations.UpgradeRuns | onedriveui/data/db.py:402-430 | up to some script exactly those run whose version is above the stamp and above every earlier script, one after the other on the data; the upgrade ends there only if none is left or the next due script fails on the data as they then are |
| Migrations.Database.Migrate | onedriveui/data/db.py:402-430 | the loop performs that upgrade in place, reports success only when no script is pending, and failure only where a pending script fails on the data |
| Migrations.Database.RunScript | onedriveui/data/db.py:439-460 | on the fields: either the data are what the script makes of them and the version is its own, or the script failed and both are as before |
| Units.EchoIsStable | onedriveui/units.py:334-372 | kb_to_kib of kib_to_kb is the identity |
| Units.KibToKbInjective | onedriveui/units.py:355-372 | no two KiB values share a KB value |
| Units.EchoWithinOne | onedriveui/units.py:334-372 | the other composition is off by at most one |
| Units.ConversionsMonotone | onedriveui/units.py:334-372 | both conversions are monotone, negative settings included |
| Units.NearestKib | onedriveui/units.py:334-352 | the KiB value is a nearest one, and of two as near the even one, so 64 KB are 62 KiB |
| Units.NearestKb | onedriveui/units.py:355-372 | the KB value is the nearest one, and there is never a tie |
| Units.NothingBelowZero | onedriveui/units.py:334-372 | a setting of zero or less is no limit both ways |
| Units.TokenParses | onedriveui/units.py:146-172 | digits followed by any printed suffix parse to the float of the number times the multiplier, and raise if and only if that is 2^1024 or more |
| SizeTexts.SizeReads | onedriveui/units.py:49-172 | what a text in the form of the regular expression is read as: sign, digits, fraction, a letter in either case for a power of 1024, an i and a B, with blanks where it allows them |
| SizeTexts.SizeIsRead | onedriveui/units.py:49-172 | every text that is read as a size, but for the words for no limit, has that form |
| SizeTexts.NumberIsNearest | onedriveui/units.py:172 | digits with or without a fraction are read as the nearest float of 53 bits, of two as near the even one |
| SizeTexts.BytesIs | onedriveui/units.py:172 | the product of number and multiplier loses its fraction towards zero with its sign kept, and raises exactly from the float limit on |
| SizeTexts.SpaceIs | onedriveui/units.py:49-172 | which characters of ASCII are white space |
| Units.LowerIs | onedriveui/units.py:155-172 | each capital of ASCII becomes its small letter |
| SizeTexts.ToFloatIsNearest | onedriveui/units.py:172 | rounding to 53 bits is to nearest with ties to even |
| Units.RenderParses | onedriveui/units.py:146-194 | parsing what was printed gives the number back if and only if the printed quotient is a float and the number is below 2^1024, and raises if and only if the rounded quotient times the suffix is not below it |
| Units.SizeRoundTrip | onedriveui/units.py:175-194 | the same for parse_size of format_size, so it is the identity whenever the printed quotient is at most 2^53; no limit is read as minus one |
| Units.FirstLostSize | onedriveui/units.py:146-194 | 2^53 + 1 is read back as 2^53 |
| Units.DigitsOverflowIff | onedriveui/units.py:146-172 | a number written without a suffix raises if and only if it is at least 2^1024 - 2^970 |
| Units.NoFloatIff | onedriveui/units.py:172 | rounding to 53 bits reaches 2^1024 exactly from half a step below it on |
| Units.LargeSizeRaises | onedriveui/units.py:146-194 | 2^1024 is printed and raises when it is read back |
| Units.ChosenIsLargest | onedriveui/units.py:190-194 | no larger suffix of the table divides the number |
| Units.RateMeansKib | onedriveui/units.py:375-396 | a limited rate is read as 1024 times kb_to_kib of it under the same exact condition, always with a suffix, and an unlimited one as no limit |
| Units.BwlimitReadsBack | onedriveui/units.py:399-425 | the upload side of the pair is read back first and the download side second |
| Units.Humanise | onedriveui/units.py:106-123 | the loop of human_bytes: the value is exact, and one decimal place of it never shows 1000.0 while a larger suffix is left |
| Framing.CutAnywhere | onedriveui/platform/ipc.py:430-454 | the lines and the tail of a stream do not depend on where it was cut |
| Framing.EncodedFrames | onedriveui/platform/ipc.py:143-152 | encoded messages come out of the stream one by one and leave no tail |
| Framing.PendingIsPartial | onedriveui/platform/ipc.py:143-152 | wherever an encoded stream is cut, what is pending is shorter than some message |
| Framing.FirstFrame | onedriveui/platform/ipc.py:449-454 | one turn of the extraction loop |
| Framing.BlankIff | onedriveui/platform/ipc.py:449-454 | a line is passed over exactly when all its bytes are tabs, newlines, feeds, returns and spaces |
| IpcServerSide.ChunksDoNotMatter | onedriveui/platform/ipc.py:430-454 | for every way of cutting a stream and whatever its lines do: the peer is still served at the end if and only if no buffer overflowed and fewer than eight of the handled lines were bad; then exactly the handled lines were dispatched, and with the lines still pending they are the non-blank lines of the stream in order; otherwise a prefix of them was dispatched |
| IpcServerSide.LoopEndsIff | onedriveui/platform/ipc.py:449-454 | the loop over a buffer dispatches every non-blank line and leaves a tail without a newline if and only if no line whose dispatch raises is followed by another complete segment in the buffer |
| IpcServerSide.StreamEndsIff | onedriveui/platform/ipc.py:430-454 | over a whole stream: all its non-blank lines are handled and no newline is pending if and only if no line that raises is followed by another complete segment in the last buffer |
| IpcServerSide.HandledAndPending | onedriveui/platform/ipc.py:430-454 | however a stream is cut, the handled lines followed by the lines still pending are its non-blank lines, and its tail is the tail of what is pending |
| IpcServerSide.CalmStream | onedriveui/platform/ipc.py:430-454 | without a line that raises everything is handled and only the tail is pending |
| IpcServerSide.AnyTwoCutsAgree | onedriveui/platform/ipc.py:430-454 | two cuts of one stream that leave the peer served leave the same state if and only if they leave the same bytes pending, and then dispatched the same lines |
| IpcServerSide.UnbrokenCutsAgree | onedriveui/platform/ipc.py:430-454 | so they agree, with every line dispatched, where the last buffer of neither holds a complete segment behind a line that raises |
| IpcServerSide.RaisingLineHoldsBack | onedriveui/platform/ipc.py:458-502 | an input: behind a request whose op is a list a greeting waits undispatched, while in a chunk of its own it subscribes the peer |
| IpcServerSide.LinesCounted | onedriveui/platform/ipc.py:504-517 | a peer is dropped at its eighth bad line, and until then every bad line and every greeting is recorded; a line that raises is neither |
| IpcServerSide.DroppingChunk | onedriveui/platform/ipc.py:430-454 | for every peer, chunk and judge with a drop: an overflow leaves nothing behind; otherwise, of the lines up to the first that raises, the dropped peer is left subscribed if and only if a greeting follows the last dropping bad line, and is forgotten entirely if and only if neither a greeting nor a bad line follows it |
| IpcServerSide.DroppedByOneChunk | onedriveui/platform/ipc.py:430-454 | however the stream goes on, a dropped peer is what the one chunk that dropped it left behind |
| IpcServerSide.CountModulo | onedriveui/platform/ipc.py:504-517 | every eighth bad line forgets the peer and the count starts again behind it |
| IpcServerSide.DroppedYetSubscribed | onedriveui/platform/ipc.py:449-454 | a greeting in the chunk of the eighth bad line is still dispatched and leaves the dropped peer subscribed, while the same bytes in two chunks do not |
| IpcServerSide.IpcServer.OnReadyRead | onedriveui/platform/ipc.py:430-454 | the handler performs one such chunk for its peer and touches no other, and an exception leaves it if and only if a dispatched line raises |
| IpcServerSide.IpcServer.Dispatch | onedriveui/platform/ipc.py:458-502 | one line is recorded and judged, and it raises if and only if the judge says so |
| IpcServerSide.IpcServer.BadRequest | onedriveui/platform/ipc.py:504-517 | the count rises from zero, and the eighth bad request forgets the peer |
| IpcServerSide.IpcServer.Forget | onedriveui/platform/ipc.py:420-428 | the peer has no buffer, no count and no subscription afterwards |
| IpcServerSide.IpcServer.BroadcastInvalidate | onedriveui/platform/ipc.py:605-631 | pushes to exactly the subscribers that are connected, returns their number and forgets the others |
| IpcExtensionSide.OnlyBytesMatter | onedriveui/ext/nautilus_onedriveui.py:172-214 | reply and reports depend only on the bytes that arrived, not on how recv cut them, while no pending frame reaches the limit |
| IpcExtensionSide.OneRecv | onedriveui/ext/nautilus_onedriveui.py:180-188 | one recv: the reading is over at four mebibytes without a newline, at an empty chunk, a failure or the end of the time, and otherwise the complete lines are answered first |
| IpcExtensionSide.ReplyArrives | onedriveui/ext/nautilus_onedriveui.py:172-214 | the reply the server encoded is the one returned, and every push before it is reported in order, for every cut and whatever follows |
| IpcExtensionSide.EncodedIsBounded | onedriveui/ext/nautilus_onedriveui.py:172-214 | frames below the limit never make the reader give up |
| IpcExtensionSide.SkippedThenReply | onedriveui/ext/nautilus_onedriveui.py:188-213 | the first frame that is an object and not a push is the reply |
| IpcExtensionSide.ReadReply | onedriveui/ext/nautilus_onedriveui.py:172-214 | the receive loop computes that answer |
| IpcExtensionSide.TakeLines | onedriveui/ext/nautilus_onedriveui.py:188-213 | the inner loop computes the answer of the complete lines and keeps the tail |
| Throttle.Notifier.Notify | onedriveui/platform/notify.py:595-636 | keeps the run valid and gives the new state in each branch; within the window the request is shown or pending; after it, it is sent, and is what the user sees last if and only if no different request of the toast was still pending |
| Throttle.Notifier.FlushPending | onedriveui/platform/notify.py:650-673 | sends exactly the pending toasts whose window has ended, keeps the others, and sets the timer from the end of the flush for what remained at its start |
| Throttle.Notifier.OnTimeout | onedriveui/platform/notify.py:650-673 | after the timer fired it is armed again if and only if something is pending, for the first window that ends, later by the time the flush spent sending |
| Throttle.Notifier.ArmFlush | onedriveui/platform/notify.py:638-648 | never moves an armed timer to a later time |
| Throttle.Notifier.Send | onedriveui/platform/notify.py:675-737 | a failed send records nothing; a successful one is logged with its beginning and its end |
| Throttle.Notifier.CloseToast | onedriveui/platform/notify.py:804-814 | drops what is pending for the toast |
| Throttle.Notifier.VisitAll | onedriveui/platform/notify.py:660-671 | the loop over the pending toasts |
| Throttle.SendIsSpaced | onedriveui/platform/notify.py:625-636 | a send that waits for its window keeps all successful sends of one toast a window apart |
| Throttle.ArmedAfter | onedriveui/platform/notify.py:638-673 | the timer is due before every pending window has ended, but for one millisecond and the time spent sending |
| Throttle.AfterFlush | onedriveui/platform/notify.py:650-673 | what the loop leaves is what was not due, with the shortest time that remains |
| Throttle.LateIffSpentSending | onedriveui/platform/notify.py:638-673 | the timer is set no later than the end of the first window if and only if at least a millisecond remained and sending took no longer than the part of a millisecond that is cut off; it is more than a millisecond late if and only if sending took longer than that part and a millisecond; every microsecond more of sending is lateness |
| Throttle.LateTimer | onedriveui/platform/notify.py:638-673 | a run from a new notifier in which the flush spends 10 ms sending one toast and the timer for the other is 10 ms late |

## Left out

- DbWriterThread.DbWriter.Collect: other threads act only between two gets of the queue in the object; the machine of WriterMachine interleaves them anywhere.
- DbWriterThread.DbWriter.RollBack: a ROLLBACK that itself fails is not told apart from one that succeeds.
- WriterMachine.RefinesLog: the bound of 5000 is for batches that `_collect` cuts; the last batch of the drain is not bounded in the code either.
- WriterMachine.RefinesLog: a database that cannot be opened, the wake-up of waiters on a timeout, signals and logging are not part of the model; `submit` checks the flag and puts in one step, as the claim needs.
- WriterLog.ReplayIsSequential: SQLite may roll a transaction back by itself when an operation meets a full disk or an I/O error; with `isolation_level=None` the later operations of the batch then commit one by one and the final COMMIT fails, and that a failed COMMIT leaves the database as it was is then not claimed.
- DbWriterThread.DbWriter.Stop: the wait for the thread and its timeout are not modelled.
- WriterRestarts.EveryLife: the parts of a `stop` are steps of their own, while the check of the flag in `submit`, its start of the thread and its put are one; a start that fails to open the database is left out.
- ScanRuns.EverySnapshot: a row is an opaque entry with a generation; a failing slice stops inside its rows and keeps what it had written; other work in between leaves the index of the account alone.
- ConfigStore.Load: a file that exists is read without error.
- ConfigStore.CutIsADeed: the disk is settled when the save begins.
- AtomicFiles.Disk.AtomicWrite: file modes, the length of a write and the errors of the directory sync are left out; a failing call has no effect on the disk.
- ConfigCodec.CoercedHasType: `int` and `float` of a text are parameters that give finite numbers; NaN and infinity, in the document or spelled in a text, are left out.
- ConfigRules.LockMinutes: the product of a number and its unit is exact; home directories, mounts and `float` of anything but plain digits are parameters.
- ConfigSchema.LayoutIsOk: keys that neither `clamp` nor `validate` reads, and the sections pause, notifications, extras and integration, are not listed; the codec holds for every schema.
- ConfigObject.AppConfig.Clamp: the assignments inside one account are one update of its record, or two where it stops.
- ConfigLoad.LoadRaisesIff: a JSON integer has few enough digits for Python to read and print it (4300 by default), which the parser of the file enforces.
- ConfigLoad.ReadingRaisesIff: a document is nested less deeply than Python's recursion limit; the `copy.deepcopy` of `migrate` raises a RecursionError from a few hundred levels on.
- ConfigDiff.NothingChangedIffEqual: inside a free dictionary Python's `==` takes 1, 1.0 and true for equal, so a change from one to the other is reported under no key there; equality here, also in ConfigDiff.EveryChangeShowsIff and ConfigDiff.SameAccount, tells them apart.
- ConfigDiff.ChangedKeys: the order of the keys is not stated, and the documents are configurations as `to_dict` renders them, the old one included.
- Units.SizeRoundTrip: Python refuses to print an integer of more than 4300 digits; text is ASCII; numbers too small for a normal float are rounded to 53 bits like the others, which changes no size.
- Units.NearestKib: the quotient of the conversion is exact, which Python's is up to 2^53; from 2^1024 on Python's division raises.
- Units.Humanise: the value is exact where Python divides floats, and the last formatting step is left out.
- Stamps.StampOrder: instants are whole seconds, counted from the first day of year 1 up to a year of four digits; leap seconds are left out.
- Throttle.Notifier.Notify: server ids, the marshalling of a toast and the close signals are left out; the timer counts exactly and fires at its deadline or later.
- IpcServerSide.IpcServer.Dispatch: what a line means, and whether its dispatch raises, is a parameter; the answers, the time budget and the providers are left out.
- IpcExtensionSide.ReadReply: what a frame means is a parameter, so that a push whose `paths` is no list is not reported and that a deeply nested frame raises are not told apart; connecting and sending are left out.
- IoPool.IOPool.Pump: what a worker does with a task, the progress signals and the shutdown timeout are left out.
- DecisionTable.AnswersAreFinal: the hourly deletion of answered decisions is not a step of these runs.
- IssueTable.EveryRun: pruning of resolved rows is not a step of these runs.
- The batched readers of `repo_files.py`, pins and latches, the other tables and their row converters would only add easy members.
- JSON text, SQL text and the schema file; parsed JSON is a datatype and a table is a map or a sequence.
- `InstanceLock`: its release unlinks before it unlocks, so two holders are possible; no exclusion is claimed.
- The in-tree `IpcClient` of `ipc.py`, Qt, GLib and D-Bus plumbing, sockets and threads as such.
- `human_rate`, durations and relative times, redaction, and the sentences of the problems that `validate` lists.
- The sync reducer, the supervisor, the mounts and the user interface are not part of this model.
