# Verified models of hekla's protocols

hekla is a durable, event-sourced runtime: commands append events to a log, effects answer them with
outward calls, folds keep derived tables, and sealed fields are encrypted under per-subject keys that
can be erased. Its hardest logic is a set of small protocols over in-memory and transactional state.
This project models them in Dafny, with the branches, constants and error paths of the Rust code, and
proves what they promise over every input and every interleaving. Nothing here was executed.

`dafny verify dfyconfig.toml` checks everything.

## What is modelled

- **The lane scheduler** (`src/lanes.rs`, `src/effect.rs`). `LaneState` is the scheduling object with its
  ten maps, each method proved against the functions of `LaneSpec`. `LaneRuns` is the world around it: a
  reader, workers, published marks, lane rows, re-subscriptions, crashes and restarts, with the invariant
  that `LaneInvariants`, `LaneSteps` and `LaneDurability` show every step to keep while no guard still needed is
  forgotten. `LaneAlways` has what every run keeps, whatever it forgets, and `LaneTame` what runs keep in which
  nothing folded away comes back. `LaneTheorems` and `LaneCollapse` read the promises off these, `LaneDriver` shows
  that the driving code (`admit`, `publish_mark`, `run_lane`) takes only those steps, `LaneResubscribe` settles when
  forgetting is safe, and `LaneRefire` is a run in which it is not. `LanePool` is the shared ready queue with any
  number of workers.
- **Durable execution** (`src/effect.rs`, `src/heklang_host.rs`). A handler is any deterministic tree of outward
  calls. `DurableExecution` interleaves lookup, perform, record and crashes; `SealedReplay` re-runs a record.
- **The key store** (`src/crypto.rs`, over `src/opdb.rs`). Threads that mint, adopt, restore, rotate and erase,
  one step for each use of the store's lock, with a sweeper beside them. Encryption is symbolic: a wrapping
  carries its key, secret, associated data and a unique nonce. `KeyStore` has the steps, `KeyTable` the table
  they change in place, `KeyHistory`, `KeySteps` and `KeyRuns` the invariant and what runs promise, and `KeyRotation`
  and `KeyMints` what a rotation and a mint come to; `KeyErasure` and `KeyCounterexample` say exactly when an erase
  is for ever, `KeyUndo` and `KeyLost` exactly when an adoption that is undone has kept its secret.
- **Derived tables** (`src/fold_sink.rs`, `src/fold_runtime.rs`, `src/fold_store.rs`). `FoldTables` defines what
  following the log gives, and `FoldCells` what each cell is then made of; `FoldSink` is the write-back buffer and
  the replay overlay over the store, `FoldRuntime` the batches and the backfill, `FoldFollow` the loop, `FoldDeploy`
  what a deploy changes, and `FoldGuard` and `FoldRows` exactly when a deploy goes on as if the new program had been
  there from the start. `KeyOrder` is the order of keys and the prefix seek over them.
- **The append protocol** (`src/heklang_host.rs`, `src/dispatch.rs`). `TephraLog` is the log as tephra counts it and
  as the language does; `AppendProtocol` is any number of retrying requests against it.
- **Online backup** (`src/backup.rs`). `LogFiles` is a log's segments and what a reader makes of them or of a copy,
  `SegmentCopy` copies them from under their writer; `Backup` interleaves runs, byte by byte and dying anywhere, with
  that writer; `BackupReuse`, `BackupExact` and `BackupStale` say when an earlier copy may
  be left standing.
- **The adoption run** (`src/adopt.rs`). `AdoptScan` finds in the log where each waiting key belongs and loops over
  passes; `AdoptAlone` and `AdoptRun` run it over the key store with no other writer.
- **Lane names and history** (`src/lane.rs`, `src/history.rs`), in `LaneName` and `History`.

## What is assumed

- Lanes: deliveries ascend and a re-subscription restarts at the persisted mark (`src/effect.rs:1289-1300`); a position
  always has the same lane and arm; an arm's collapsibility is fixed for a lane, which `src/lanes.rs:291-294` says the
  code needs; a worker completes only the head it was handed.
- Durable execution: the handler is deterministic, a replay that is judged ends, identical calls on one path are
  numbered in order, call hashes do not collide, and what a replay reveals and redacts is fixed.
- Keys: nonces are unique, fingerprints do not collide, every master a row names is configured, all minters share the
  rotation's primary master, and declared subjects form no cycle.
- Derived tables: a record's arms, lookups and updates are functions of the program; each method is one transaction;
  a column whose fold hash does not move keeps its arms and its seed, and the arms of one record run in an order a
  deploy does not change. A change only to a module function or a declaration that a fold names is outside this.
- Backup: a reader takes files in a chain, each from the position where the one before it ended; a batch counts only
  when its records validate and its marker follows them, a batch that is rolled back has had no marker, and no record or
  marker is all zeros; a segment gets its length when it is created, and an `.idx` file is rebuilt where it does not fit.
- Append: a batch lands atomically, its boundary and existence clauses checked with it. An attempt reads its stages in
  turn, what each reads depending on the states before it; a retry reads on from a state the last attempt folded only
  where it asks for the same, and the boundary names all that was read and starts past nothing a stage has not read.
  Which stages a retry reads on from, and where the boundary starts, is otherwise any choice.
- Lane names: the elision digest does not collide. History: a column's key is fixed while it is paged.

## Where the code and its comments part

The models follow the code. Each of these is proved, with the condition under which the comment does hold.

- `src/lanes.rs:533-540` and `src/effect.rs:1289-1292`: after a re-subscription the mark can overtake the new cursor,
  `forget` drops the guard, and a position at or below the mark is queued again. See `LaneResubscribe.ForgetSafeExactly`
  for when it cannot happen. One that has ended is told so when it begins, so the cost is a dispatch and a low-water that
  dips below the published mark (`LaneResubscribe.RedeliversFinished`). One that a newer position superseded has no
  invocation row, so `begin_invocation` (`src/opdb.rs:301-328`) inserts one and it fires, after the newer one; a restart
  that finds it begun behind the mark never takes it up again (`LaneRefire.RefiresSuperseded`,
  `LaneRefire.AbandonsRefired`). `LaneTame.HarmlessExactly` says exactly which forgets let none such through. In runs of
  those, lanes keep their order and what began runs again (`LaneTame.RunTame`, `LaneTheorems.CompletesInOrder`,
  `LaneTheorems.BegunRunsAgain`); in any run at all neither the mark nor a lane row passes over lost work
  (`LaneAlways.RunAlways`, `LaneTheorems.NewestRunsAgain`, `LaneTheorems.RowsAreHonest`).
- `src/effect.rs:2654-2657`: a replay without a miss may still visit fewer calls than the journal holds. It is reported
  as different all the same. See `SealedReplay.QuieterIsDifferent`.
- `src/crypto.rs:292-313`: `Moved` means the subject hangs from its parent, and erasing that parent is for ever.
  Erasing a grandparent is for ever only if no adoption of the row between is still to be read back. See
  `KeyErasure.AncestorErasure`.
- `src/crypto.rs:370-382`: undoing an adoption can lose the secret after all. The orphan sweep of
  `src/effect.rs:2138-2170` may take the row first, or a write that finds the adopted row unreadable may replace it
  (`src/crypto.rs:690-730`). See `KeyLost.LostToSweep` and `KeyLost.LostToWrite`, and `KeyUndo.UndoneExactly` for when
  it is kept.
- `src/fold_store.rs:196-199` judges a column by its own fold alone, and `src/fold_sink.rs:73-75` has a replay follow the
  program as it is now. Rows are never deleted, so after a deploy that drops, adds or changes a column that mints keys
  where another ranges, or one that another looks up, a column judged up to date and one rebuilt may each differ from
  what following the log from its start gives. See `FoldRows.DropMinter`, and `FoldGuard.GuardExactly` and
  `FoldRows.RowsExactly` for when they do not.
- `src/backup.rs:452-455` copies the active segment whatever its extent, because equal extents do not mean equal
  bytes there. The copy it made can still stand later, once the segment has sealed with other bytes of the same
  extent. The head check of `src/backup.rs:360-364` refuses a run whose copied log falls short for it, so nothing
  inconsistent is called complete. See `BackupStale.StaleRefused`;
  `BackupExact.RefusedExactly` for which runs are refused, `SegmentCopy.SafeExactly` for which copy may stand for good,
  and `BackupReuse.NeverRefused` for a rule of reuse under which no run is refused.
- `src/heklang_host.rs:753-760` guards an `invoke` by the identity of its call, and `src/heklang_host.rs:1345-1347`
  stamps only a caller's own key, so that guard never finds the commit it is to prevent. See
  `AppendProtocol.GuardFindsItself` and `AppendProtocol.InvokeCommitsTwice`.

## Model

| member | source | states |
|---|---|---|
| `LaneState.LaneState.Resuming` | src/lanes.rs:179-195 | A dispatcher resumes with the lane rows as the furthest each lane was offered, nothing queued and nothing in flight. |
| `LaneState.LaneState.RecordRow` | src/lanes.rs:198-201 | A lane row only moves up. |
| `LaneState.LaneState.RowsToSweep` | src/lanes.rs:207-209 | A sweep is due exactly when some row is at or below the mark. |
| `LaneState.LaneState.TakeOver` | src/lanes.rs:257-283 | The open group of the same lane and arm leaves its place in the queue and its oldest position passes to the newcomer; otherwise the newcomer stands alone. |
| `LaneState.LaneState.Admit` | src/lanes.rs:223-309 | The whole new schedule after an admission, and both answers: a position at or below the lane's high-water changes nothing; otherwise it supersedes or starts a group at the back, opens or ends a chain, and arms a lane that has no place. |
| `LaneState.LaneState.SetScanned` | src/lanes.rs:314-316 | The cursor only moves up. |
| `LaneState.LaneState.LowWater` | src/lanes.rs:324-329 | The mark is one below the least in-flight key, saturating at zero and capped by what was scanned. |
| `LaneState.LaneState.PinnedBy` | src/lanes.rs:340-348 | Names the lane of the oldest in-flight group and the position that lane runs next; nothing exactly when nothing is in flight. |
| `LaneState.LaneState.Claim` | src/lanes.rs:373-379 | A worker gets a lane exactly when it is queued, and then it is running. |
| `LaneState.LaneState.Head` | src/lanes.rs:388-397 | The first group of the lane, with its range, frozen by being handed out. |
| `LaneState.LaneState.Complete` | src/lanes.rs:411-438 | The group at the head retires whole, its in-flight entry with it, and a row is owed exactly when something older than the position that ran is still in flight. |
| `LaneState.LaneState.Release` | src/lanes.rs:441-448 | The lane is given back, and is queued again exactly when it has work. |
| `LaneState.LaneState.Defer` | src/lanes.rs:452-455 | The lane is parked under a deadline, its queue untouched. |
| `LaneState.LaneState.Wake` | src/lanes.rs:459-478 | Exactly the lanes parked under one of the deadlines taken out are woken, each once; a stale deadline wakes nothing. |
| `LaneState.LaneState.Promote` | src/lanes.rs:459-478 | Exactly the parked lanes whose deadline is no later than now are woken, each once, and exactly the later deadlines stay. |
| `LaneState.LaneState.PromoteMatching` | src/lanes.rs:486-519 | Exactly the parked lanes whose head is wanted and was not pulled forward before are woken, each once; each is remembered as pulled forward, and exactly those deadlines go. |
| `LaneState.LaneState.PruneRows` | src/lanes.rs:529-531 | Exactly the rows above the mark stay. |
| `LaneState.LaneState.Forget` | src/lanes.rs:541-544 | Exactly the high-waters and begun positions above the mark stay. |
| `LaneDriver.Driver.AdmitBatch` | src/effect.rs:1455-1515 | One batch is one read of the run: every position up to the cursor is offered in order and the cursor recorded with it; the lanes armed are exactly those that gained a place, each once. |
| `LaneDriver.Driver.PublishMark` | src/effect.rs:1560-1589 | The durable mark moves to the low-water if that is higher, then forgets and sweeps at it; each part is an enabled step, and skipping the sweep when no row is due changes nothing. |
| `LaneDriver.Driver.RunLane` | src/effect.rs:1597-1800 | However its attempts come out, completed, backed off, halted, or completed and then quarantined by its replay, a worker takes only enabled steps, and leaves the lane parked, or given back and offered again exactly when work is left; a lane it could not claim it does not touch. |
| `LaneDriver.Driver.Completed` | src/effect.rs:1616-1621 | A completed attempt retires the head of its lane and writes the owed row only after the completion, whether or not the write goes through. |
| `LaneDurability.StepKeeps` | src/lanes.rs:223-544 | Every step of reader, workers, publisher, sweeper and restart keeps the invariant of the scheduler, as long as a forget spares the guards the subscription may still need. |
| `LaneDurability.RunKeeps` | src/lanes.rs:223-544 | So does every run of any length of such steps, crashes included. |
| `LaneDurability.CrashKeeps` | src/effect.rs:1302-1359 | A process that dies anywhere leaves rows and a mark from which the next one resumes with the invariant. |
| `LaneDurability.PassedOver` | src/lanes.rs:324-329 | A position the mark may pass, or a row of its lane may name, has ended or has a newer one of its collapsing arm; an invocation that began has ended. |
| `LaneAlways.StepAlways` | src/lanes.rs:223-544 | Whatever is forgotten and however often the driver re-subscribes, every step keeps this: all that was read above the mark is done with or waits as itself, and neither the mark, a row, nor a row that is owed passes over anything that is not done with. |
| `LaneAlways.RunAlways` | src/effect.rs:1289-1359 | So does every run of enabled steps, from a first boot or any such state. |
| `LaneTame.HarmlessExactly` | src/lanes.rs:533-544 | After a forget up to some position, every later read of the subscription queues at or below it only positions that have ended, exactly when every answered position from the cursor to there that loses its guard has ended. |
| `LaneTame.HarmIsFolded` | src/lanes.rs:237-296 | One that has not ended there was folded away: a later position of its collapsing arm was read. |
| `LaneTame.StepTame` | src/lanes.rs:223-544 | As long as forgets are harmless, every step keeps that what is queued and has not ended is newer than all its lane completed, owes or has a row for, and that what began and has not ended is above mark and rows and will run as itself. |
| `LaneTame.RunTame` | src/effect.rs:1560-1589 | So does every run of such steps. |
| `LaneTheorems.MarkRefines` | src/lanes.rs:318-329 | The group-keyed low-water is the mark a per-position in-flight set would give, in every reachable state. |
| `LaneTheorems.CoveredOnce` | src/lanes.rs:223-309 | Every admitted position lies in the range of exactly one queued or finished invocation of its own lane and arm, and in a finished, terminal one once the mark reaches it. |
| `LaneTheorems.MarkNeverFalls` | src/lanes.rs:314-329 | No step lowers the published mark or, within a process, the low-water; a restart starts from the published mark. |
| `LaneTheorems.MarkOverRun` | src/effect.rs:1560-1589 | Over every run, restarts and re-subscriptions included, the published mark never falls. |
| `LaneTheorems.LowWaterOverRun` | src/lanes.rs:314-329 | Nor does the low-water of one process, while forgets keep their guards. |
| `LaneTheorems.AdmittedOnce` | src/lanes.rs:228-235 | A position that is admitted was never admitted before, is above the mark and above every row it resumed from. |
| `LaneTheorems.NothingSkipped` | src/effect.rs:1289-1300 | Between the resume point and the cursor every answered position was admitted, unless an earlier process recorded it as finished. |
| `LaneTheorems.FrozenHead` | src/lanes.rs:381-397 | In every run, once a lane's head is handed out, every later head of that lane is the same work until it retires, whatever else happens meanwhile. |
| `LaneTheorems.CompletesInOrder` | src/lanes.rs:411-438 | In every run of harmless forgets, work a lane has out and that has not ended is newer than everything the lane completed and than its row. |
| `LaneTheorems.RetiresInOrder` | src/lanes.rs:411-438 | While forgets keep their guards, what a lane completes strictly ascends, ended or not, across restarts as far as its row reaches. |
| `LaneTheorems.AllowedIsTame` | src/lanes.rs:533-544 | Runs whose forgets keep their guards are runs of harmless forgets. |
| `LaneTheorems.NeverFoldedAway` | src/lanes.rs:237-296 | What has begun, or does not collapse, or reached a blind dispatcher, runs as itself and is in nobody else's range. |
| `LaneCollapse.BurstIsOne` | src/lanes.rs:237-296 | And the other way round: in every run, a collapsing position and the next of its lane and arm are answered for by one invocation, of the newer, and are one entry in flight, unless a worker was handed the older one first, the process ended, or an earlier process left a later one of that arm begun. |
| `LaneTheorems.RowOwedExactly` | src/lanes.rs:399-438 | A row is owed exactly when the mark stays below the position that ran. |
| `LaneTheorems.NewestSurvives` | src/effect.rs:1661-1673 | In every run, whatever rows and mark a dying process left, the newest position of every lane and arm is terminal or above both. |
| `LaneTheorems.NewestRunsAgain` | src/effect.rs:1302-1359 | ... and the next process, having read that far, has it queued to run as itself. |
| `LaneTheorems.BegunRunsAgain` | src/effect.rs:1311-1346 | After every run of harmless forgets, an invocation that began and did not end is queued again as itself by a restart. |
| `LaneTheorems.RowsAreHonest` | src/lanes.rs:411-438 | In every run, a position of an arm that never collapses is terminal once the mark or its lane's row reaches it. |
| `LaneTheorems.RowsNeverFall` | src/lanes.rs:198-201 | No step lowers a lane row: it is raised to each position recorded and goes exactly when a sweep reaches it. |
| `LaneTheorems.ForgetsExactly` | src/lanes.rs:525-544 | A forget and a sweep take exactly what is at or below the mark they are given, and change nothing above it. |
| `LaneTheorems.RestartReads` | src/effect.rs:1302-1359 | A restart that has read up to a position has admitted all it answers above the mark and the rows, and keeps whichever of the three invariants held. |
| `LaneResubscribe.OneSubscriptionIsSafe` | src/lanes.rs:533-544 | A process that keeps one subscription never forgets a guard it still needs: every run it can take keeps the invariant. |
| `LaneResubscribe.ForgetSafeExactly` | src/lanes.rs:533-544 | Forgetting up to the mark never lets a finished position be queued again exactly when every answered position between the subscription's cursor and that mark is of a lane already offered something newer; in particular up to the cursor. |
| `LaneResubscribe.RedeliversFinished` | src/effect.rs:1293-1300 | A run of enabled steps with one re-subscription in which a terminal position at the mark is queued again and the low-water falls below the mark: the comment that nothing at or below the mark is offered again does not hold. |
| `LaneRefire.RefiresSuperseded` | src/opdb.rs:301-328 | A run of enabled steps with one re-subscription in which a position that a newer one superseded is begun after the newer one completed: the lane runs out of order, and what began is behind the mark. |
| `LaneRefire.AbandonsRefired` | src/effect.rs:1302-1359 | ... and a restart, however far it reads, never queues that position again. |
| `LaneRefire.ForgetHarms` | src/effect.rs:1560-1589 | The forget of that run is one that is not harmless. |
| `LanePool.ReadyQueue.Offer` | src/effect.rs:875-893 | Offered lanes go to the back, in order. |
| `LanePool.ReadyQueue.Next` | src/effect.rs:895-914 | First in, first out; a stopping pool hands out nothing even when lanes are queued. |
| `LanePool.StartedInv` | src/effect.rs:820-873 | A pool starts with the protocol's invariant. |
| `LanePool.StepInv` | src/effect.rs:1371-1395 | Every step of the reader and the workers keeps it: a lane has at most one claim out and only while queued, one owner exactly while running, and a live deadline exactly while parked. |
| `LanePool.RunInv` | src/effect.rs:1597-1652 | So does every interleaving of any number of workers. |
| `LanePool.PlaceExactly` | src/lanes.rs:373-519 | In every state a pool reaches, while the effect accepts work, a lane is queued exactly when one claim on it is out, running exactly when one worker owns it, and parked exactly when its deadline is live. |
| `LanePool.ExclusiveLanes` | src/effect.rs:1597-1602 | No lane runs on two workers, and a worker's claim is never declined. |
| `LanePool.NeverStranded` | src/effect.rs:1631-1652 | While the effect accepts work, a lane with work has one claim on its way, one owner, or a deadline that will wake it. |
| `LanePool.ParkedStays` | src/lanes.rs:459-478 | In every run of the pool a parked lane stays parked under its deadline through every promotion before it, unless an operator skips its head. |
| `LanePool.PromotedExactly` | src/lanes.rs:459-478 | A promotion wakes a parked lane with a live deadline exactly when that deadline is no later than now. |
| `DurableExecution.DecodeEncode` | src/heklang_host.rs:1217-1263 | A recorded result reads back as the result, of the kind that was written, however its response body is shaped. |
| `DurableExecution.Journal.Lookup` | src/heklang_host.rs:1167-1195 | Finds the recorded answer of exactly this call and ordinal. |
| `DurableExecution.Journal.Record` | src/heklang_host.rs:1197-1212 | Appends one row, refused exactly when the key is already there. |
| `DurableExecution.KeysDiffer` | src/heklang_host.rs:1167-1195 | Two calls of one path never share a journal key, even the same call made twice. |
| `DurableExecution.OrdinalCounts` | src/heklang_host.rs:1167-1195 | The ordinal in a key is the number of times the handler asked for that very call before. |
| `DurableExecution.KeysExactly` | src/heklang_host.rs:1167-1195 | So two calls, of one program or of two, have one key exactly when they are the same call after as many of the same: no other call, in whatever order, moves it. |
| `DurableExecution.LookupExact` | src/effect.rs:1722-1850 | On a journal that is one path, looking up the next call finds its own row and no other, and a call past the end finds none. |
| `DurableExecution.StepKeeps` | src/effect.rs:1722-1850 | Lookup, perform, record, complete, crash and operator skip keep the invariant. |
| `DurableExecution.RunKeeps` | src/effect.rs:1722-1850 | Over any number of crashed and resumed attempts the journal is the answered-call prefix of one path through the handler, and only grows at its end. |
| `DurableExecution.NeverPerformedAgain` | src/effect.rs:1722-1850 | What is about to be performed is in no journal row. |
| `DurableExecution.RecordAccepted` | src/opdb.rs:440-467 | The journal's primary key never refuses an answer. |
| `DurableExecution.JournaledOnce` | src/opdb.rs:440-467 | A key is journaled at most once. |
| `DurableExecution.PerformsCounted` | src/effect.rs:1722-1850 | Every call was made once, plus once for each time no answer came or a crash fell between performing and recording it, plus the one in hand. |
| `DurableExecution.CompletedIsWhole` | src/effect.rs:1722-1850 | The journal of a completed invocation is a whole path: given its answers the handler ends, and not with an error. |
| `SealedReplay.SealedJournal.Recorded` | src/effect.rs:2732-2752 | A hit is remembered as visited, and only the first miss is kept. |
| `SealedReplay.Replay` | src/effect.rs:2521-2669 | A replay gives the verdict of re-running the handler against the journal, and changes nothing durable. |
| `SealedReplay.MatchedExactly` | src/effect.rs:2521-2690 | `Matched` exactly when the handler, from whichever program, makes the recorded calls in order and ends well, over a record still there and not cut short by an operator. |
| `SealedReplay.VerdictExactly` | src/effect.rs:2521-2690 | When each other verdict is given, for any handler and record: there is one path the replay walks, each answer recorded or replayed under the seal, and the verdict is decided by where it stops, what it missed first and what it visited. |
| `SealedReplay.JudgeExactly` | src/effect.rs:2612-2669 | When each verdict is given for what a replay ended with, and what it carries. |
| `SealedReplay.CompletedReplays` | src/effect.rs:2521-2669 | A completed invocation, whatever crashes it went through, replays to its own outcome in as many calls as its journal has entries, visiting the whole journal and reaching nothing it would perform. |
| `SealedReplay.QuieterIsDifferent` | src/effect.rs:2648-2669 | A candidate that makes only some of the recorded calls misses nothing and is still reported as different; the comment there that a replay without a miss visits an equal set is too strong. |
| `SealedReplay.FollowsJournal` | src/effect.rs:2723-2764 | A handler that follows the journal visits all of it in order and misses nothing, however long its other paths are. |
| `SealedReplay.LimitFree` | src/effect.rs:2521-2669 | The verdict does not depend on how many calls a replay is given to end in. |
| `SealedReplay.VisitedAll` | src/effect.rs:2639-2669 | Visiting the whole journal in order is following it. |
| `SealedReplay.JournalDistinct` | src/opdb.rs:440-467 | The journal of one path has distinct keys. |
| `KeyTable.SubjectKeys.GetOrInsert` | src/opdb.rs:1226-1266 | Replaces only the row that was read, inserts only if none is left, and answers with the row that persists. |
| `KeyTable.SubjectKeys.Delete` | src/opdb.rs:1275-1284 | Deletes one row and says whether there was one. |
| `KeyTable.SubjectKeys.Adopt` | src/opdb.rs:1520-1541 | Moves a row under its declared parent with the same secret exactly when it still holds the bytes that were read. |
| `KeyTable.SubjectKeys.RestoreRoot` | src/opdb.rs:1553-1578 | Puts a row back under the primary master exactly when it still holds the bytes the adoption wrote; never an insert. |
| `KeyTable.SubjectKeys.RewrapAll` | src/opdb.rs:1394-1417 | Each row still under the master it was read under ends under the primary with its new wrapping, no other row changes, and the answer counts those that moved. |
| `KeyTable.SubjectKeys.SweepOrphans` | src/opdb.rs:1316-1332 | Deletes orphans only, all of them unless it reaches its limit; it is a run of single sweeps and changes nothing anyone can read. |
| `KeyHistory.WalkResult` | src/crypto.rs:500-558 | Opening a row through its ancestors, one locked read at a time with anything in between, gives the secret that very row holds, or finds it unreadable only because its subject or an ancestor was erased. |
| `KeyHistory.InsertKeeps` | src/crypto.rs:690-730 | An insert, with or without a stale row to replace, loses no secret that was still readable and wraps none that had gone. |
| `KeyRuns.StepKeeps` | src/crypto.rs:257-398 | Every locked step of mints, adoptions, restores, rotations, erases and sweeps keeps the invariant, whatever the other threads are at. |
| `KeyRuns.RunKeeps` | src/crypto.rs:257-398 | So does every interleaving. |
| `KeyRuns.GoneForGood` | src/crypto.rs:638-765 | A secret that left its row is never wrapped by any later row. |
| `KeyRuns.EraseIsFinal` | src/crypto.rs:250-252 | So the secret in a row erased by name is never stored again, whatever adoptions, restores and rotations were in progress. |
| `KeyRuns.MintedPersisted` | src/crypto.rs:725-765 | What a mint answers with was the secret of its subject's own stored row, and still is unless it went since. |
| `KeyMints.FailsWhenSpent` | src/crypto.rs:638-654 | In every run, a mint that answers with no secret has lost thirty-two times to a row that closed before it could be opened. |
| `KeyRuns.LostOnlyByErase` | src/crypto.rs:292-398 | A secret that was ever stored can still be opened, or its subject or an ancestor it was filed under was erased. |
| `KeyRuns.RewrapAll` | src/crypto.rs:257-290 | A rotation loses and revives nothing, even when rows were erased and made again under it. |
| `KeyRotation.RotationMoves` | src/crypto.rs:257-290 | In every run, once a rotation commits no root is under a master but the primary, each row it moved opens to the secret it held, and no other row was touched, whatever ran between its snapshot and its commit. |
| `KeyRotation.PrimaryForGood` | src/opdb.rs:1394-1417 | And none ever is again, so the masters before can be retired. |
| `KeyRuns.SweepLosesNothing` | src/effect.rs:2127-2170 | Sweeping an orphan changes nothing anyone can read, at any depth below it. |
| `KeyUndo.StepTakes` | src/crypto.rs:370-396 | While an adoption waits, the bytes it wrote go exactly by a step that erases the subject, sweeps its row, or replaces the row for a mint that judged it unreadable. |
| `KeyUndo.UndoneExactly` | src/crypto.rs:370-396 | In every run from an adoption's commit to its answer `Undone`, whatever else runs: the subject opens to its secret at the answer exactly when the row still held the adopted bytes, and that is exactly when no such step came in between. |
| `KeyLost.LostToSweep` | src/crypto.rs:370-396 | A run from an empty store in which an adoption answers `Undone` and the orphan sweep has taken the secret, which is not what its comment promises. |
| `KeyLost.LostToWrite` | src/crypto.rs:690-730 | Another, without a sweep or an erase of the subject: an ordinary write found the adopted row unreadable and put another key in its place. |
| `KeyErasure.AdoptOwnRow` | src/crypto.rs:315-398 | A step of an adoption leaves its subject's row as it was, or holds the same secret under the declared parent, or under the primary master. |
| `KeyErasure.MovedHolds` | src/crypto.rs:362-398 | An adoption that answers `Moved` leaves the row holding the same secret under the declared parent, waited for by nobody, unless the subject was erased or replaced since; and the subject opens to that secret, unless it or a subject above it was erased. |
| `KeyErasure.ReadbackCatches` | src/crypto.rs:370-398 | Committing is not being readable: an adoption whose parent's generation went between its mint and its commit never answers `Moved`, in any run, unless its own secret went too. |
| `KeyErasure.ErasedForEver` | src/crypto.rs:250-252 | With no adoption pending in between, erasing an ancestor closes what hangs below it in every later run. |
| `KeyErasure.Reopens` | src/crypto.rs:370-396 | With one pending on a row in between, some run opens it again. |
| `KeyErasure.AncestorErasure` | src/crypto.rs:292-398 | So erasing an ancestor is for ever exactly when no adoption waits on a row between; for a direct parent, always. |
| `KeyCounterexample.MovedThenReopened` | src/crypto.rs:362-398 | A concrete run: an adoption answers `Moved`, a grandparent is erased, and the subject is not closed for ever. |
| `KeyOrder.Sorted` | src/fold_sink.rs:226-280 | A set of keys listed in the store's order; there is only one such list. |
| `KeyOrder.MintedMatching` | src/fold_sink.rs:283-304 | The seek to the pinned prefix returns exactly what filtering every key returns, in order. |
| `KeyOrder.PrefixRunEnds` | src/fold_sink.rs:283-304 | Past the keys that start with a prefix none starts with it again, which is why the seek may stop. |
| `KeyOrder.OneOrder` | src/fold_sink.rs:226-280 | An ascending list of a set of keys is unique. |
| `KeyOrder.TextLessExactly` | src/fold_sink.rs:283-304 | One text is before another exactly when, where they first differ, it has ended or has the smaller character. |
| `KeyOrder.LessExactly` | src/fold_sink.rs:283-304 | And one key before another likewise, part by part. |
| `FoldTables.BatchesSplit` | src/fold_runtime.rs:45-101 | However records are split into batches the same cells and keys come out. |
| `FoldTables.AgreeAll` | src/fold_sink.rs:63-91 | Replaying only a closed set of columns agrees, on those columns and the keys they range over, with replaying everything. |
| `FoldTables.ReplayFollows` | src/fold_sink.rs:63-91 | So a replay from nothing gives each of them, at every key, what following the log from its start gives. |
| `FoldTables.AllMint` | src/fold_sink.rs:183-280 | Every cell following a log writes is at a minted key, and every key it mints carries a cell of a column whose arms name keys exactly: a range mints nothing. |
| `FoldTables.RangeReaches` | src/fold_sink.rs:226-280 | A range arm reaches exactly the keys minted before it that carry its pinned parts, and changes no other key. |
| `FoldCells.CellsAccumulate` | src/fold_sink.rs:121-181 | Over a whole log, a cell holds what the updates made at it come to, each taken into the value the ones before it left, with its lookups as they stood at that moment. |
| `FoldCells.ValueIsFold` | src/fold_runtime.rs:40-101 | So a column whose arms name their keys and look nothing up holds, at each key, the left fold from its seed of the updates the records name there, in log order. |
| `FoldCells.CountsRecords` | src/fold_runtime.rs:40-101 | In particular a column that grows by one for each record naming a key has grown there by their number. |
| `FoldSink.FoldStore.WriteRow` | src/fold_store.rs:606-637 | Writes the named cells of one row, making the row if it is new, and leaves every other cell. |
| `FoldSink.FoldStore.EnsureRow` | src/fold_store.rs:575-594 | Makes the row if it is new and touches no cell. |
| `FoldSink.FoldStore.ResetColumn` | src/fold_store.rs:642-659 | Puts one column back to its seed at every key. |
| `FoldSink.FoldStore.KeysPinned` | src/fold_store.rs:750-790 | Exactly the keys of a table carrying the pinned parts. |
| `FoldSink.FoldStore.Behind` | src/fold_store.rs:680-687 | Exactly the columns below the checkpoint. |
| `FoldSink.ColumnWriter.Flush` | src/fold_sink.rs:94-101 | Flushing at any point changes nothing an arm can see. |
| `FoldSink.ColumnWriter.Read` | src/fold_sink.rs:121-181 | Reads what immediate writes would have left, through the buffer, the store and a replay's overlay. |
| `FoldSink.ColumnWriter.Set` | src/fold_sink.rs:183-224 | Is an immediate write of the cell and its key, whether buffered, kept aside or flushed on the way; a replay leaves every other column of the store alone and gives rows only to keys its own columns write. |
| `FoldSink.ColumnWriter.Keys` | src/fold_sink.rs:226-280 | Lists, in order, the keys immediate writes would have minted that carry the pinned parts. |
| `FoldRuntime.ApplyBatch` | src/fold_runtime.rs:45-101 | Every cell holds what the updates the records make there come to, each taken into the value it finds; the checkpoint moves, and exactly the caught-up columns advance. |
| `FoldRuntime.BehindStays` | src/fold_runtime.rs:45-101 | A batch catches no column up: what was behind stays behind, and nothing else falls behind. |
| `FoldRuntime.Backfill` | src/fold_runtime.rs:122-197 | Every rebuilt column holds, cell for cell, what following the log from its start gives at the checkpoint; every other column is untouched; and rows appear exactly for the rebuilt columns' keys. |
| `FoldRuntime.SplitBatches` | src/fold_runtime.rs:45-101 | Two batches leave the cells and the built-to positions one batch of both would. |
| `FoldFollow.Follow` | src/fold_runtime.rs:416-491 | Whatever the store held, a backfill and any batches after it leave it as applying every further record to what the backfill left, with nothing behind; the backfilled columns are, at every key, as following the log from its start with the current program gives. |
| `FoldFollow.FollowedOn` | src/fold_runtime.rs:416-491 | A store that stands as following from the start would have it, ranging over no table with a key nobody would have minted, goes on to stand so at every later checkpoint. |
| `FoldDeploy.Reconcile` | src/fold_store.rs:183-224 | Every recorded or declared column gets its verdict, and no other. |
| `FoldDeploy.JudgeFits` | src/fold_store.rs:196-208 | When each verdict is given: a column stands exactly when its fold does the same, and is refolded in place exactly when otherwise only its fold moved, not its seed or shape. |
| `FoldDeploy.NothingChanges` | src/fold_store.rs:183-224 | Nothing is forecast exactly when the programs have the same columns, fold for fold. |
| `FoldDeploy.Deployed.Apply` | src/fold_store.rs:313-386 | A deploy keeps every column that stands as it was, records each refilled one as built to zero, and leaves no cell of a dropped or reshaped one. |
| `FoldDeploy.StandsFollow` | src/fold_sink.rs:63-91 | Under the guard a column judged up to date holds what following from the start with either program gives. |
| `FoldDeploy.DeployRight` | src/fold_store.rs:313-386 | A deploy that meets the guard, onto a store that stands as following the old program would have it, goes on as if the new one had followed the log from its start. |
| `FoldDeploy.Redeploy` | src/fold_runtime.rs:416-491 | Deploy, backfill and follow together, onto any store: it ends as applying every further record to what survives the deploy with the refilled columns rebuilt. |
| `FoldDeploy.RedeployKept` | src/fold_runtime.rs:416-491 | Guarded deploys, one after another: each leaves every column of its program as following the log from its start gives, and a store the next may start from. |
| `FoldGuard.GuardNeeded` | src/fold_store.rs:183-224 | Columns and hashes that break the guard have a pair of programs and a log in which a column is served wrong after the deploy. |
| `FoldGuard.GuardExactly` | src/fold_store.rs:183-224 | So over every log, every place the deploy falls and every pair of programs with these columns, each column is served as following from the start would serve it exactly when the guard holds: what a standing column looks up stands, what mints exact keys where a standing column ranges stands, and nothing ranges where such a minter has gone or changed. |
| `FoldRows.RowsExactly` | src/fold_store.rs:313-386 | For two given programs the tables list exactly the rows following from the start would list, in every log, exactly when no record mints fewer keys than it did. |
| `FoldRows.DropMinter` | src/fold_store.rs:183-224 | The smallest deploy that goes wrong, from an empty store: the fold that minted is dropped, the one that ranges is judged up to date, and it keeps a cell following from the start would not write. |
| `FoldRows.DropBreaksGuard` | src/fold_store.rs:183-224 | The columns of that deploy are within the exact condition on deploys, and break the guard. |
| `TephraLog.ReadRecords` | src/heklang_host.rs:823-848 | A read between zero-based positions returns exactly the selected records there, through a cursor that counts from one. |
| `TephraLog.RecordsExactly` | src/heklang_host.rs:823-848 | A read gives, ascending and each once, exactly the records in its range that some slice names by kind and whose fields meet all of that slice's filters. |
| `TephraLog.Store.NextAfter` | src/heklang_host.rs:823-848 | The next selected event after a position, with none skipped. |
| `TephraLog.Store.Append` | src/heklang_host.rs:898-945 | A batch lands whole, or nothing does: it lands exactly when no event carries the guarded tag and the boundary's slices have not moved. |
| `AppendProtocol.StepKeeps` | src/dispatch.rs:180-312 | Every read, decision, append, retry and recovery of every request keeps the invariant. |
| `AppendProtocol.RunKeeps` | src/dispatch.rs:180-312 | So does every interleaving of retrying commands. |
| `AppendProtocol.Serializable` | src/heklang_host.rs:850-945 | Each successful append wrote exactly what its command decides run alone on the log just before it, with every stage read there at once, however many stages, delta reads and attempts it took. |
| `AppendProtocol.NotMoved` | src/heklang_host.rs:883-891 | A decision the boundary did not overtake, from stages read at different moments, is the one the command makes on the whole log. |
| `AppendProtocol.AloneIs` | src/heklang_host.rs:850-891 | Alone, a command folds each stage from all the log holds for what that stage asks given the states before it, and stops at the first that settle it. |
| `AppendProtocol.FoldEnds` | src/heklang_host.rs:823-848 | A stage takes its records into the state it has so far, one after the other. |
| `AppendProtocol.CommitsExactly` | src/heklang_host.rs:883-945 | An attempt with events to append commits them exactly when nothing carries its key and nothing past its boundary is of what any of its stages asked for; otherwise it appends nothing. |
| `AppendProtocol.CommitsAlone` | src/dispatch.rs:180-281 | A request nothing interleaves with, whose key nothing carries, commits what its command decides on the log as it stands. |
| `AppendProtocol.KeyedOnce` | src/heklang_host.rs:753-760 | At most one execution's events ever carry a given idempotency tag. |
| `AppendProtocol.RecoversWhole` | src/dispatch.rs:316-404 | A keyed request told its work is done is told of one commit's events, all of them, and is never told the log is broken. |
| `AppendProtocol.SettledUntagged` | src/dispatch.rs:281-328 | A keyed request that reads and ends with nothing appended had no entry carrying its key in the log when it was answered. |
| `AppendProtocol.RetryIsTold` | src/dispatch.rs:281-328 | So in every run a retry started after its key's commit, whatever it decides, is told of that commit, lost every attempt or was turned away; never that it settled or committed. |
| `AppendProtocol.LostWhenSpent` | src/dispatch.rs:240-278 | In every run, a request is told that it lost only when every one of its attempts was beaten to its boundary. |
| `AppendProtocol.FindCommitted` | src/dispatch.rs:342-404 | The search collects the range, the events and their positions of everything carrying the tag, and falls back when there is nothing. |
| `AppendProtocol.GuardFindsItself` | src/heklang_host.rs:1345-1347 | An append is found by its own guard afterwards exactly when the request carries a key. |
| `AppendProtocol.InvokeCommitsTwice` | src/heklang_host.rs:753-760 | So two runs of one journaled `invoke`, the first lost before its journal entry, both commit although guarded against the same tag. |
| `LogFiles.CommitReads` | src/backup.rs:3-6 | A committed batch is read after those before it, whatever an unfinished one had left above them. |
| `LogFiles.ScratchReads` | src/backup.rs:3-6 | Bytes no marker commits, half written or rolled back, change nothing that is read. |
| `LogFiles.CopyReads` | src/backup.rs:3-6 | A copy whose markers are the segment's own, in their places, reads as the segment up to some batch, though its other bytes come from any moments. |
| `LogFiles.CopiesRead` | src/backup.rs:3-6 | Such copies of some of a log's segments read as a prefix of the log, whichever files they are. |
| `SegmentCopy.ExtentLeast` | src/backup.rs:601-614 | The extent is the least bound past every byte that is not zero. |
| `SegmentCopy.CommittedExtent` | src/backup.rs:601-614 | The backward scan by chunks finds it, whatever the chunk size. |
| `SegmentCopy.CopyPrefix` | src/backup.rs:628-658 | Of a file that is written meanwhile the copy has the full length, zeros past the prefix, and below it each byte as the file held it at some moment of the copying. |
| `SegmentCopy.SettledCopy` | src/backup.rs:616-658 | That is the file itself if it did not change meanwhile and the prefix reaches its extent. |
| `SegmentCopy.GrowingCopy` | src/backup.rs:616-658 | Of a segment being appended to, every marker in the copy is one it has committed, in its place. |
| `SegmentCopy.CopyLog` | src/backup.rs:416-510 | Against a directory that grows meanwhile the target ends with exactly the files listed, each as an earlier copy that may stand had it, or read during the copying up to the extent it was measured at, and each of the length it is listed with; a copy below the highest of that length and extent stands. |
| `SegmentCopy.SameExtentSameBytes` | src/backup.rs:440-470 | Where recorded bytes never change, equal length and extent mean equal bytes. |
| `SegmentCopy.RepeatedCopy` | src/backup.rs:416-510 | So a repeated copy of a log nobody writes, over such a target, is the source's log. |
| `SegmentCopy.SafeExactly` | src/backup.rs:440-470 | A copy of a segment as it stands may be left standing whatever is appended, rolled back and sealed later exactly when its extent does not pass what was committed when it was made (or is too short for a batch). |
| `Backup.OpDb.ClampToLog` | src/backup.rs:715-746 | Every known positioned row above the head goes and every known watermark above it comes down, and nothing else changes. |
| `Backup.ClampLowers` | src/backup.rs:715-779 | The clamp only lowers, brings everything within the head, and does nothing a second time or to a state already within it. |
| `Backup.ClampGreatest` | src/backup.rs:715-779 | And takes away no more than it must: every state that is lower and within the head is lower than the clamped one. |
| `Backup.StepKeeps` | src/backup.rs:263-510 | Every step keeps the invariant: batches half written, rolled back, committed and rolled over by the writer, keys minted and erased, and a backup that lists, reads byte by byte, renames, snapshots, clamps and may die anywhere. |
| `Backup.RunKeeps` | src/backup.rs:263-397 | So does every run of them. |
| `Backup.CompleteIsConsistent` | src/backup.rs:263-510 | At every crash point, whatever moment each byte was read at and whichever earlier copies were left standing, a manifest that says complete means a consistent pair: a log the source had, a key missing for one of its events erased before the state was taken, no erased key back, no position past the copied head. |
| `Backup.FinishReaches` | src/backup.rs:300-366 | And it is finished, and then says complete, only over a log that reaches the head the source had when the run began, with a state that goes with that log. |
| `Backup.SnapshotFirstLosesKeys` | src/backup.rs:300-345 | Taking the state before the log loses a key minted in between: the order of the two copies matters. |
| `BackupReuse.HeldSealed` | src/backup.rs:416-510 | Over every history of runs that die anywhere, if none leaves the highest copy it finds standing, each copy below the highest is the sealed segment byte for byte. |
| `BackupReuse.NeverRefused` | src/backup.rs:359-366 | And then no run is refused: the copied log always reaches the head read at the start. |
| `BackupExact.RefusedExactly` | src/backup.rs:359-366 | Without that guard too, whatever happened before and whatever the writer does meanwhile: a run is refused at its end exactly when, as its files are listed, some copy left standing reads on neither to the next file's name nor to the head read at the start. |
| `BackupStale.StaleRefused` | src/backup.rs:444-462 | A run without that guard, from an empty deployment: a complete backup copies a segment while a batch in it is rolled back, a batch of the same length commits there and seals, and the next backup leaves the stale copy standing and is refused. |
| `LaneName.Encode` | src/lane.rs:96-108 | The name is the keys' text, or the tagged digest of it when its bytes exceed the bound. |
| `LaneName.Buffer.PushKey` | src/lane.rs:110-135 | Appends the key's tag and text. |
| `LaneName.Buffer.PushEscaped` | src/lane.rs:139-148 | Appends the text with separators and backslashes escaped. |
| `LaneName.EscapeDiffer` | src/lane.rs:139-148 | Escaping is injective. |
| `LaneName.PlainStands` | src/lane.rs:139-148 | A text without a separator or a backslash stands as it is. |
| `LaneName.DigitsRead` | src/lane.rs:110-135 | An integer's text is the number in decimal, without a leading zero. |
| `LaneName.KeysTextDiffer` | src/lane.rs:96-135 | So is the text of a composite. |
| `LaneName.NamesInjective` | src/lane.rs:96-148 | Two key sequences share a lane exactly when they are equal, given a digest without collisions. |
| `LaneName.VerbatimExactly` | src/lane.rs:96-108 | A name is the keys' own text exactly when its UTF-8 bytes are within the bound, and otherwise the tagged digest, which fits if the digest does. |
| `LaneName.ElidedApart` | src/lane.rs:50-52 | No elided name is a verbatim one. |
| `LaneName.NeverUnreadable` | src/lane.rs:62-73 | No key names the unreadable lane. |
| `History.CollectOne` | src/history.rs:183-253 | Collects exactly the records that moved one column, compared as served when it is sealed. |
| `History.Collect` | src/history.rs:183-253 | Collects exactly the changes of every column. |
| `History.SortNewestFirst` | src/history.rs:254-255 | The same changes, newest first and by column within a record. |
| `History.Paged` | src/history.rs:256-303 | Groups whole records into entries up to the limit, and says where to go on exactly when there is more. |
| `History.Read` | src/history.rs:164-304 | A page is the newest entries of its window, as defined by the records alone. |
| `History.PagesYieldAll` | src/history.rs:70-104 | Following the pages, each over a log that may have grown, yields the window's entries in order, each whole and once; all of them once it ends. |
| `History.PagesEnd` | src/history.rs:256-303 | And it ends. |
| `History.ItemsExactly` | src/history.rs:183-303 | A record has an entry, with all its changes, exactly when it moved some column. |
| `History.WindowHolds` | src/history.rs:256-262 | A window asks for exactly the entries from `since` on and before `before`. |
| `History.EntryMoves` | src/history.rs:205-253 | An entry lists a column exactly when the record changed its value, and if it is sealed what it is served as, with the values just before and after. |
| `History.ValueIsFold` | src/history.rs:205-253 | A column's value at a position is the left fold from its seed of the records it selects before it. |
| `History.CountsSelected` | src/history.rs:205-253 | So a column that grows by one with each record it selects has an entry for every one of them and for nothing else, and has grown by their number. |
| `History.ItemsDescend` | src/history.rs:256-303 | Entries strictly descend. |
| `History.ChangesChain` | src/history.rs:183-253 | What a change serves as `before` is what the next older change of its column served as `after`, down to the seed. |
| `AdoptScan.Scan.KeepFirst` | src/adopt.rs:543-576 | The first chain of a waiting subject is kept; a later one that differs is noticed once, and none goes unnoticed while fewer than the cap are. |
| `AdoptScan.Scan.ReadChain` | src/adopt.rs:497-533 | Every link of a sealed chain is looked at with its own ancestors. |
| `AdoptScan.FiledFirst` | src/adopt.rs:497-576 | A subject is filed under the ancestors it has in the first link of the first chain of the first event that names it anywhere but last. |
| `AdoptScan.FiledNowhere` | src/adopt.rs:497-576 | And nowhere when no chain does. |
| `AdoptScan.DividedExactly` | src/adopt.rs:543-576 | A resolved subject is divided exactly when some link of the log gives it another chain. |
| `AdoptScan.Fold` | src/adopt.rs:448-539 | However early the scan stops, the waiting subjects are split into those resolved, each to the earliest chain of the whole log, and those the log never mentions; disagreements are real and distinct, and as many as the resolved subjects given another chain in what was scanned, or the cap if that is less. |
| `AdoptScan.Run` | src/adopt.rs:246-308 | Over any passes and answers of the store: which pass is the last, what each count comes to, why rows are left, that every subject some pass reported divided is reported or as many as are reported at all, and that the run is settled exactly when the store then answers that nothing is left. |
| `AdoptAlone.AdoptsAlone` | src/crypto.rs:315-398 | With no other writer, adopting a waiting root ends with `Moved`, whatever its ancestors lack: the row hangs from its declared parent around the same secret, every key that opened opens as before, and nothing else changed but rows of its own chain that were missing or unreadable. |
| `AdoptAlone.MintAlone` | src/crypto.rs:638-765 | With no other writer, minting a chain from any point of any stack answers with a secret its first subject opens to, and makes rows only where the chain's were missing or unreadable, a root only at its top. |
| `AdoptRun.PassLeaves` | src/adopt.rs:310-421 | A pass with no other writer moves exactly those of its batch the log files, each under the parent its earliest event names, counts them, and makes no new root. |
| `AdoptRun.PassTaken` | src/adopt.rs:310-421 | From any store of the key store's invariant and any log such a pass can be taken. |
| `AdoptRun.SettlesExactly` | src/adopt.rs:246-308 | With no other writer the run settles exactly when the log names a parent for every waiting root and they are no more than the passes hold; either way no key is lost, and each root that waits no longer is under the parent the earliest event named, around the secret it held. |
| `AdoptRun.RunAlone` | src/adopt.rs:225-308 | The loop over such passes settles exactly then, and exactly when no root of a waiting subject is left in the rows. |
| `AdoptScan.AbsorbReports` | src/adopt.rs:180-204 | Disagreements stay distinct and capped across passes. |

## Left out

- KeyStore: its operations are steps on values rather than methods of one object, because each is split at every use
  of the lock and interleaved with the others; `KeyTable` has what happens under the lock, in place.
- LaneDriver: shows each method alone, as a run of steps; the interleaving of those steps with other threads is what
  the run theorems of `LaneDurability` and `LaneTheorems` cover.
- LaneDurability.StepKeeps: for forgets that keep the guards still needed, without which parts of that invariant fail;
  what holds without is `LaneAlways.StepAlways`.
- LaneDurability.RunKeeps: likewise; what every run keeps is `LaneAlways.RunAlways`.
- LaneTheorems.LowWaterOverRun: likewise, because a redelivered position lowers the low-water
  (`LaneResubscribe.RedeliversFinished`).
- LaneTheorems.RetiresInOrder: likewise; `LaneTheorems.CompletesInOrder` is for every run of harmless forgets.
- LaneCollapse.BurstIsOne: likewise, because a redelivered position takes an open group over backwards.
- LaneTheorems.CompletesInOrder: for runs of harmless forgets, and work that has not ended; `LaneRefire.RefiresSuperseded`
  breaks it otherwise.
- LaneTheorems.BegunRunsAgain: for runs of harmless forgets; `LaneRefire.AbandonsRefired` breaks it otherwise.
- LanePool: one effect's claims on the shared pool; other effects' claims pass through the same queue beside them.
- LanePool.NeverStranded: says that a way forward exists, not that a worker is scheduled in time.
- LaneTheorems.NewestSurvives: does not say that a range a finished invocation covered is covered again by the same
  range after a restart, because a lane row written for another arm can drop the oldest member of a group.
- SealedReplay.Replay: the errors of reading the log and of an unreadable record, which end a replay before it starts.
- AppendProtocol.KeyedOnce: says nothing of an `invoke` without a key; the counterexample shows why.
- FoldFollow.Follow: positions no arm answers are passed as records without arms rather than filtered by a query, and
  failures that stop the thread are not modelled.
- FoldDeploy.Reconcile: the changes are a map, not a list sorted for display; indexes and the storage format are left out.
- FoldGuard.GuardExactly: a deploy onto a store that followed one program from its start. A column that ranges over a
  table nothing mints in, before the deploy or after it, can never fire and is outside it. Columns still behind, and
  deploys after deploys, are `FoldDeploy.DeployRight`, where the guard is enough.
- AdoptScan.Run: the loop alone, over any passes and any answers of the store; `AdoptRun` says what they are.
- AdoptRun.SettlesExactly: for a run nobody else writes beside. With others, what each adoption comes to is `KeyRuns`,
  `KeyErasure` and `KeyUndo`, and the run reports what the store answers. An adoption that fails, on a row under a master
  that is not configured or is corrupt, is not modelled.
- History.Read: the refusal of histories longer than a bound, and the rendering of values.
- `inflight`, `running`, `next_deadline` and the backpressure and draining they serve: counts for a loop that may stop reading at any time.
- `backoff`, `retry_delay`, `next_backoff` and the failure ladder of `EffectShared`: a deadline is any number here.
- The backstop around a panicking worker (`src/effect.rs:835-866`), and wall clocks, condition variables and poisoned locks.
- `cached_secret` and the chain depth cap: a cache for the length of one request, and an error for chains a program cannot declare.
- Real encryption, hashing and entropy, SQL text, write-ahead logging and fsync.
- The heklang interpreter and digest, tephra's segment format, and JSON and timestamp conversions; `src/schema.rs` and
  `src/read_model.rs` are not part of this model.
- Backup reports, the checks that refuse a foreign or busy target, and the sweep of files staged by a run that died.
- HTTP transport, configuration, the command line, metrics, and the admin and OpenAPI surfaces.
