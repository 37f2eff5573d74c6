# Verification of the Scientific Protocol's stateful services

This Dafny project models seven components of the repository and proves their laws. Each component
has a value-level specification (datatypes and functions), the theorems about it, and, where the
program changes state, a class or a method with loops that is proved to refine the specification.

- **Chain indexer** (`ReadModel`, `NormalForm`, `Projector`, `GroupBuilder`, `ChunkOutcome`,
  `Replay`, `LogColumns`, `SyncRuns`, `CatchUp`, `Retries`, `RunOutcomes`, `ReplayRuns`,
  `SmallBatches`, `EventColumns`, `SyncFrontier`, `ReadModelStore`). Events become statements on ten tables. The simple form folds
  the log one event at a time; the program regroups a chunk by kind and upserts agents, forecasts,
  challenges and appeals once from the contract state (`Head`), which is fixed during a run and
  arbitrary from run to run. A statement has an `Effect` and a `Check`: the "was not present" errors
  and the foreign and unique keys of the migrations.
- **Canonical serialiser** (`Escapes`, `Serializer`, `ShortestText`).
- **Leases** of replication jobs and maintenance tasks (`Queries`, `Lease`, `LeaseTime`,
  `JobStore`, `Maintenance`).
- **Review consensus** (`Review`, `ReviewTraces`, `ReviewStore`).
- **Webhook outbox** (`Webhooks`, `WebhookDispatch`).
- **Rate limiter** (`RateLimit`).
- **Scoring** (`Rounding`, `Calibration`, `Certification`, `ReviewState`, `ScoreLaws`,
  `Leaderboard`).

## Assumptions

- Logs are ones the contracts can emit (`OrderedLog`: creation before updates, at most one terminal
  event of a forecast, challenge or appeal; `Grounded`: an event refers only to what came before).
- For replays, the head names the decision of every settlement in the log (`SettlementsNamed`):
  contracts/EpistemicMarket.sol stores the id that it emits, or stores and emits none (lines 352-377,
  399-416, 433-455), and settles a forecast once.
- A block hash determines the block's parent and events (`Authentic`); nothing else is assumed of
  hashes. A chain is stable within a run.
- A transaction is one atomic step; a crash falls between transactions. `FOR UPDATE SKIP LOCKED` is
  a parameter: the set of rows that are locked.
- Times are integers. Event ids and addresses are represented by their rank in locale order, with
  the empty string and the zero address lowest.
- A quotient passed to `Math.round` is rounded exactly, not after a floating-point division.
- One event id names one event in the runtime feed, and the feed is stable during a round.

## Where the code does not meet the law it is meant to have

- **Catching up in small batches can stop for good.** The indexer stores a forecast with the
  resolution decision that the contract reports at the head, and
  ops/migrations/027_resolution_decisions.sql makes that column a foreign key. When the forecast is
  touched in an earlier chunk than the one that records the decision, the chunk fails. A chunk that
  was cut short by the latest block may commit later, when more blocks make it longer; a full chunk
  fails in every later run, however far the chain has grown, as long as the head reports that
  decision (`Retries.GetsPastIff`, `Retries.StuckForever`). The tables are batch-size independent,
  reaching the head is not: `CatchUp.CatchUpExact` is the exact condition,
  `SmallBatches.SmallBatchesStop` and `SmallBatches.StuckInBlockZero` the example.
- **Deployment block 0** skips block 0 (`SyncRuns.GapFreeIff`, example `SyncRuns.GenesisSkipped`).
- **A lost race in task creation** may return a task for another target
  (`Maintenance.FallbackFaithfulIff`, example `Maintenance.FallbackReturnsOtherTarget`).
- **Split surrogate pairs** sign like the character they stand for: exactly the strings that contain
  one sign like another string that contains none (`Serializer.CollidesIffUnclean`, example
  `Serializer.SplitPairAmbiguous`).
- **An event that the feed shows late**, at or below the cursor, is never delivered
  (`Webhooks.DeliveredIff`, example `Webhooks.LateEventLost`).

The next three concern arguments that exported functions accept and the repository's own callers
never pass.

- **A page limit above 100** loses webhook events, because the feed clamps pages to 100 while the
  collector accepts up to 500 (`Webhooks.CollectedExact`, `Webhooks.OversizedPageLoses`, example
  `Webhooks.BusyFeedLosesOne`). No caller in src sets `syncPageLimit`, and the default is 100.
- **A submission without a run** may exceed a review task's capacity (`Review.SubmitCapacityIff`,
  example `Review.RunlessSubmissionOverfills`). The API refuses a submission without a run
  (src/api/routes/agents.ts:1116-1120), and the workers pass the run they claimed.
- **Completing or failing a job with another job's run** breaks that job's lease
  (`Lease.CompleteSafeIff`, `Lease.FailSafeIff`, example `Lease.ForeignRunBreaks`). The API looks the
  run up within the job (src/api/routes/agents.ts:734-738), and the workers pass the claimed run.

## Model

| member | source | states |
|---|---|---|
| `Projector.BatchIsProjection` | src/indexer/projector.ts:600-944 | Regrouping is invisible: for every well-formed log, head and starting tables, the chunk transaction (kinds grouped, agents, forecasts, challenges and appeals upserted once) leaves exactly what applying the events one at a time in chain order leaves |
| `ChunkOutcome.ChunkOutcomeExact` | src/indexer/projector.ts:830-944 | Exact outcome of a chunk on grounded logs and constraint-satisfying tables: it commits the projection if and only if every forecast it touches is stored with a resolution decision recorded by the end of the chunk; otherwise it fails on that foreign key; no "was not present" error and no other constraint can fire |
| `ChunkOutcome.CheckAt` | src/indexer/projector.ts:831-934 | Statement by statement: in the state the transaction has reached, every check passes except the forecast foreign key, and that one fails exactly when the stored decision is not yet recorded |
| `ChunkOutcome.ExecIsSound` | ops/migrations/027_resolution_decisions.sql:1-28 | A transaction that commits keeps every reference between the tables, one decision per replication and at most one effective decision per claim |
| `CatchUp.BatchSizeIndependence` | src/indexer/projector.ts:251-277 | Runs that differ only in their batch size and finish without an error leave the same tables and cursor: the log applied one event at a time, up to the latest block |
| `CatchUp.CatchUpExact` | src/indexer/projector.ts:263-277 | Exact success condition of the chunk loop, for every batch size: it reaches the latest block if and only if each forecast touched in a block is stored with a decision recorded by the end of that block's chunk; otherwise it stops on the forecast foreign key |
| `CatchUp.OneChunkIsBest` | src/indexer/projector.ts:267-277 | If any batch size catches up, one chunk over the whole range does |
| `CatchUp.RetryFailsAgain` | src/indexer/projector.ts:251-277 | Repeated over the same network, a chunk loop that stopped stops on the same chunk with the same error, and nothing changes |
| `Retries.GetsPastIff` | src/indexer/projector.ts:251-277 | A later run, over whatever grounded chain and head it sees, gets past the cursor if and only if every forecast of its first chunk is stored with a decision recorded by the end of that chunk; otherwise it stops at once on the forecast foreign key with nothing changed |
| `Retries.StuckForever` | src/indexer/projector.ts:251-277 | A full chunk stopped by a forecast stays stopped: over any number of later runs, on any longer chains with those blocks and any later heads that report the same decision for that forecast, the store never changes, although the decision may be recorded in a later block |
| `Retries.FailedRunResumes` | src/indexer/projector.ts:219-277 | A run that stops on a chunk leaves a store from which the next run starts at that chunk: deployment, cursor and block hash are those it checks |
| `Retries.RunsStarted` | src/indexer/store.ts:280-340 | Over any runs from an empty database the cursor exists as soon as a deployment is recorded, and is never before it |
| `RunOutcomes.RunOutcomeExact` | src/indexer/projector.ts:219-277 | After any earlier runs, crashes and chain replacements, a run with enough transactions is refused, has nothing to do, reaches the latest block if and only if the stored decisions are recorded in time, or stops on the forecast foreign key |
| `RunOutcomes.OnlyForecastsFail` | src/indexer/projector.ts:219-277 | Over every sequence of runs on grounded chains the only chunk error of any run, however early it crashes, is the forecast foreign key |
| `RunOutcomes.GroundedAfterRuns` | src/indexer/projector.ts:600-828 | Events grounded in one fold of the log are grounded in the tables that any number of runs left, each under its own head |
| `RunOutcomes.NextChunkGrounded` | src/indexer/projector.ts:263-277 | So the conditions on tables and events under which a retry is decided hold after any runs |
| `CatchUp.RunsStaySound` | ops/migrations/027_resolution_decisions.sql:1-28 | Over any runs on any chains, crashes included, the tables satisfy every constraint |
| `SmallBatches.SmallBatchesStop` | ops/migrations/027_resolution_decisions.sql:17-21 | A concrete chain of four blocks on which batch size 1 stops before committing anything while batch size 3 commits |
| `SmallBatches.StuckInBlockZero` | ops/migrations/027_resolution_decisions.sql:17-21 | On that chain, started from an empty database with batch size 1, no later run over any chain that begins with its first two blocks ever commits a block |
| `Replay.ReplayConverges` | src/indexer/store.ts:570-1136 | On tables synced to the end of a log, the statements of any suffix, event by event or regrouped as a chunk, leave the same tables |
| `ReplayRuns.ReplayCommits` | src/indexer/projector.ts:828-951 | A repeated transaction: on tables synced to the end of a log whose settlements the head names, the chunk over any suffix of the log commits and changes nothing |
| `ReplayRuns.StoredAfter` | contracts/EpistemicMarket.sol:352-377 | After a log whose settlements the head names, a touched forecast is stored without a decision only if the head reports none, whatever was stored before |
| `ReplayRuns.ReplayOutcome` | src/indexer/projector.ts:828-951 | Under any head, such a transaction commits and changes nothing if and only if every forecast it touches is stored with a recorded decision; otherwise it fails on the forecast foreign key |
| `ReplayRuns.ReplayLoopExact` | src/indexer/projector.ts:263-277 | The chunk loop started again at any earlier block, with any batch size, ends without an error if and only if the same condition holds, and then leaves the same tables and the cursor at the latest block |
| `ReplayRuns.FinishedRunReplays` | src/indexer/projector.ts:263-277 | After a run that reached the latest block, from any constraint-satisfying tables, every replay from any block with any batch size succeeds and changes no table |
| `ReplayRuns.ReplayGrounded` | src/indexer/projector.ts:600-828 | Every event of the suffix still refers only to rows that exist when it is replayed on the synced tables |
| `Replay.ReplayedRun` | src/indexer/store.ts:570-1136 | An ordered list of statements absorbs the repetition of any of its suffixes: COALESCE columns, insert-once rows and effective flags take no harm |
| `NormalForm.RunIsClosedForm` | src/indexer/store.ts:570-1136 | Every column of every row in closed form: which first or last statement it comes from |
| `NormalForm.RegroupedRun` | src/indexer/projector.ts:833-934 | Two ordered statement lists that aim the same first and last statement at every row leave the same tables |
| `LogColumns.LogColumnsAgree` | src/indexer/projector.ts:600-828 | The columns written by events do not depend on what the contract reads returned: over any number of runs, each under its own head, they equal those of one fold of the log under any head; shared columns agree when an event wrote them last |
| `EventColumns.ProjectRecords` | src/indexer/projector.ts:600-828 | What the log says, column by column: after any ordered log over any tables, each column is what its own events say, in the events' fields. Created rows keep their first body or, for claims, agents and snapshots, take the last; a status, an authorisation, a resolution, a settlement, a payout, a refund and an adjudication is that of the last event for the key; a decision is effective if and only if its mark is the last one for its claim; a column without such an event keeps the starting row |
| `EventColumns.ChunkRecords` | src/indexer/projector.ts:828-951 | The same of every chunk that commits |
| `EventColumns.ChunkLands` | src/indexer/projector.ts:833-934 | No update is dropped: in a committed chunk the row of every status change, resolution and effective mark is there, and the marked decision belongs to the claim |
| `EventColumns.RunsRecordTheLog` | src/indexer/projector.ts:219-300 | The same of the database after any number of runs, crashes and chain replacements, over the events of the indexed blocks of a chain that one of the runs saw |
| `SyncRuns.RunsStayFaithful` | src/indexer/projector.ts:219-300 | Over every sequence of runs with crashes between transactions and chain replacement between runs, from an empty database, the tables are the projection, under heads that the runs read, of the blocks of a chain that one of the runs saw, from the first block through the cursor: nothing missing, repeated or mixed |
| `SyncRuns.RunsProjectTheLog` | src/indexer/projector.ts:219-300 | Hence the log-derived columns equal the one-event-at-a-time projection of those canonical blocks |
| `SyncRuns.RefusedIffReplaced` | src/indexer/projector.ts:251-263 | A run is refused, with nothing changed, if and only if the chain it sees no longer contains the indexed blocks; the error names the block and both hashes |
| `SyncRuns.SharedPrefix` | src/indexer/projector.ts:252-259 | With hashes that determine their block, chains that agree on one block hash share every block up to it |
| `SyncRuns.ChunkExtends` | src/indexer/projector.ts:937-947 | A committed chunk extends the indexed prefix by exactly its blocks, cursor and stored hash included; a failed one changes nothing |
| `SyncRuns.GapFreeIff` | src/indexer/store.ts:316-324 | The first block indexed is max(1, deploymentBlock): no event is skipped if and only if deploymentBlock is at least 1 or block 0 is empty |
| `SyncRuns.GenesisSkipped` | src/indexer/store.ts:316-324 | A chain with an event in block 0 whose first run ends without an error at cursor 0 and indexes nothing |
| `SyncFrontier.RunReaches` | src/indexer/projector.ts:219-300 | From any database and chain, in block numbers: the cursor never goes back and rests only on blocks with the configured number of confirmations; a run without an error and with so many transactions ends exactly that many batches on, or at the last confirmed block; and the cursor's hash is then on record |
| `SyncFrontier.NothingConfirmedLeft` | src/indexer/projector.ts:246-277 | A run with enough transactions and without an error leaves no confirmed block out |
| `SyncFrontier.ConfigurationRefused` | src/indexer/store.ts:280-340 | A run is refused for its configuration if and only if another one is recorded, and then nothing changes; every other run leaves its own recorded |
| `SyncFrontier.FirstRunDecides` | src/indexer/store.ts:280-340 | Over any runs from an empty database the recorded configuration is that of the first |
| `IndexerStore.ReadModelStore.UpsertClaim` | src/indexer/store.ts:570-604 | Writes every column of the claim and nothing else |
| `IndexerStore.ReadModelStore.UpdateClaimStatus` | src/indexer/store.ts:606-622 | Sets the status, or reports the missing claim and changes nothing |
| `IndexerStore.ReadModelStore.InsertArtifact` | src/indexer/store.ts:624-646 | Inserts once; an existing row stays; the claim must exist |
| `IndexerStore.ReadModelStore.UpsertReplicationSubmission` | src/indexer/store.ts:648-683 | Overwrites the submission columns and keeps the seven resolution columns |
| `IndexerStore.ReadModelStore.ApplyReplicationResolution` | src/indexer/store.ts:685-728 | Writes the seven resolution columns together, or reports the missing replication |
| `IndexerStore.ReadModelStore.InsertResolutionDecision` | src/indexer/store.ts:889-916 | Inserts once, not effective; one decision a replication; claim and replication must exist |
| `IndexerStore.ReadModelStore.MarkEffectiveResolutionDecision` | src/indexer/store.ts:918-933 | After the two UPDATEs exactly the named decision of the claim is effective; fails unless one row was hit |
| `IndexerStore.ReadModelStore.InsertCheckpoint` | src/indexer/store.ts:730-763 | Inserts once; an existing row stays |
| `IndexerStore.ReadModelStore.UpsertAgent` | src/indexer/store.ts:765-799 | Overwrites the agent |
| `IndexerStore.ReadModelStore.UpsertAgentController` | src/indexer/store.ts:801-818 | Sets the authorisation of the pair; the agent must exist |
| `IndexerStore.ReadModelStore.UpsertForecast` | src/indexer/store.ts:820-887 | Overwrites the snapshot columns, keeps the write-once columns that are set, enforces the references |
| `IndexerStore.ReadModelStore.ApplyForecastSettlement` | src/indexer/store.ts:935-959 | Writes decision, outcome and settled together, or reports the missing forecast |
| `IndexerStore.ReadModelStore.UpsertChallenge` | src/indexer/store.ts:961-1013 | Overwrites the snapshot, keeps payout and refund |
| `IndexerStore.ReadModelStore.ApplyChallengeResolution` | src/indexer/store.ts:1015-1036 | Writes status, resolution hash and payout, or reports the missing challenge |
| `IndexerStore.ReadModelStore.ApplyChallengeWithdrawal` | src/indexer/store.ts:1038-1054 | Writes the refund, or reports the missing challenge |
| `IndexerStore.ReadModelStore.UpsertAppeal` | src/indexer/store.ts:1056-1111 | Overwrites the snapshot, keeps the refund |
| `IndexerStore.ReadModelStore.ApplyAppealAdjudication` | src/indexer/store.ts:1113-1136 | Writes the adjudication columns and the refund, or reports the missing appeal |
| `IndexerStore.ReadModelStore.RunGroup` | src/indexer/projector.ts:833-835 | A loop of writes behaves as the statement list: stops at the first error |
| `IndexerStore.ReadModelStore.ApplyChunk` | src/indexer/projector.ts:828-951 | The transaction commits tables, cursor and block hash together, or rolls all of it back, exactly as the specification the theorems are about |
| `IndexerStore.ReadModelStore.EnsureReadModelBaseState` | src/indexer/store.ts:280-340 | Mismatch error with nothing changed, or deployment recorded and the cursor started at max(0, deploymentBlock - 1) |
| `IndexerStore.ReadModelStore.SyncReadModel` | src/indexer/projector.ts:219-277 | The imperative run (base state, reorg check, chunk loop) refines the specification the theorems are about |
| `GroupBuilder.BuildGroup` | src/indexer/projector.ts:608-826 | The loops that fill Sets and lists build each group of the chunk transaction |
| `Projector.GroupMembers` | src/indexer/projector.ts:703-826 | A group holds exactly the statements of its kind that the events issue, duplicates merged |
| `Serializer.StableSerialize` | python/scientific_protocol_client.py:58-70 | The program (recursion over lists, loop over sorted keys, json.dumps for the rest) computes the JSON text of the normal value |
| `Serializer.TextRoundTrip` | python/scientific_protocol_client.py:58-70 | Unique decodability: a JSON reader recovers the normal value and the rest from the text followed by anything, so no text is a proper prefix of another |
| `Serializer.SameTextIffSameNormal` | python/scientific_protocol_client.py:58-75 | For all values: equal texts if and only if equal normal values |
| `Serializer.SameTextIffSame` | python/scientific_protocol_client.py:58-75 | Equal texts if and only if the values are the same up to insertion order at every depth and up to writing an integer as its decimal string |
| `Serializer.InsertionOrderInvisible` | python/scientific_protocol_client.py:61-65 | The text does not depend on dictionary insertion order, at any depth |
| `Serializer.SplitPairAmbiguous` | python/scientific_protocol_client.py:66-70 | An instance: a split surrogate pair and the code point it stands for sign alike |
| `Serializer.CollidesIffUnclean` | python/scientific_protocol_client.py:66-70 | For every string: it contains a split surrogate pair if and only if some other string without one has the same text, and joining its pairs gives that string |
| `Serializer.SameTextIffJoined` | python/scientific_protocol_client.py:66-70 | Any two strings print alike if and only if joining their surrogate pairs makes them equal |
| `Serializer.DecimalInjective` | python/scientific_protocol_client.py:68-69 | Different integers have different decimal strings |
| `Serializer.OneOrder` | python/scientific_protocol_client.py:63 | There is one sorted order of a bag of keys |
| `Escapes.StringRoundTrip` | python/scientific_protocol_client.py:70 | Reading an escaped string as in section 7 of RFC 8259 gives back its UTF-16 code units and the rest of the text |
| `Escapes.PointsRoundTrip` | python/scientific_protocol_client.py:70 | The code units determine the string when no high surrogate is directly followed by a low one |
| `Escapes.UnitsOfPoints` | python/scientific_protocol_client.py:70 | Joining surrogate pairs does not change the code units |
| `Escapes.PointsAreClean` | python/scientific_protocol_client.py:70 | After joining, no split pair is left |
| `ShortestText.CanonicalIsShortest` | python/scientific_protocol_client.py:58-70 | Which text it is: printable ASCII, and of all printable texts that the reader takes for the same value the shortest; one of the same length differs at most in the case of hex digits, which are small |
| `ShortestText.EntriesRise` | python/scientific_protocol_client.py:61-65 | A dictionary's entries appear once each, each key with its own value, keys rising strictly by code point |
| `ShortestText.DecimalIs` | python/scientific_protocol_client.py:68-69 | An integer is written as its sign and its decimal digits, without a leading zero |
| `Lease.LeaseSafety` | src/coordinator/store.ts:1024-1427 | Over every interleaving, stale completions and failures after expiry included: at most one running run a job, none on an open job, exactly one on an assigned job and by its assignees; no run ever runs again; no finished job is reopened |
| `Lease.StepSafe` | src/coordinator/store.ts:1024-1427 | Each operation keeps the lease invariant |
| `Lease.StepKeeps` | src/coordinator/store.ts:1024-1427 | No operation restarts a run, changes its owner, or reopens a finished job |
| `Lease.HeartbeatOnlyForHolder` | src/coordinator/store.ts:1304-1347 | A heartbeat goes through if and only if the run is the one running run of an assigned job and the names given are its assignees |
| `Lease.CompleteSafeIff` | src/coordinator/store.ts:1167-1253 | Completing with any run keeps the invariant if and only if the run is not the held run of another job |
| `Lease.FailSafeIff` | src/coordinator/store.ts:1255-1302 | Failing with any run keeps the invariant if and only if the run is not the held run of another job |
| `Lease.ForeignRunBreaks` | src/coordinator/store.ts:1167-1302 | A state reached from the empty database by two creations and two claims in which completing, or failing, job 1 with the run of job 2 breaks the invariant |
| `Lease.RunsExpired` | src/coordinator/store.ts:1388-1399 | Expiry fails exactly the picked runs |
| `Lease.JobsReopened` | src/coordinator/store.ts:1400-1412 | Expiry reopens exactly the jobs of the picked runs and clears their assignees |
| `LeaseTime.StaleIffSilent` | src/coordinator/store.ts:1369-1386 | Over every sequence of steps on one clock: an expiry with a given cutoff may take a run if and only if it is running on an assigned job, neither row is locked, and neither its claim nor any heartbeat that went through for it is at the cutoff or later |
| `LeaseTime.HeartbeatKeepsLease` | src/coordinator/store.ts:1304-1427 | After a heartbeat that goes through, as long as nobody completes or fails the job, no expiry with a cutoff up to the heartbeat's time touches the run: it stays running and the job keeps its row, whatever other steps happen |
| `LeaseTime.JobMovesAs` | src/coordinator/store.ts:1024-1427 | Over every sequence of steps a job's row is what the last step that moved it says: its creation, claim, completion, failure or expiry |
| `LeaseTime.RunEndsAs` | src/coordinator/store.ts:1167-1427 | Over every sequence of steps a run is running, completed, failed or timed out as the last step that ended it says |
| `JobStore.Jobs.CreateJob` | src/coordinator/store.ts:227-254 | Inserts an open job under the next key |
| `JobStore.Jobs.ClaimById` | src/coordinator/store.ts:1099-1165 | Assigns an open job and starts its run, or changes nothing |
| `JobStore.Jobs.ClaimNext` | src/coordinator/store.ts:1024-1097 | Takes the smallest open job that is not locked and is of the wanted type; returns nothing only when there is none |
| `JobStore.Jobs.CompleteJob` | src/coordinator/store.ts:1167-1253 | Job and run completed whatever their status |
| `JobStore.Jobs.FailJob` | src/coordinator/store.ts:1255-1302 | Job and run failed whatever their status, reason cut at 2000 characters |
| `JobStore.Jobs.HeartbeatRun` | src/coordinator/store.ts:1304-1347 | Touches the beat of a run that is alive for the caller, and only then |
| `JobStore.Jobs.ExpireStale` | src/coordinator/store.ts:1349-1427 | Picks the oldest stale runs up to the clamped limit, skipping locked rows, and expires them one by one |
| `Queries.SelectOldest` | src/coordinator/store.ts:1375-1386 | ORDER BY time, id LIMIT n: the picked rows are in order, and every row left out comes after a full page |
| `Maintenance.CreateTask` | src/coordinator/store.ts:562-618 | Returns the oldest active task with the same artifact, type and target, or inserts one |
| `Maintenance.TasksStayUnique` | src/coordinator/store.ts:562-1022 | Across any order of create, claim, heartbeat, expire, complete and fail there is at most one active task per identity |
| `Maintenance.FallbackTask` | src/coordinator/store.ts:628-645 | The fallback returns the lowest open task that its filters match, and nothing only when none does |
| `Maintenance.FallbackFaithfulIff` | src/coordinator/store.ts:628-645 | Exact outcome of losing the insert race to an active task with the same identity: with a target the fallback returns that task while it is open and nothing once it is claimed; without one it returns the oldest open task on the artifact and of the type, and the answer has the requested target if and only if one was given or that oldest task has none |
| `Maintenance.FallbackReturnsOtherTarget` | src/coordinator/store.ts:628-645 | Two creations from the empty database reach a state in which the lowest matching task, so the answer to a whole-artifact request, is the task for one replica |
| `Review.PolicyNormalized` | src/review/store.ts:71-101 | Any policy input normalises to 1 <= min <= max <= 10, and normalising a stored policy again changes nothing |
| `Review.PolicyAsRequested` | src/review/store.ts:71-101 | A valid request is taken as it is; a missing or invalid number becomes the nearest valid one |
| `ReviewStore.ReviewTables.CreateReviewTask` | src/review/store.ts:341-430 | Inserts an open task with the normalised policy under the next key |
| `Review.TraceKeeps` | src/review/store.ts:635-1160 | Over every sequence of steps: completed if and only if quorum reached, a named agent submits once on distinct-agent tasks, no run submits twice; and, when every submission names a run, submissions plus running runs never exceed the maximum |
| `Review.StepKeeps` | src/review/store.ts:635-1160 | Each operation keeps those invariants |
| `ReviewTraces.ClaimGrantedIff` | src/review/store.ts:635-761 | A claim is granted if and only if the task is open, submissions plus running runs are below the maximum, the agent has not submitted where different agents are wanted, and the same identity is not running on it; the run that starts is the claimant's, and nothing else changes |
| `ReviewTraces.PlacesFill` | src/review/store.ts:679-740 | From a task with k free places, new agents claiming one after the other without submitting are all granted if and only if there are at most k of them |
| `ReviewTraces.SubmitAcceptedIff` | src/review/store.ts:957-1020 | A submission is accepted if and only if the task exists, the run it names, if any, is running on the task for no other agent, and a named agent has not submitted where different agents are wanted |
| `ReviewTraces.StaleIffSilent` | src/review/store.ts:851-890 | Over every sequence of steps on one clock: an expiry may take a run if and only if it is running on an open task, is not locked, and neither its claim nor any heartbeat that went through is at the cutoff or later |
| `ReviewTraces.RunEndsAs` | src/review/store.ts:763-1112 | Over every sequence of steps a run is running, completed, failed or timed out as the last step that ended it says |
| `ReviewTraces.SubmissionsAre` | src/review/store.ts:1036-1139 | Over every sequence of steps the submissions are exactly the accepted ones with what each gave, and a task shows the result of its last submission that gave one |
| `ReviewTraces.SubmissionsMatchRuns` | src/review/store.ts:975-1000 | Over every sequence of steps a submission came through a run of its own task and its own agent |
| `Review.SubmitCapacityIff` | src/review/store.ts:924-1139 | A submission that names a run keeps capacity; one that names none keeps it if and only if the task has a free place |
| `Review.RunlessSubmissionOverfills` | src/review/store.ts:924-1139 | A state reached from the empty database by creating a task with the default policy and claiming it, in which a submission without a run is accepted and exceeds the capacity |
| `Review.SubmitCounts` | src/review/store.ts:1036-1112 | An accepted submission adds one to its task and ends its run, and touches no other task's counts |
| `Review.QuorumOfAgents` | src/review/store.ts:1022-1034 | A completed distinct-agent task whose submissions name agents has at least the minimum of different agents |
| `Review.RunIndexNeverFires` | ops/migrations/012_review_layer.sql:77-79 | The unique index on a submission's run can never be violated |
| `Review.RoundSucceeds` | src/review/store.ts:679-740 | An open task without running runs accepts a fresh agent, whose submission succeeds |
| `Review.NeverStuck` | src/review/store.ts:870-1139 | From every reachable open task, once its runs are expired, claiming and submitting with fresh agents completes it in exactly the missing number of rounds |
| `Review.NeverStuckBehindRuns` | src/review/store.ts:851-1139 | The same behind the expiry query itself: when the running runs are older than the cutoff, as many oldest-first calls as the limit needs for all runs that old clear the task, whatever other tasks they serve first, and the missing rounds then complete it |
| `Review.ExpiriesStop` | src/review/store.ts:851-922 | That many calls leave no run older than the cutoff and change nothing but runs |
| `Queries.OldestTaken` | src/review/store.ts:870-885 | An oldest-first page of rows among which some are older than all others takes all of those, or nothing else and its full limit of them |
| `ReviewStore.ReviewTables.ClaimReviewTaskById` | src/review/store.ts:635-761 | The imperative claim decides and writes as specified, refusals included |
| `ReviewStore.ReviewTables.FailReviewTaskRun` | src/review/store.ts:763-796 | Fails the run whatever its status |
| `ReviewStore.ReviewTables.HeartbeatReviewTaskRun` | src/review/store.ts:798-841 | Touches a live run of an open task, and only then |
| `ReviewStore.ReviewTables.ExpireStaleReviewTaskRuns` | src/review/store.ts:851-922 | Picks the oldest stale runs and fails them |
| `ReviewStore.ReviewTables.RecordReviewSubmission` | src/review/store.ts:924-1160 | Same errors in the same order; submission inserted, run completed, task completed at quorum |
| `Webhooks.ExactlyOnce` | src/agents/webhooks.ts:785-859 | Whatever an earlier round had enqueued before it crashed, a completed round with a page limit of at most 100 leaves exactly one delivery for every event of a matching type that the feed shows above the cursor, touches no existing row and adds no other |
| `Webhooks.DeliveredIff` | src/agents/webhooks.ts:785-866 | Over any rounds on any feeds with page limits of at most 100: an event of a matching type gets a delivery if and only if some round shows it above the cursor that the rounds before it left |
| `Webhooks.NeverEnqueued` | src/agents/webhooks.ts:766-859 | An event that is not above the cursor is never enqueued in any later round |
| `Webhooks.ToldOf` | src/agents/webhooks.ts:766-866 | The same in the events' own fields: a subscription gets a delivery for an event if and only if it asks for its type and some round showed the event, about the subscription's agent, later than the cursor then was |
| `Webhooks.NobodyElseTold` | src/agents/webhooks.ts:808-859 | Every delivery that the rounds of a subscription make is pending, for that subscription, of a type it asks for and about its agent |
| `Webhooks.LateEventLost` | src/agents/webhooks.ts:766-783 | An event that the feed first shows after a later one was collected, and that no round ever delivers |
| `Webhooks.CollectedExact` | src/agents/webhooks.ts:766-806 | The collector finds exactly the shown events above the cursor, once each, oldest first; with a page limit above 100 it does so if and only if none of them is missing from the first hundred |
| `Webhooks.OversizedPageLoses` | src/agents/runtime-events.ts:163-191 | With a page limit above 100, a wanted event past the hundredth is not collected, and neither this round nor any number of later rounds, on whatever feeds and with whatever page limits, ever enqueues a delivery for it |
| `Webhooks.BusyFeedLosesOne` | src/agents/runtime-events.ts:163-191 | A feed of 101 events on which a new subscription with page limit 101 misses one for good |
| `Webhooks.CursorRises` | src/agents/webhooks.ts:845-855 | The cursor moves to the largest fresh event, strictly up, and nothing collected stays above it |
| `Webhooks.FreshExact` | src/agents/webhooks.ts:766-783 | The fresh list holds exactly the gathered events above the cursor, distinct and in ascending order |
| `Webhooks.EnqueueAllExact` | src/agents/webhooks.ts:470-512 | Enqueueing a list adds one pending delivery for each wanted event that has none, and changes nothing else |
| `Webhooks.CollectPages` | src/agents/webhooks.ts:785-806 | The paging loop gathers the whole feed, or its first hundred events when the page limit is above the feed's clamp |
| `Webhooks.FilterFresh` | src/agents/webhooks.ts:766-783 | The Map-filling loop and the sort compute the fresh list |
| `WebhookDispatch.RetriesTerminate` | src/agents/webhooks.ts:951-1074 | Over any rounds of one dispatcher with a fixed maximum, accepted requests whose success could not be recorded included: attempts are exactly the dispatches, never more than the maximum; after that many the delivery is final; final deliveries stay as they are |
| `WebhookDispatch.DeliveryFate` | src/agents/webhooks.ts:971-1067 | Exactly what a delivery becomes over any rounds: delivered if and only if its acceptance was recorded; failed if and only if its subscription was found inactive or it was dispatched the maximum number of times without that; retrying while it was dispatched fewer times |
| `WebhookDispatch.RetriesWait` | src/agents/webhooks.ts:1013-1034 | After its n-th attempt a delivery's next one is set to 15 seconds times 2^(n-1) later, one hour at most, and the round that makes it is no earlier |
| `WebhookDispatch.NeverPostedAgain` | src/agents/webhooks.ts:992-1015 | Once an acceptance and its note on the subscription are recorded, no later round posts the delivery again |
| `WebhookDispatch.DispatchExact` | src/agents/webhooks.ts:971-1067 | A round attempts each picked delivery once and touches nothing else |
| `WebhookDispatch.DelayDoubles` | src/agents/webhooks.ts:251-254 | Retry delays start at 15 seconds, double up to the one-hour cap and never go down |
| `WebhookDispatch.WebhookTables.SyncSubscription` | src/agents/webhooks.ts:822-857 | Page, filter, enqueue the matching events and count them, then move the cursor |
| `WebhookDispatch.WebhookTables.SyncAll` | src/agents/webhooks.ts:808-866 | The round takes every active subscription once; tables are those of the single rounds in that order with the page limit clamped to 1..500; the three counts are the matching events found, the subscriptions listed and the subscriptions with any fresh event, all judged by the subscriptions as they were listed |
| `WebhookDispatch.EachOnItsOwn` | src/agents/webhooks.ts:818-858 | In a round over several subscriptions each ends with the cursor and the deliveries of a round of its own, and one that is not listed keeps what it had |
| `WebhookDispatch.EnqueuedIsGrowth` | src/agents/webhooks.ts:818-866 | The count of enqueued events is what the outbox grows by, when none of the events found has a delivery yet |
| `WebhookDispatch.UpdatedIsMoved` | src/agents/webhooks.ts:845-866 | The count of updated subscriptions is the number of those whose cursor moved |
| `WebhookDispatch.TallyCounts` | src/agents/webhooks.ts:951-1074 | The count reported for a status is the number of picked deliveries that the round leaves in it |
| `WebhookDispatch.WebhookTables.EnqueueDelivery` | src/agents/webhooks.ts:470-512 | An existing (subscription, event) row keeps everything |
| `WebhookDispatch.WebhookTables.AttemptDelivery` | src/agents/webhooks.ts:971-1067 | Delivered, failed for good, or retrying with a later time, attempts up by one; when the note after the delivered write fails, the catch block overwrites the delivered row |
| `WebhookDispatch.WebhookTables.DispatchDue` | src/agents/webhooks.ts:951-1074 | One attempt for each due delivery, earliest first; attempted = delivered + failed + retrying |
| `RateLimit.EvictionInvisible` | src/api/rate-limit.ts:128-185 | For every request sequence on a non-decreasing clock and every choice of expired buckets dropped before each request, every decision is that of the limiter that drops nothing |
| `RateLimit.ServeInMemory` | src/api/rate-limit.ts:252-301 | A client of the in-memory limiter gets, for every request sequence on a non-decreasing clock, the decisions of the limiter that drops nothing |
| `RateLimit.ServeFromPostgres` | src/api/rate-limit.ts:128-185 | A client of the Postgres limiter gets, for every request sequence on a non-decreasing clock, the decisions of the limiter that drops nothing |
| `RateLimit.SlidingBound` | src/api/rate-limit.ts:252-301 | Any half-open interval of the window length holds fewer than 2 * maxRequests allowed requests of a key |
| `RateLimit.SlidingBoundTight` | src/api/rate-limit.ts:252-301 | The bound 2 * maxRequests - 1 is reached |
| `RateLimit.WindowBound` | src/api/rate-limit.ts:275-301 | A single window lets at most maxRequests through |
| `RateLimit.AllowedIff` | src/api/rate-limit.ts:252-301 | A request gets through if and only if fewer than the maximum of the key's requests were let through since its window opened, a window opening with the first request after the end of the one before |
| `RateLimit.RetryAfterIsExact` | src/api/rate-limit.ts:285-301 | The reported wait is the time to the window's end in whole seconds, rounded up, at least one: a refused caller who comes back when it has passed gets through, one who asks before the window's end does not |
| `RateLimit.WindowExact` | src/api/rate-limit.ts:265-284 | A key's bucket ends one window length after its opening and has let through what it counted, up to the maximum |
| `RateLimit.DisabledRule` | src/api/rate-limit.ts:257-263 | A rule without a positive maximum or window refuses nobody and counts nothing |
| `RateLimit.MemoryLimiter.ConsumeRateLimit` | src/api/rate-limit.ts:252-301 | The in-memory limiter with its sweep at 256 entries is the reference step after dropping expired buckets only |
| `RateLimit.PostgresLimiter.ConsumeConfiguredRateLimit` | src/api/rate-limit.ts:128-185 | The Postgres upsert after deleting at most a hundred expired rows is the reference step after dropping expired buckets only |
| `Certification.CertificationMonotone` | src/review/aggregation.ts:475-639 | Raising positive scores, lowering pressures and adding reviewers never lowers the support estimate, the readiness or the rank contested < pending < provisional < certified, through all rounding and clamping |
| `ReviewState.ReviewMonotone` | src/review/aggregation.ts:1180-1334 | From the submissions to the certificate: raising submitted scores and lowering submitted pressures, with the same record, reviewers and calibration, never lowers the support estimate, the readiness or the rank of the overall certification, through weighted means, fallbacks, rounding and clamping |
| `ReviewState.FilledPresent` | src/review/aggregation.ts:249-473 | Whatever was submitted and whatever the record holds, no score is missing when readiness and support are computed, and every score is in basis points |
| `ReviewState.FillDimensions` | src/review/aggregation.ts:1207-1298 | The assignments one after the other give each dimension the submitted mean or else its fallback, and the readiness computed from the filled scores |
| `Calibration.AggregateLifted` | src/review/aggregation.ts:158-197 | Raising submitted scores never lowers a weighted mean |
| `Certification.ScoreChangeIff` | src/review/aggregation.ts:475-518 | Under unchanged pressures any change of scores lowers readiness, or support, if and only if it was positive and twice the new sum plus the new count is below twice the new count times the old rounded mean |
| `Certification.NewScoreIff` | src/review/aggregation.ts:475-518 | A score v for a dimension where there was none lowers readiness, or support, if and only if it was positive and, beside n scores of sum S and rounded mean b, 2(S + v) + (n + 1) < 2(n + 1)b; support only for the seven dimensions it reads |
| `Certification.BuildCertifications` | src/review/aggregation.ts:541-642 | The six certificates: exact certification thresholds, fallback statuses and scores |
| `Calibration.MeanBetween` | src/review/aggregation.ts:158-197 | The rounded weighted mean lies between the smallest and the largest submitted score, and is absent exactly when no submission scores the dimension |
| `Calibration.EffectiveWeightBounds` | src/review/aggregation.ts:173-182 | Every effective weight lies between 1000 and 10000 |
| `Calibration.CalibratedWeight` | src/review/calibration.ts:45-50 | A calibrated agent's weight lies between 5200 and 10000; an agent without history weighs 10000 |
| `Calibration.WeightFollowsRightness` | src/review/calibration.ts:20-155 | The weight follows correctness: replacing an agent's verdicts by ones at least as right about the same claims keeps the number of samples and lowers neither average nor weight |
| `Calibration.ContributionFollowsRightness` | src/review/calibration.ts:20-44 | On a decided claim the righter verdict contributes strictly more: pass, inconclusive, flag, fail on status 3 and 4; flag, fail, inconclusive, pass on 5; fail, flag, inconclusive, pass on 6 |
| `Calibration.OutcomesAre` | src/review/calibration.ts:20-31 | The claims that count are those decided with status 3 to 6, other than the one under review, each with the outcome of its last such row |
| `Calibration.SamplesAre` | src/review/calibration.ts:66-155 | An agent has one sample for each submission that names it and such a claim |
| `Calibration.OneVerdict` | src/review/calibration.ts:32-50 | An agent with one verdict, on a claim that ended in status 4, weighs 9700, 7600, 5800 or 5500 for pass, inconclusive, flag or fail |
| `ScoreLaws.CalibrationIs` | src/review/calibration.ts:45-50 | The weight is 4000 plus three fifths of the average calibration, rounded; 10000 without history |
| `ScoreLaws.AggregateIs` | src/review/aggregation.ts:158-197 | A dimension's score is the mean of the submitted scores, each weighted with its confidence times its agent's calibration, neither of confidence and product below 1000; none if nobody scored it |
| `ScoreLaws.SubmittedOrFallback` | src/review/aggregation.ts:1207-1298 | Each dimension is the mean of its own submitted scores or else its own fallback |
| `ScoreLaws.ArtifactFallbacks` | src/review/aggregation.ts:249-313 | The fallbacks that look at artifacts, by the number of artifacts and the set of their kinds |
| `ScoreLaws.IntegrityIs` | src/review/aggregation.ts:266-274 | The share of artifacts with a hex digest and a location, in rounded basis points |
| `ScoreLaws.ReplicationScores` | src/review/aggregation.ts:315-335 | A replication's resolution outweighs its reported outcome; each speaks for the claim, against it, or leaves it open |
| `ScoreLaws.ForecastScores` | src/review/aggregation.ts:337-355 | A forecast counts with its confidence, turned round exactly when it speaks against the claim or came out wrong, but not both |
| `ScoreLaws.SupportMeans` | src/review/aggregation.ts:315-355 | The two supports are the rounded means of these scores, 0 without any |
| `ScoreLaws.PressuresAre` | src/review/aggregation.ts:357-423 | Both pressures are fixed points for each challenge status, each open issue by severity and each flagged or failed critical review, at most 10000 in all |
| `ScoreLaws.FreshnessIs` | src/review/aggregation.ts:453-473 | The freshness is decided by the latest dated review: 7, 30, 90 and 180 days |
| `ScoreLaws.NeverReviewed` | src/review/aggregation.ts:453-457 | Without a dated review the freshness is 0 |
| `ScoreLaws.CoverageIs` | src/review/aggregation.ts:425-435 | The coverage is the number of review types over the number of different task types, 0 without tasks |
| `ScoreLaws.DiversityIs` | src/review/aggregation.ts:437-451 | The diversity is 5000 times the share of different agents, 2000 times that of different actors, and 600 for each review type up to the fifth |
| `ScoreLaws.ReviewersAre` | src/review/aggregation.ts:425-451 | The types, agents and actors that count are those of the reviews; a review without an agent adds none |
| `ScoreLaws.ReadinessIs` | src/review/aggregation.ts:475-497 | The readiness is the rounded mean of the positive scores that are there less a third of the pressures; the three scores about the reviews count here only |
| `ScoreLaws.SupportIs` | src/review/aggregation.ts:499-518 | The support estimate is the rounded mean of the seven signals that are there less half of the rounded mean pressure |
| `ScoreLaws.SubmittedReadiness` | src/review/aggregation.ts:1297-1298 | A submitted readiness counts as it is, without one the computed readiness does, and no other dimension changes |
| `ScoreLaws.OverallIs` | src/review/aggregation.ts:614-642 | Contested, certified, provisional or pending, each if and only if the scores are beyond the stated thresholds |
| `Calibration.AggregateIgnoresOwnStatus` | src/review/aggregation.ts:1199-1203 | No aggregate changes with the status of the claim under review |
| `Calibration.OwnStatusIrrelevant` | src/review/calibration.ts:66-155 | No agent weight, average or sample count changes with the status of the claim under review |
| `Calibration.BuildAgentCalibrationHistory` | src/review/calibration.ts:66-155 | The loops over claims and submissions compute, for exactly the agents with counted submissions, sample count, mean calibration and weight |
| `Rounding.RoundDivExact` | src/review/aggregation.ts:95-104 | Math.round of a quotient is the integer within half of it, halves going up |
| `Leaderboard.ComputeLeaderboard` | src/reputation/engine.ts:72-151 | The three loops and the sort produce the board: one entry per actor with its total, ranks 1..n strictly ordered by score descending and address |
| `Leaderboard.EntriesScore` | src/reputation/engine.ts:20-151 | Every entry counts its actor's items by kind and status, its score follows from those counts, and whoever comes later has a lower score, or the same score and a larger address |
| `Leaderboard.OrderIrrelevant` | src/reputation/engine.ts:72-151 | Permuting claims, replications and checkpoints changes nothing but the displayed letter case |
| `Leaderboard.BoardConserves` | src/reputation/engine.ts:95-140 | The entries add up to what all items add: every claim, replication and non-zero-address checkpoint is on the board once |
| `Leaderboard.EverythingCounts` | src/reputation/engine.ts:95-140 | That sum counts the claims, the replications and the checkpoints of non-zero addresses |

## Left out

- Ethereum calls, signing, keccak, SHA-256, HMAC, HTTP, IPFS and the SQL engine itself: foreign code. What a contract read or an HTTP attempt returns is a parameter (`Head`, `Outcome`).
- Timestamps such as updated_at, completed_at and indexed_at, the latestBlock metadata value, the run lock and the runtime status of the indexer: no law depends on them.
- Read queries, pages, where-clauses and row-to-view mappings, except the fallback filter of maintenance tasks: no law depends on them.
- Request ids, result hashes, evidence columns and repair columns of jobs: one result and one failure column stand for the columns that completing and failing write together.
- Dimensions, verdict, issues and payload of a stored review submission: written once, read by the scoring model only.
- ReviewStore.ReviewTables.CreateReviewTask: does not model the reuse of an open task with the same subject, type and scope, which has the shape of the maintenance tasks.
- The uncertainty estimate, the tones, the explanation text and the narratives of a review state: presentation or independent formulas.
- Floats in the serialiser, and dictionary keys that are not strings.
- Letter case of addresses beyond the first one shown, and Unicode collation: an address or event id is its rank.
- Postgres and Node clocks may differ; the rate limiter is modelled on one non-decreasing clock.
- Reward policy, work graph, public-write store, artifact ingestion, governance formatting: not part of this model.
- JobStore.Jobs.CompleteJob: does not model the other result columns and the timestamps, because they are written in the same statement and never read by the protocol.
- Review.NeverStuckBehindRuns: does not model other transactions that hold some of the rows during the expiry calls, nor steps of other workers between them.
- WebhookDispatch.WebhookTables.SyncAll: does not model that newer subscriptions are listed first; what it states holds for every order.
- WebhookDispatch.RetriesTerminate: does not model a crash or an error of the catch block's own writes between a request and its record, after which the request is repeated without having been counted; a round cut short otherwise is a round with a shorter list.
- WebhookDispatch.WebhookTables.DispatchDue: does not model a second dispatcher reading the same rows at the same time.
