# Devproof: a verified model of sessions, costs, transcripts, pipelines and routing

The platform runs agent sessions in Kubernetes pods. A control plane keeps sessions, launches, files and
a cost ledger in Postgres; a gateway routes model calls; a runner in each pod holds the agent loop and
reports back over HTTP; a Python client reads the results. This project models the parts of it that carry
state over many steps, and proves what they keep.

- **Launches** (`Sessions`, `Launches`, `LaunchSafety`, `LaunchExclusion`, `LaunchStore`): sessions, turns, the
  writer gate and the model gate, parked launches and their claims, late reports, racing messages, interrupts and
  the reconciler, as one state machine whose steps are single database actions; the control plane's methods are
  proved to take those steps.
- **Checkpoints** (`Checkpoints`): the status callback with its turn guard, and what becomes of checkpoint files.
- **Costs** (`CostLedger`, `CostRuns`, `CostBuckets`): accrual by watermark, quantum and gap cap in integer
  milliseconds; whole runs of ticks and settles; spreading the ledger over chart buckets.
- **Agent loop** (`Transcript`, `AgentLoop`): serializers, compaction, the query loop, saves, crashes and resumes.
- **Events** (`EventLog`, `EventStream`): idempotent appends, retried posts, the SSE cursor and the reconnecting reader.
- **Files** (`FileRows`, `FileStore`, `FileEffects`, `WriteBack`, `Uploads`): rows against stored objects under the
  shared-key rule, crashes, garbage collection, what each operation leaves, skill packages, memory and wiki
  write-back, chunked uploads.
- **Routing** (`Routing`, `RoutingEvaluator`): validation and reachability in the control plane, evaluation with
  its log in the gateway, and the agreement of the two.
- **Model client** (`BlockAssembly`, `RetryBudget`): SSE framing, block assembly, the two retry budgets.

Each state machine is a datatype of states and one of steps with `Enabled` and `Apply`; a run is a sequence of
steps. Where the program updates things in place there is a class with the same fields, whose methods are proved
to perform the steps or the scripts of the specification, and what those do to the fields is stated besides.
`Selections` says what it is to pick parts of a sequence in order. `dafny verify dfyconfig.toml` checks the project.

## Findings

Four things one would expect of the code hold only under a condition. For each the exact condition is
proved, for one step or for the whole computation, with a concrete run without it.

- Two sessions of one writer agent can both have a pod. A step leads there exactly when it interrupts, reconciles or
  takes a raced turn of a writer while one of its launch calls is between two database actions, in whatever phase,
  or interrupts or takes a raced turn of one that is still parked (`OrderlyIffExclusive`). The public API's
  interrupt does not un-park, so it needs no race for that (`ApiInterruptBreaksExclusion`); the console's does, and
  needs one (`InterruptBeforeGateBreaksExclusion`). Sessions of other agents may be interrupted at any time.
- A status report that is delivered again after the next turn has started deletes the checkpoint it stored
  (`CheckpointStaysRestorable`, `LateRedeliveryLosesCheckpoint`).
- The degraded compaction loop does not end on some histories, and two prompts whose model calls fail are enough
  to reach one (`DegradedTerminatesIff`, `FailedPromptsHang`).
- An upload's recorded hash is the object's exactly when every part's last write was recorded or carried the bytes
  last recorded (`RecordMatchesIff`); a retry with other bytes that dies between data and row makes it wrong
  (`DeadRetry`).

## Model

| member | source | states |
|---|---|---|
| `LaunchSafety.OneStartPerTurn` | control-plane/src/repo.ts:365-431 | over every run of every interleaving, messages that raced on the status included, two entries of the start history are never for the same session and turn |
| `LaunchSafety.TokensStayUnique` | control-plane/src/launch-gate.ts:79-130 | the supporting invariant: a launch is at most once among the calls in progress, the parked rows and the starts, and only if its turn was issued |
| `LaunchSafety.WriterExclusion` | control-plane/src/session-actions.ts:64-72 | in every state of every run whose steps on writers are orderly, two sessions of a writer agent are never both in flight past the gate, so at most one has a pod for its current turn |
| `LaunchSafety.QueuedWriterHasNoPod` | control-plane/src/repo.ts:449-484 | a session with a `wq:` row is in flight and has no pod for its current turn |
| `LaunchSafety.StepKeepsInvariant` | control-plane/src/session-actions.ts:54-109 | every orderly step keeps the invariant behind exclusion: a writer's launches belong to its current turn while it is in flight, grants are for issued turns, one writer writes |
| `LaunchExclusion.OrderlyIffExclusive` | control-plane/src/agents-api.ts:991-1008 | from any state that orderly runs keep to, a step is orderly exactly when no orderly continuation ends with two pods of one writer agent: so an interrupt of a writer is safe exactly when it is not parked and none of its launch calls is in progress |
| `LaunchSafety.FreeSlotIsReleased` | control-plane/src/repo.ts:461-484 | when the slot is free and somebody waits, a release is enabled and takes the one waiting longest |
| `LaunchSafety.ServedInOrder` | control-plane/src/repo.ts:461-484 | over every run, while a session waits that was parked for the slot earlier, one parked later is not released |
| `LaunchSafety.InterruptBeforeGateBreaksExclusion` | control-plane/src/agents-api.ts:991-1008 | a run with an interrupt before the session's own gate that ends with two pods of one writer agent |
| `LaunchSafety.ApiInterruptBreaksExclusion` | control-plane/src/public-api.ts:682-695 | a run that ends so and interrupts a parked session at a moment when no launch call is in progress |
| `LaunchStore.ControlPlane.StartTurn` | control-plane/src/repo.ts:365-385 | a message is accepted exactly when the status read before was idle or failed; the increment adds one turn and queues the session whatever its status has become |
| `LaunchStore.ControlPlane.WriterSlotHeld` | control-plane/src/repo.ts:449-456 | the scan of the sessions finds a holder exactly when another unparked in-flight session of the agent exists |
| `LaunchStore.ControlPlane.GatedLaunch` | control-plane/src/session-actions.ts:54-109 | a launch runs the gates in order and ends in one of four ways: a row for the agent's slot exactly when another session holds it; a row for the deployment; this one start and nothing else; or the session failed without row or start |
| `LaunchStore.ControlPlane.TakePendingLaunches` | control-plane/src/repo.ts:414-422 | all rows of a model are claimed and removed at once, others stay |
| `LaunchStore.ControlPlane.ReleasePendingForModel` | control-plane/src/launch-gate.ts:80-94 | the starts added are exactly the launches parked on the model, each once, its rows are gone, and exactly the sessions whose start throws become failed |
| `LaunchStore.ControlPlane.FailPendingForModel` | control-plane/src/launch-gate.ts:71-74 | exactly the sessions parked on the model become failed, and nothing is started |
| `LaunchStore.ControlPlane.SweepPendingLaunches` | control-plane/src/launch-gate.ts:96-130 | over the whole list, exactly what was parked on models to release is started, exactly the sessions parked on models to fail, or whose start throws, become failed, and only those rows go |
| `LaunchStore.ControlPlane.SweepWriterQueues` | control-plane/src/writer-queue.ts:38-45 | a run made of one release per listed agent, each where the ones before have left off: a claim with its start, or nothing, and then no claim of the agent was enabled |
| `LaunchStore.SweepReleasesTheDue` | control-plane/src/writer-queue.ts:38-45 | of distinct agents a sweep releases exactly those whose slot was free and whose queue was not empty when it began, whatever the order |
| `LaunchStore.QueuesStayOwn` | control-plane/src/session-actions.ts:64-72 | what that asks of the state holds in every run: who waits for an agent's slot is a session of that agent |
| `LaunchStore.ControlPlane.TakeNextWriterLaunch` | control-plane/src/repo.ts:461-484 | takes the longest waiting session of the agent, and nothing exactly when the slot is held or nobody waits |
| `LaunchStore.ControlPlane.ReleaseWriterQueue` | control-plane/src/writer-queue.ts:14-36 | one parked session loses its row and is started, and failed when that throws; or nothing happens and no claim was enabled |
| `LaunchStore.ControlPlane.StatusPost` | control-plane/src/repo.ts:332-363 | a report sets the session's status exactly when its turn is not older than the session's |
| `LaunchStore.ControlPlane.RunnerReports` | control-plane/src/repo.ts:312-320 | a runner's event makes a queued session running and changes no other |
| `LaunchStore.ControlPlane.LockSession` | control-plane/src/session-actions.ts:360-364 | a child that its parent closes becomes completed |
| `LaunchStore.ControlPlane.InterruptSession` | control-plane/src/agents-api.ts:991-1008 | the console's interrupt is two steps, un-parking the session and making it idle |
| `LaunchStore.ControlPlane.ApiInterruptSession` | control-plane/src/public-api.ts:682-695 | the public API's interrupt is the second alone; a parked row stays |
| `LaunchStore.ControlPlane.SweepZombieSessions` | control-plane/src/reconciler.ts:39-67 | exactly the in-flight, unparked sessions whose job is lost become failed |
| `Checkpoints.SessionStore.StatusCallback` | control-plane/src/agents-api.ts:1047-1076 | a report not older than the session stores its status, and its sdk id and checkpoint where it has them; an older one stores nothing; the file reclaimed is the one replaced or the one a rejected report carried |
| `Checkpoints.StaleReportsDoNotMatter` | control-plane/src/repo.ts:332-363 | striking every delivery of an older turn's report out of any run leaves a run that ends with the same status, turn, checkpoint, sdk id and producer |
| `Checkpoints.SameTurnRedeliveryIsIdempotent` | control-plane/src/repo.ts:332-363 | an applied report delivered again within its turn changes nothing and deletes nothing |
| `Checkpoints.ProducerNeverDecreases` | control-plane/src/agents-api.ts:1047-1076 | over every run, the turn that produced the stored checkpoint never decreases |
| `Checkpoints.CheckpointStaysRestorable` | control-plane/src/agents-api.ts:1047-1076 | in any run the stored checkpoint's file exists and is not about to be deleted at every moment exactly when no delivery is a rejected report that names the checkpoint stored just then |
| `Checkpoints.DeliveryKeepsRestorableIff` | control-plane/src/agents-api.ts:1059-1071 | a delivery keeps it so exactly when it is not a rejected report naming the stored checkpoint |
| `Checkpoints.LateRedeliveryLosesCheckpoint` | control-plane/src/agents-api.ts:1064-1071 | a run with a late redelivery in which the stored checkpoint's file is gone |
| `CostLedger.ComputeAccruals` | control-plane/src/costs.ts:180-259 | the loops over deployments and turns append exactly the specified entries and tally each session's billed sum |
| `CostLedger.AccrualsWellFormed` | control-plane/src/costs.ts:160-259 | every entry has 0, 60 or 120 seconds, starts no earlier than its subject's watermark, carries a non-negative amount on the one side its kind names, and has zero seconds only when a deployment is first seen |
| `CostLedger.DeploymentCharges` | control-plane/src/costs.ts:195-231 | a deployment that is due has a real entry exactly when pool costs are tracked and the first price row of its pool has a pod price, a billed one exactly when deployments are billed and its own first row has one; each costs the price's amount per unit, per replica, for its seconds |
| `CostLedger.DeploymentSpans` | control-plane/src/costs.ts:199-231 | its entries start at the watermark and take 60 s after one minute and 120 s after two or more; the first sighting plants entries of no length at the present |
| `CostLedger.TurnCharges` | control-plane/src/costs.ts:233-257 | a turn that is due has a real entry exactly when environment costs are tracked and its environment's first price row has a pod price, a billed one exactly when session time is billed and that row has a session price, at these prices |
| `CostLedger.TurnSpans` | control-plane/src/costs.ts:165-178 | its entries start at the later of paid-through and the pod's start, and take the whole minutes passed, or on a settle those started, two at most |
| `CostLedger.AccrualsAreAll` | control-plane/src/costs.ts:180-259 | the entries are those of every deployment and every turn observed, and no others |
| `CostLedger.WatermarkIsLatest` | control-plane/src/repo.ts:2016-2029 | a subject's watermark is the greatest timestamp of its entries |
| `CostLedger.CostIsProduct` | control-plane/src/costs.ts:138-146 | an amount times the 60, 3600, 86400, 2592000 or 31536000 seconds of the price's unit is the price's amount times replicas times seconds; a negative price or an unknown unit costs nothing |
| `CostLedger.CostStore.RunAccrual` | control-plane/src/cost-sampler.ts:33-42 | one accrual extends the ledger by the specified entries, keeping each session's billed total equal to the ledger's session-time sum |
| `CostLedger.CostStore.AddSession` | control-plane/src/repo.ts:260-271 | a new session's row starts at nothing billed, which is what the ledger says of it |
| `CostRuns.NoDoubleBillingOverRuns` | control-plane/src/costs.ts:172-258 | over any run of serialized ticks and settles, any clock and settings, spans of one subject and kind are disjoint and none exceeds 120 s |
| `CostRuns.InstantBilledOnce` | control-plane/src/cost-sampler.ts:33-53 | no instant lies in two entries of one subject and kind |
| `CostRuns.GuardLosesNothing` | control-plane/src/cost-sampler.ts:26-42 | when no time-based toggle is on, the computation that is skipped would have produced no entry |
| `CostRuns.AccrueMovesPaidThrough` | control-plane/src/costs.ts:233-257 | what one accrual bills a turn is exactly how far its paid-through mark moves |
| `CostRuns.TicksLeaveLessThanAMinute` | control-plane/src/costs.ts:165-178 | after any run in which the ticks that list the session are at most the gap cap apart, whatever ticks and settles of others come in between, whole minutes from the anchor are billed and less than 60 s is unbilled |
| `CostRuns.SettleBillsStartedMinutes` | control-plane/src/costs.ts:165-178 | after such a run a settle brings the bill to the started minutes from anchor to end, exactly when the time since paid-through fits the gap cap |
| `CostRuns.StartedMinuteExact` | control-plane/src/costs.ts:233-257 | with gaps of at most 120 s and a settle within 60 s of the session's last tick, the total is 60 times the started minutes, whatever the tick schedule and whatever is accrued for others in between |
| `CostRuns.PaidTimeIsNotBilledAgain` | control-plane/src/costs.ts:236-241 | an accrual at or before paid-through adds no entry for the session |
| `CostRuns.SettleTwiceAddsNothing` | control-plane/src/cost-sampler.ts:90-104 | a settle repeated at any time up to paid-through adds nothing |
| `CostBuckets.SpreadCostEntries` | control-plane/src/costs.ts:263-285 | the arrays filled by the first-to-last index loop equal the simple definition over all buckets |
| `CostBuckets.IndexBrackets` | control-plane/src/costs.ts:273-274 | a point lies in the bucket its floored index names |
| `CostBuckets.SpansAndBuckets` | control-plane/src/costs.ts:268-277 | an entry's span ends at its timestamp and is its seconds long, a millisecond at least; the buckets lie one behind the other from the chart's start |
| `CostBuckets.OutsideIsEmpty` | control-plane/src/costs.ts:273-278 | a bucket outside the first-to-last range has no share of the entry |
| `CostBuckets.SpreadingIsExact` | control-plane/src/costs.ts:263-285 | summed over the buckets, each entry contributes its cost times the share of its span inside the window |
| `CostBuckets.InsideIsConserved` | control-plane/src/costs.ts:263-285 | entries inside the window are conserved in full |
| `Transcript.ReplyAndResultsPair` | session-runner/devproof_runner/query.py:47-71 | a serialized reply carries exactly its tool uses, and the results message answers exactly those ids in order |
| `Transcript.ReplySays` | session-runner/devproof_runner/query.py:47-60 | the blocks of a serialized reply are, in order and one for one, its texts that are not empty and its tool uses with id, name and input; it says there was no output exactly when there are none |
| `Transcript.ResultsSay` | session-runner/devproof_runner/query.py:63-71 | result i has the id of tool use i and output i with its error flag: unchanged if structured or no longer than the window, and otherwise its first `window` characters and a mark |
| `Transcript.ToolUsesAre` | session-runner/devproof_runner/query.py:269 | the tool uses of a reply are exactly its tool-use blocks, in order |
| `Transcript.Textified` | session-runner/devproof_runner/query.py:74-102 | the rewritten history has text blocks only, message for message and block for block, and keeps text as it is |
| `Transcript.TextifiedSays` | session-runner/devproof_runner/query.py:74-102 | of a tool call its name and the first 500 characters of its input are left, of a result the first 1000 of its text or JSON, of an image nothing |
| `Transcript.SummaryIsKept` | session-runner/devproof_runner/compact.py:76-79 | a compacted history is one plain user message with the summary in it |
| `Transcript.DropOldest` | session-runner/devproof_runner/compact.py:95-104 | the popping loop yields the note and the aligned younger half |
| `Transcript.DropOldestShape` | session-runner/devproof_runner/compact.py:95-104 | the note plus a suffix from a plain user message; shorter from four messages on, and at three exactly when the second is not a plain user message |
| `Transcript.DropOldestKeepsValid` | session-runner/devproof_runner/compact.py:95-104 | dropping keeps a transcript paired and headed by a plain user message |
| `Transcript.AppendTurn` | session-runner/devproof_runner/query.py:276-292 | appending a reply with all its results keeps a transcript paired |
| `AgentLoop.DegradedTerminatesIff` | session-runner/devproof_runner/query.py:226-233 | some number of drops makes the history fit exactly when it fits, or its second-to-last message is not a plain user message, or the note and the last two messages fit |
| `AgentLoop.PlainPairIsFixedPoint` | session-runner/devproof_runner/compact.py:95-104 | the note, a plain user message and one more are left unchanged by any number of drops |
| `AgentLoop.DegradedCompact` | session-runner/devproof_runner/query.py:226-233 | under that condition the loop ends with a history that fits, and keeps it paired |
| `AgentLoop.FailedPromptsHang` | session-runner/devproof_runner/query.py:209-252 | two prompts whose model calls fail leave a history on which a third, with the summary call failing too, never ends |
| `AgentLoop.QueryIsSound` | session-runner/devproof_runner/query.py:193-292 | whatever model and tools answer, every save is paired, every request with tools carries a paired transcript, every request without tools carries no tool block |
| `AgentLoop.FileStaysPaired` | session-runner/devproof_runner/session.py:28-52 | over any number of runner lives, each cut off after any event and each resuming from the file, the transcript file stays paired |
| `AgentLoop.AgentSession.Compact` | session-runner/devproof_runner/query.py:213-236 | a full history is asked to be summarized without tools, replaced and saved, or left alone when the loop hangs |
| `AgentLoop.AgentSession.RunRound` | session-runner/devproof_runner/query.py:209-292 | one round makes exactly the requests and saves of the specification, with the length counted on append equal to a full recount |
| `AgentLoop.RequestFits` | session-runner/devproof_runner/query.py:213-237 | the model is asked with the history as it is when that is at most 80% of the window by estimate or has two messages at most; otherwise it is compacted first, and what is asked with then fits |
| `AgentLoop.SummaryReplaces` | session-runner/devproof_runner/query.py:222-224 | a summary, or a note that there is none, takes the place of the whole history |
| `AgentLoop.AnsweredSays` | session-runner/devproof_runner/query.py:268-292 | an answered round adds the reply block for block and, with tool calls, one message that gives each call its own output |
| `AgentLoop.MintedKeeps` | session-runner/devproof_runner/query.py:270-274 | only a tool use without an id gets one, and nothing else changes |
| `AgentLoop.AgentSession.Query` | session-runner/devproof_runner/query.py:139-303 | the loop performs the specified requests and saves and leaves the file of the last save; its outcome is the one the last event tells (a final answer saved, results or the prompt saved, a request or a summary request left unanswered), and the turns are the replies received, at most max_turns |
| `EventLog.AppendKeepsLog` | control-plane/src/repo.ts:273-330 | any batch only extends the log, keeps it numbered 1..n and each uid single |
| `EventLog.AppendAdds` | control-plane/src/repo.ts:278-330 | a batch adds, in order and numbered on, exactly its events without a uid or with one the log does not hold, or nothing when two of those share one |
| `EventLog.RepostIsIgnored` | control-plane/src/repo.ts:278-291 | a batch posted again changes nothing, and after it every one of its uids is in the log |
| `EventLog.EventTable.AppendEvents` | control-plane/src/repo.ts:273-330 | the insert loop appends the unseen events in order, or rolls back exactly when two of them share a uid; a runner event makes a queued session running |
| `EventLog.EventTable.Emit` | session-runner/runner.py:501-520 | of four attempts, an event that reaches the server at all is logged once; the post returns exactly when one attempt is acknowledged, and then the event is in the log |
| `EventLog.EmitsAppearOnceInOrder` | session-runner/runner.py:751-759 | over every interleaving of posts, delayed and repeated deliveries and any events of the control plane or other pods, the log is gap-free with single uids, and emits that returned stand in emit order |
| `EventStream.StreamSession` | control-plane/src/session-sse.ts:25-113 | the frames written are those of the specification: per poll the rows after the cursor and a changed status, then `end`, or a keep-alive when nothing has been notified meanwhile |
| `EventStream.WrittenRuns` | control-plane/src/session-sse.ts:64-99 | the rows among those frames are a contiguous run of the log after the cursor, and reach as far as every poll served saw |
| `EventStream.EndIffTerminal` | control-plane/src/session-sse.ts:81-99 | `end` is written exactly when a poll reads a terminal status, and nothing after it |
| `EventStream.StatusesAreChanges` | control-plane/src/session-sse.ts:66-99 | a status frame is written exactly where what it shows differs from the poll before |
| `EventStream.Read` | python-client/devproof/resources.py:324-344 | the reader yields every row of every connection read, in order, asks from the greatest number seen, and stops exactly at the first connection that ends the response or is one failure too many |
| `EventStream.GivesUpIff` | python-client/devproof/resources.py:339-343 | it gives up exactly after six breaks in a row of which the last five brought neither a row nor a status |
| `EventStream.ReaderYieldsARun` | python-client/devproof/resources.py:324-344 | end to end: wherever the lines break, the rows yielded are a contiguous, duplicate-free run of the log from the start cursor, and when a response ends they reach what the server saw |
| `FileRows.NoRowEverDangles` | control-plane/src/repo.ts:628-657 | over any run of uploads, replacements, write-back callbacks, deletions of files, entries and whole stores, skill packages, checkpoint moves and collections, each crashing after any write, every row's object is in the store |
| `FileRows.CrashAnywhereIsSound` | control-plane/src/agents-api.ts:226-280 | any prefix of a safe script of writes leaves a sound world |
| `FileRows.ScriptIsSafe` | control-plane/src/repo.ts:646-657 | every operation's script is safe: objects before rows, rows before objects, and an object only when no row claims it |
| `FileRows.PurgePurges` | control-plane/src/repo.ts:646-657 | a purge removes exactly the rows named that no foreign key holds, each object exactly when no row claims it any more, and nothing else |
| `FileRows.CollectIsExact` | control-plane/src/maintenance.ts:182-207 | an uncrashed collection keeps exactly the rows in use, those created at or after the cutoff and those a foreign key holds, with their objects, where in use means a checkpoint its own session stores, a file of a skill's manifest, a file an entry of its kind holds, an upload or an output; every older object left is claimed |
| `FileRows.StoreSkillReplaces` | control-plane/src/skill-upload.ts:77-104 | after an uncrashed upload every file has its row and its own content, the manifest lists them, the old version is gone, and no new object was purged with it |
| `FileEffects.MainFile` | control-plane/src/repo.ts:1150-1151 | a package's main file is its first SKILL.md in whatever case, or its first file when it has none |
| `FileEffects.EntrySaved` | control-plane/src/agents-api.ts:631-655 | saving an entry points it at a new row with the content; the file held before goes unless something else holds it |
| `FileEffects.EntryRemoved` | control-plane/src/agents-api.ts:613-628 | removing an entry takes its file along, unless something else holds it, and its object with the last row of its key |
| `FileEffects.CheckpointMoved` | control-plane/src/agents-api.ts:1059-1071 | the session stores the new checkpoint, and the one before goes exactly when it is another file |
| `FileEffects.SessionDeleted` | control-plane/src/repo.ts:628-637 | a session goes with its own uploads, outputs, checkpoints and skill files, but not what it wrote to a memory or a wiki, and with each object no other row has; or nothing goes when a foreign key holds one of them |
| `FileEffects.SkillDeleted` | control-plane/src/repo.ts:1176-1183 | deleting a skill takes all files of its manifest along |
| `FileEffects.FileDeleted` | control-plane/src/repo.ts:639-657 | deleting a file takes its row unless a foreign key holds it, and its object with the last row of its key |
| `FileStore.FileService.DeleteFileRecordById` | control-plane/src/repo.ts:650-657 | the row goes unless a foreign key holds it, and the key comes back exactly when no other row has it |
| `FileStore.FileService.PurgeFiles` | control-plane/src/agents-api.ts:649-652 | the loop performs the purge script |
| `FileStore.FileService.Upload` | control-plane/src/agents-api.ts:226-240 | the object is put and then the row inserted |
| `FileStore.FileService.StoreSkillPackage` | control-plane/src/skill-upload.ts:77-104 | the loop of puts and inserts, the manifest swap and the purge perform the script of a package upload |
| `FileStore.FileService.DeleteSessionFully` | control-plane/src/session-delete.ts:14-19 | the session's own rows and the session go, or nothing when a foreign key holds one of them, and then the objects no row claims |
| `FileStore.FileService.RunGc` | control-plane/src/maintenance.ts:182-207 | the two loops perform that collection, with the same rows and objects kept, and count the orphans and the objects removed |
| `WriteBack.SyncBack` | session-runner/runner.py:280-306 | one walk uploads exactly the paths that are new or changed against the staged hashes, with their contents, and deletes exactly the staged paths that are gone |
| `WriteBack.EntryTable.Upsert` | control-plane/src/repo.ts:724-744 | the loops perform the specified upsert and return the specified orphans |
| `WriteBack.OrphansAreExact` | control-plane/src/repo.ts:1117-1138 | for distinct paths and new ids, the orphans are exactly the ids held before and no longer |
| `WriteBack.SyncWritesTheDiff` | control-plane/src/agents-api.ts:691-703 | after uploads, upsert and purge, each changed path reads its new content, each deleted path reads nothing, every other path of any area reads as before, and no row dangles |
| `WriteBack.SyncYieldsPodTree` | session-runner/runner.py:352-380 | wherever the store still holds what was staged it comes to hold the pod's tree; a path neither staged nor written is untouched |
| `WriteBack.DisjointDiffsCommute` | control-plane/src/repo.ts:1117-1138 | two sessions' diffs that share no path may be applied in either order |
| `WriteBack.CallbackIsChange` | control-plane/src/agents-api.ts:691-703 | upserts and purge of a write-back are one operation of the file machine |
| `WriteBack.CallbackIsPosed` | control-plane/src/repo.ts:1117-1138 | after the uploads that operation meets the machine's conditions: every id it assigns has a row, and it purges only ids the table held or came to hold |
| `WriteBack.CrashedWriteBackIsSound` | session-runner/runner.py:352-380 | a write-back that dies after any write of any of its uploads or of the callback is a run of the file machine and leaves every row its object; one that does not die leaves what the diff says |
| `Uploads.ContiguousIff` | control-plane/src/public-api.ts:160-166 | the sorted-parts test passes exactly when the part numbers are 1..k, and then k is their count |
| `Uploads.UploadServer.PostPart` | control-plane/src/public-api.ts:143-157 | a part is refused outside 1..10000; otherwise its data is stored and then its row replaced |
| `Uploads.UploadServer.Complete` | control-plane/src/public-api.ts:159-178 | succeeds exactly when the recorded parts are 1..k; the object is the concatenation of the last data written per part, size and hash are those of the last data recorded |
| `Uploads.RecordMatchesIff` | control-plane/src/public-api.ts:143-178 | the recorded hash is the object's composite exactly when each part's last write was recorded or carried the bytes last recorded, and then the size is right too |
| `Uploads.DeadRetry` | control-plane/src/public-api.ts:143-178 | part 1 recorded with one content, sent again with another by a request that dies, completed: the object is the second, its record has size and hash of the first |
| `Uploads.CompositeDetects` | python-client/devproof/resources.py:58-61 | equal composites mean equal parts |
| `Uploads.UploadChunked` | python-client/devproof/resources.py:34-62 | the upload succeeds exactly when the file is not empty, has at most 10000 parts and no part is lost, however many attempts die on the server and are sent again; the object is then the file with its size and hash, the client's comparison never fails, and otherwise nothing is left |
| `Routing.ValidateRouting` | control-plane/src/routing-rules.ts:103-124 | no problem is reported exactly for a well-formed table; a condition reported is the first bad one |
| `Routing.ReachableTargets` | control-plane/src/routing-rules.ts:137-142 | the names listed are, each once, exactly the rule targets and a routing terminal's target |
| `Routing.ReachableLocalTargets` | control-plane/src/routing-rules.ts:126-131 | the names listed are, each once, exactly the reachable targets that are local deployments |
| `Routing.ModelPhase` | control-plane/src/main.ts:92-122 | the window cap is the least known window of a reachable target, and the routing is dead exactly when it has targets and none is live |
| `Routing.GateOnPhase` | control-plane/src/launch-gate.ts:53-59 | a local deployment launches exactly when ready, fails exactly when failed, and is waited for in any other phase |
| `RoutingEvaluator.EvaluateRouting` | helm-charts/files/custom_callbacks.py:517-626 | the verdict is the first match, the log is faithful and replays to the verdict, and no classifier is asked twice; with an unknown table the terminal stands |
| `RoutingEvaluator.CheckRule` | helm-charts/files/custom_callbacks.py:596-617 | a log entry holds the rule's conditions up to the first failure, an error counting as one |
| `RoutingEvaluator.SpendConditions` | helm-charts/files/custom_callbacks.py:550-563 | on a ledger that is kept, with the spend known, the two comparisons exclude each other at the threshold; otherwise neither holds |
| `RoutingEvaluator.TokenConditions` | helm-charts/files/custom_callbacks.py:564-569 | the same for token counts, on no ledger |
| `RoutingEvaluator.WindowsShareTheDay` | helm-charts/files/custom_callbacks.py:439-454 | at each minute of its days exactly one of a time window and its reverse holds; in an unknown zone neither does |
| `RoutingEvaluator.OtherConditions` | helm-charts/files/custom_callbacks.py:570-594 | estimate against limit, target external or Ready or Idle, dice against percentage, label among those wanted |
| `RoutingEvaluator.ChosenIsFirstMatch` | helm-charts/files/custom_callbacks.py:596-617 | rule k is chosen exactly when it is the least whose target exists and whose conditions all succeed |
| `RoutingEvaluator.TerminalIffNoMatch` | helm-charts/files/custom_callbacks.py:618-626 | the terminal decides exactly when no rule matches |
| `RoutingEvaluator.TerminalDecides` | helm-charts/files/custom_callbacks.py:536-626 | where no rule matches, the terminal rejects, routes to its target, or is unavailable when that is gone; with an unknown table it stands unchecked |
| `RoutingEvaluator.LogTellsVerdict` | helm-charts/files/custom_callbacks.py:596-626 | the verdict follows from the log, the terminal and the table alone |
| `RoutingEvaluator.RoutedTargetIsCovered` | control-plane/src/main.ts:92-122 | a validated routing lands only on a reachable target, and the session's cap is at most that target's known window |
| `RoutingEvaluator.GateFailsOnlyTheHopeless` | control-plane/src/launch-gate.ts:35-52 | a routing failed at the gate would route no request, when the loaded table agrees with the control plane |
| `RoutingEvaluator.GateLaunchesTheHopeful` | control-plane/src/launch-gate.ts:35-52 | where all conditions are met, a routing with targets routes exactly when the gate does not fail it |
| `RoutingEvaluator.UnknownTableRoutesTheDead` | helm-charts/files/custom_callbacks.py:536-547 | with an unknown table a dead routing does route |
| `BlockAssembly.Frames` | session-runner/devproof_runner/client.py:275-287 | the line loop dispatches exactly the data fields between blank lines |
| `BlockAssembly.FramingRoundTrip` | session-runner/devproof_runner/client.py:275-287 | payloads sent with a data line for each of their lines come back as they went in |
| `BlockAssembly.ParseStream` | session-runner/devproof_runner/client.py:269-324 | the mutable builders come to the drafts in start order, up to the event that ends the stream; an error event fails the reply |
| `BlockAssembly.ReplyFailsIff` | session-runner/devproof_runner/client.py:309-314 | a reply fails exactly when an error comes before any stop, and what follows the first of either does not count |
| `BlockAssembly.StartsAre` | session-runner/devproof_runner/client.py:297-300 | a block is listed under its start's index, or under the number of starts before it |
| `BlockAssembly.AssemblyIsFilterAndFold` | session-runner/devproof_runner/client.py:109-151 | with distinct start indices the content is, in start order, each block with its own deltas folded in, minus redacted and blank text blocks |
| `BlockAssembly.DraftHolds` | session-runner/devproof_runner/client.py:120-131 | after any deltas a draft has the start's text, thinking, signature and JSON, each followed by the deltas of its own kind in the order they came, and the start's kind, id and name |
| `BlockAssembly.ReplyHolds` | session-runner/devproof_runner/client.py:133-151 | the blocks of a reply are, in start order, one for each start except redacted blocks and texts blank in the end; each holds exactly those strings, and a tool use its id, name and decoded input, or the raw text when that is no object |
| `BlockAssembly.StripIs` | session-runner/devproof_runner/client.py:134 | stripping takes white space off both ends and all of it |
| `BlockAssembly.InterleavingIsIrrelevant` | session-runner/devproof_runner/client.py:291-324 | two streams that do not fail, with the same starts at distinct indices and the same deltas for each, parse through the shared drafts to the same reply |
| `BlockAssembly.SwapIsIrrelevant` | session-runner/devproof_runner/client.py:291-324 | in any stream, complete, broken off or failing, neighbouring deltas of different blocks may change places without changing the reply |
| `BlockAssembly.RepeatedStartLosesABlock` | session-runner/devproof_runner/client.py:297-300 | a second start at one index replaces the first block |
| `RetryBudget.Create` | session-runner/devproof_runner/client.py:176-244 | the call waits exactly while there are fewer than four bounded failures and every patient one is before the deadline; otherwise it ends as the one attempt says that comes after such failures and is a reply, fatal, the fourth bounded one, or patient at or after the deadline |
| `RetryBudget.OngoingIff` | session-runner/devproof_runner/client.py:188-244 | a call still waits exactly with fewer than four bounded failures and every patient one before the deadline |
| `RetryBudget.BoundedEndsAtFourth` | session-runner/devproof_runner/client.py:238-244 | a bounded failure ends the call exactly when it is the fourth, however many patient ones are interleaved |
| `RetryBudget.BudgetsAreApart` | session-runner/devproof_runner/client.py:188-244 | a call waits exactly when it would without its patient failures and each of those came before the deadline |
| `RetryBudget.AttemptsAreBounded` | session-runner/devproof_runner/client.py:184-190 | if each patient failure moves the clock by at least d, fewer than 1800 s / d of them and at most three others precede the end |

## Left out

- The console, Helm values, Kubernetes and S3 clients, the operator, HTTP plumbing and MCP transport: wrappers without state of their own.
- SQL text, JSON encoding, tar and hashing: tables are maps and sequences, one statement or transaction is one step, hashes are injective parameters.
- Clocks, dice, spend and usage queries, classifiers, model and tool answers, network losses: parameters of the functions and methods.
- `LaunchSafety.WriterExclusion`: assumes orderly steps on writer sessions (see Findings; the assumption is exact for this machine). Deletion of a session and the completion of a delegated child are not steps of the machine, and the gate's check is one step, although it does not take the advisory lock that a release takes.
- `LaunchStore.ControlPlane.StartTurn`: the status read before is a parameter; the machine does not keep who has read what, so every message may be one that raced another.
- `LaunchStore.ControlPlane.StatusPost`: reports come from a started pod and carry its turn; reports without a turn are modelled in `Checkpoints.SessionStore` only.
- `Checkpoints.CheckpointStaysRestorable`: a pod uploads one checkpoint, and its reports name only that one.
- Delegation, subagents and their interrupts, webhooks, and the wiki mounts re-resolved on release: the launch they lead to is modelled, their own bookkeeping is not.
- `CostLedger.WatermarkIsLatest`: the maximum over the whole ledger; the one-day bound of the query is dropped.
- `CostLedger.ComputeAccruals`: time costs only, with prices already validated; token costs come from the gateway's trigger. Money is real, not floating point.
- `CostBuckets.SpreadCostEntries`: over reals; rounding of the chart's floating point is not modelled.
- `Transcript.Textified`: content is always a list of text, tool use and tool result blocks, as the loop itself produces it; the JSON of a tool input or of a structured result is a string, and an image result is known by a flag.
- `AgentLoop.AgentSession.Query`: the serialized length of a message is a parameter, as is the wording of the summary request; 80% of the window is exact arithmetic, token counts, usage and yielded markers are not tracked. An endless degraded loop is an outcome, since a Dafny method must end.
- `EventLog.EventTable.Emit`: an emit is one event, as in the runner; notification of readers is not modelled.
- `EventStream.StreamSession`: the fields of a status frame besides the status are one string, and the console's ping counts as a keep-alive; that every event comes before `end` is not claimed, because events are listed before the status is read.
- `EventStream.Read`: the result is the rows yielded; the status markers between them are not part of it, and the waits before reconnecting are not modelled.
- `FileRows.NoRowEverDangles`: operations run one at a time; deletions of objects do not fail on their own. A chunked upload's parts are in `Uploads` only. The deletion of a whole store drops its entries and purges their files; the store's own record is not modelled.
- `FileRows.CollectIsExact`: the listing of the store is as of the moment the orphans have been purged, or any earlier one that has every key.
- `WriteBack.SyncBack`: staged paths are those the runner accepts, under their own names; a page missing at staging is simply not staged. The walk is any order of the pod's paths.
- `WriteBack.SyncWritesTheDiff`: uploaded ids belong to the session's workspace and are keyed by the path they are for, as the upload route keys them.
- `Uploads.UploadServer.Complete`: the local store; that the parts and the object of an S3 upload behave alike is S3's affair.
- `Uploads.UploadChunked`: which parts are lost and how often a part's request dies on the server are parameters; that the client's own request layer is what sends a part again is not modelled.
- `Routing.ValidateRouting`: a typed table, so the tests for malformed JSON disappear; scopes of spend conditions are not modelled, since spend is a parameter.
- `RoutingEvaluator.EvaluateRouting`: the values shown in the log are reduced to whether each condition held; waking an idle classifier and the caches' expiry are not modelled.
- `BlockAssembly.ParseStream`: payloads are already decoded, `[DONE]` is the stop event, and usage, stop reason and the time to the first frame are not tracked. White space is that of ASCII. The program's comment keeps an empty text that is the whole response; its code drops it, and so does the model.
- `RetryBudget.Create`: the delays before retries appear as the clock readings of the attempts; how long each sleep is, and the wait reported afterwards, are not modelled.
- API keys, egress rules, vaults, limits, appearance, cron and name rules: single functions or outside the subject.
