# Takeoff pipeline and agent harness: a verified model

This project models the parts of the repository whose correctness depends on several
functions or several processes agreeing, and proves what they promise for all inputs, all
runs and all interleavings.

* **Scatter-gather takeoff.** A drawings file is cut into page windows that each hold a
  bounded number of candidate pages. Workers extract the windows in any order, with failures
  and retries; an atomic counter triggers one reduce, which deduplicates the partial lists.
  `Planner`, `Extraction`, `Dedup`, `ShardProtocol` and `Orchestrator` prove that the result is the
  serial item list, that the reduce runs once, and what is lost when shards die.
* **Agent transcript and loop.** `Messages`, `Context`, `Streaming`, `Plans` and `Registry` model
  the in-place edits of a conversation (turns, masking, summaries, repairs), the plan and the
  tool registry. `AgentRuns` says what a run of the bounded turn loop does as a function of its
  start and its environment and proves what every run keeps; `AgentLoop` is the loop itself,
  proved to do exactly that. Every request that goes out is free of orphaned tool results, and
  pairs each result with its call if the run started so.
* **Document layout.** `Segmenter` absorbs stray page runs in place and tiles a file into
  regions; `DoorRows` splits merged schedule rows; `AreaHarvest` binds printed area labels to
  rooms.
* **Service protocols.** `Ingestion` is dedupe-or-create under two partial unique indexes;
  `Subagents` is a batch of sub-agents under a semaphore, a spawn budget and a write gate.
* **Agreeing layers.** `PageCache` proves the shared page memo equal to separate opens;
  `QueryApi` and `Rollups` prove artifact, rows, paged queries and summary equal.

Page text, table parsing, mark grammars, whitespace, JSON parsing, token counting, distances,
rounding, model turns, tool effects, scheduling, storage failures and moments of cancellation
are arbitrary functions or arbitrary choices of the environment. Protocols are state machines whose steps
are the source's committed transactions; a class with the source's mutable fields performs
each step and is proved to make exactly the specified transition. Loops of the source are
loops here, proved against recursive specification functions, and the promises are lemmas
about those functions. `Sequences` holds shared vocabulary.

Check the whole project with `dafny verify dfyconfig.toml` (Dafny 4.11).

## Where the code and its promises differ

* The planner clamps a submitted page range to the file; the serial path does not and fails on
  the first page past the end. The sharded result therefore equals the serial *run* exactly
  when the range ends inside the file (`ShardedOutcome`, proved by `Orchestrator.RunJob`);
  `Orchestrator.PastTheEnd` is a job that differs.
* `keep_recent == 0` masks nothing, because a slice ending at -0 is empty
  (`Context.MaskedOlderExactly`, with the list of `Context.KeepNoResultMasksNothing`), and
  `keep_recent_turns == 0` indexes past every list of two messages or more
  (`Context.CutFailsExactly`, with the list of `Context.KeepNoTurnFails`).
* A response whose arguments are JSON but no object, such as `null`, has no assistant message:
  the turn raises with nothing committed (`AgentRuns.NoObjectRaises`,
  `AgentLoop.NullArgumentsRaise`), and the grace turn catches it
  (`AgentLoop.NullGraceIsCaught`).
* Calls stay unanswered in the transcript exactly when the turn the run stops on completes its
  stream with calls whose arguments are objects and one of them is cut off, or when the budget
  is spent and the grace turn's stream completes with such calls: `LeavesOpen`, in
  `AgentLoop.Arun`. A call is cut off when it is known, well-formed and valid, and the run is
  cancelled in it or something raises outside the handler around the tool. `GraceLeavesCalls`,
  `CancelledToolLeavesCalls` and `RaisingCheckLeavesCalls` are environments of all three kinds.
* A refused insert is deduped onto the row that refused it, except exactly when the key is
  empty (the look-up ignores it, the index does not) and no active job of this work is there
  (`Ingestion.RefusedNotFoundExactly`). Over runs, where rows change between the refusal and
  the second look-up, a submit re-raises exactly when by then nothing is left to find
  (`Ingestion.ReraisedExactly`; `Ingestion.EmptyKeyReraises` is a run that does).
* Reuse of an Idempotency-Key is reported exactly when a submit that inserted its own row used
  that non-empty key with other work (`Ingestion.ReuseReportedExactly`). A key deduped onto
  another submit's row is stored nowhere: `Ingestion.ForgottenKeyRun` uses one key for two
  works and both submits are accepted.
* The job a submit is given runs exactly when neither the upload nor the enqueue of the submit
  that created it failed (`Ingestion.RunsExactly`); a submit can be deduped onto a row that
  nobody enqueues (`Ingestion.StrandedTwinRun`).
* `max_parallel == 0` leaves a batch of sub-agents stuck; any positive value cannot
  (`Subagents.StuckExactly`; `Subagents.NoPermitsStuck` is such a batch).
* Segmenting raises a KeyError exactly when a manual region at an end, too short to stand alone,
  spans a page index that no page has (`Segmenter.SegmentFile`; `Segmenter.GapRaises` is such a
  file); with consecutive indices it never does (`Segmenter.ConsecutiveNeverFails`).
* Joining areas divides by zero exactly when `max_dist` is 0 and some kept label sits on
  a room token (`AreaHarvest.JoinAreas`; `AreaHarvest.ZeroDistanceFails` is such a page).

## Model

| member | source | states |
|---|---|---|
| Planner.PlanShardWindows | service/takeoff/planner.py:29-69 | Rejects a negative page total and a cap below one; otherwise the windows are non-empty, numbered from 0, tile the clamped range in order, count exactly their own distinct candidates (never more than the cap, and exactly the cap in all but the last), sum to all distinct in-range candidates, are a single window iff the candidates fit the cap, and else number floor(n/cap) plus one iff the last boundary is below the end |
| Planner.PlanUnique | service/takeoff/planner.py:29-69 | That promise leaves no freedom: two plans that satisfy it are equal |
| Planner.CutBoundaries | service/takeoff/planner.py:53-60 | Each boundary lies right after a full block of `cap` candidates and fewer than `cap` candidates remain behind the last one |
| Planner.WindowsBetween | service/takeoff/planner.py:62-69 | One window per full block plus one for a non-empty tail; a boundary on the end adds none; no candidate is counted twice or lost |
| Planner.CountIsCardinality | service/takeoff/planner.py:67 | The counting sum over the sorted list is the number of distinct candidate pages in the window |
| Extraction.ExtractScheduleItems | src/takeoff/quantity_schedules.py:151-187 | Fails exactly when a page past the file is asked for; else returns, in page, registry and row order, exactly the marked entries of the range's tables of shown schemas that no earlier entry of the same schedule and mark precedes, and opens tables on exactly the candidate pages, ascending |
| Extraction.FindCandidates | src/takeoff/quantity_schedules.py:164-171 | The text pass finds exactly the pages of the range that show some schema's title, each with exactly the schemas of the registry whose title it shows, in registry order and as often as listed |
| Extraction.MatchedExactly | src/takeoff/quantity_schedules.py:164-171 | The title gate is a filter of the registry: order and multiplicity stay, and it lets something through iff some title is shown |
| Extraction.SerialReads | src/takeoff/quantity_schedules.py:151-187 | The serial list, said of titles and tables alone: one item per first marked (schedule, mark) of the range, in page, registry and row order |
| Extraction.ScanTables | src/takeoff/quantity_schedules.py:173-187 | Reading only the candidate pages gives the same list as deduplicating every page of the range |
| Dedup.AbsorbList | service/takeoff/reduce.py:20-26 | Feeding a list through the seen set extends the deduplication of everything fed before by that list |
| Extraction.AbsorbPage | src/takeoff/quantity_schedules.py:178-186 | One page's tables, schema by schema, extend the global deduplication in order |
| Dedup.MergePartials | service/takeoff/reduce.py:17-27 | The reduce is the first-wins deduplication of the concatenated partials |
| Dedup.FirstWinsStep | service/takeoff/reduce.py:22-26 | An item is kept iff it has a mark and its (schedule, mark) was not fed before |
| Dedup.FirstWinsKeys | service/takeoff/reduce.py:17-27 | Deduplication loses no key and adds none |
| Dedup.FirstWinsDistinct | service/takeoff/reduce.py:9-12 | Every kept item carries a mark, comes from the input, and no key is kept twice |
| Dedup.FirstWinsPicks | service/takeoff/reduce.py:17-27 | The deduplicated list is the sub-list at exactly the positions of marked entries whose schedule and mark occur nowhere before |
| Dedup.DedupPrefix | service/takeoff/reduce.py:7-12 | Deduplicating a prefix first does not change the deduplication of the whole |
| Dedup.DedupSuffix | service/takeoff/reduce.py:7-12 | Deduplicating a suffix first does not change the deduplication of the whole |
| Extraction.MergeForgetsWindows | service/takeoff/reduce.py:3-12 | For any windows at all, per-window deduplication is invisible after the merge |
| Extraction.FanOutIsSerial | service/takeoff/planner.py:7-12 | Extracting each window of a tiling on its own and merging in window order gives exactly the serial item list over the range |
| Extraction.SurvivorKeys | service/jobs/orchestrator.py:188-197 | The merged survivors hold a key iff some page of a live window yields it |
| Extraction.DegradedKeys | service/jobs/orchestrator.py:188-210 | For any set of dead windows of a tiling, a key is missing from the merged list iff every page of the range that yields it lies in a dead window |
| Extraction.DegradedReads | service/jobs/orchestrator.py:188-210 | With any set of dead windows the merged list holds exactly the first marked entry of every (schedule, mark) on the pages outside them, in page, registry and row order |
| ShardProtocol.InitInv | service/jobs/orchestrator.py:95-112 | The rows as planned satisfy the protocol invariant |
| ShardProtocol.StepCounts | service/jobs/orchestrator.py:160-173 | Conservation per step: the counter equals the counted workers, and reduces enqueued plus workers about to enqueue one are one iff the counter is full, else none |
| ShardProtocol.StepRows | service/jobs/orchestrator.py:115-157 | Every step keeps every row consistent with its delivery: terminal rows within the retry budget, dead only with the budget used up, failed only with a delivery to come |
| ShardProtocol.StoreStep | service/jobs/orchestrator.py:126-132 | Every stored partial is the extraction of its own window, and every succeeded shard has one |
| ShardProtocol.StepKeepsInv | service/jobs/orchestrator.py:95-173 | Every worker step, failing or not, keeps the whole invariant |
| ShardProtocol.RunKeepsInv | service/jobs/orchestrator.py:95-173 | So does every interleaving of worker steps |
| ShardProtocol.ReduceIsSafe | service/jobs/orchestrator.py:160-173 | In every interleaving with any failures the reduce is enqueued at most once, only when the counter equals the shard count, and then every row is succeeded or dead |
| ShardProtocol.QuiescentMeansReturned | service/jobs/orchestrator.py:115-173 | No worker is ever stuck: a state with no enabled step has all workers returned, the counter full and one reduce enqueued |
| ShardProtocol.MapPhaseEnds | service/jobs/orchestrator.py:115-173 | When nothing is left to do the reduce was enqueued exactly once, every row is terminal, each shard was delivered exactly `attempts` times and within max(1, max_shard_attempts), and dead shards used every delivery |
| ShardProtocol.BeginsAreAttempts | service/jobs/orchestrator.py:117-122 | The attempts column equals the number of deliveries, in every run |
| ShardProtocol.RetryBudget | service/jobs/orchestrator.py:105-144 | At any moment of any run a shard has had at most max(1, max_shard_attempts) deliveries, is never dropped, and a failed shard always has a delivery to come |
| ShardProtocol.StepDecreases | service/jobs/orchestrator.py:105-157 | Retries left and unfinished work form a measure that every step decreases |
| ShardProtocol.RunsAreBounded | service/jobs/orchestrator.py:105-157 | A run plus what remains never exceeds the initial measure: every map phase is finite |
| ShardProtocol.RunLength | service/jobs/orchestrator.py:105-109 | A whole map phase takes at most shards times (4 times max(1, max_shard_attempts) plus 4) steps |
| Orchestrator.ShardedJob.constructor | service/jobs/orchestrator.py:95-103 | Creates one queued row per window with no message sent: the protocol's initial state |
| Orchestrator.ShardedJob.SendMessage | service/jobs/orchestrator.py:110-111 | Enqueues one run_shard message and nothing else |
| Orchestrator.ShardedJob.StartAttempt | service/jobs/orchestrator.py:117-124 | Marks the row running and counts the attempt, as the protocol's Begin step |
| Orchestrator.ShardedJob.ExtractAndUpload | service/jobs/orchestrator.py:126-133 | Stores exactly the extraction of the shard's window, or lands in the except branch with the partial possibly written |
| Orchestrator.ShardedJob.MarkShardSucceeded | service/jobs/orchestrator.py:150-154 | Marks the row succeeded with its partial key |
| Orchestrator.ShardedJob.MarkShardFailed | service/jobs/orchestrator.py:133-148 | Dead iff the attempt number reached the maximum, else failed and re-raised |
| Orchestrator.ShardedJob.AnswerRaise | service/jobs/orchestrator.py:105-111 | The queue redelivers while retries are left, else drops |
| Orchestrator.ShardedJob.RetryOrDrop | service/jobs/orchestrator.py:105-144 | In a valid job a shard that re-raises is always redelivered, never dropped |
| Orchestrator.ShardedJob.BumpCounter | service/jobs/orchestrator.py:164-170 | Increments the counter and reads back both values atomically |
| Orchestrator.ShardedJob.TripReduce | service/jobs/orchestrator.py:171-173 | Enqueues the reduce iff this worker read the full count |
| Orchestrator.ShardedJob.MapPhase | service/jobs/orchestrator.py:110-173 | Under any scheduler and any failures the map phase terminates with all rows terminal and exactly one reduce |
| Orchestrator.ShardedJob.ReadRows | service/jobs/orchestrator.py:184-194 | Reads the keys of exactly the live windows' partials and reports exactly the dead windows, both in shard order |
| Orchestrator.ShardedJob.LoadPartials | service/jobs/orchestrator.py:196 | The loaded partials are the live windows' own extractions |
| Orchestrator.ShardedJob.ReduceJob | service/jobs/orchestrator.py:176-210 | As soon as it is enqueued: merges the live windows, names the dead ones, counts the merged shards, and flags incomplete iff some shard is dead |
| Orchestrator.MergedOrFailed | service/jobs/orchestrator.py:188-194 | Every window is merged or reported failed and never both: together they are the plan |
| Orchestrator.FindCandidatePages | service/takeoff/pipeline_adapter.py:97-112 | The planner's candidates are exactly the pages the extractor would open |
| Orchestrator.RunJob | service/jobs/orchestrator.py:69-112 | From plan to artifact, for any page range and any scheduling: rejected iff the cap is below one, sharded iff the clamped range holds more candidates than the cap; a single window gives the serial run, which reads exactly the tables of the range; a sharded job delivers exactly the first marked entry of every (schedule, mark) on the pages outside the failed windows it names, hence the serial list without dead shards (and the serial run iff the range ends inside the file), and lacks exactly the keys seen only in failed page ranges; no worker reads the tables of more than cap pages |
| Orchestrator.ShardedIsRight | service/jobs/orchestrator.py:176-210 | The report of a sharded job over a right plan meets that outcome for every set of dead shards |
| Orchestrator.LostKeysAreDead | service/jobs/orchestrator.py:191-210 | No item with this schedule and mark is delivered iff every page of the range yielding one lies in a failed_shards page range |
| Orchestrator.PastTheEnd | service/takeoff/planner.py:44-51 | A two-page file asked for three pages: the job is sharded and delivers its list, the serial run fails |
| Messages.OwnerIsRunStart | src/harness/context/summarizer.py:54-59 | The owner of a message is the message before its unbroken run of result messages |
| Messages.AppendPlain | src/harness/messages.py:119-120 | Appending a message without results keeps every result tied to its call |
| Messages.AppendResult | src/harness/agent.py:237-238 | Appending the result of a call of the message the current run follows keeps every tie |
| Messages.ShapeKeepsPairing | src/harness/context/masking.py:35-47 | Rewriting only result contents keeps every pairing of calls and results, in both directions |
| Messages.CutKeepsPairing | src/harness/context/summarizer.py:54-59 | Replacing the messages before a cut by a summary keeps both directions of the pairing in everything that stays, whenever the message at the cut carries no result |
| Messages.LinkedHasNoOrphan | src/harness/context/masking.py:52-81 | A linked transcript has no result whose call is gone |
| Context.Transcript.CollectResults | src/harness/context/masking.py:18-22 | Finds every tool result, in conversation order |
| Context.Transcript.MaskOlderResults | src/harness/context/masking.py:9-49 | For keep_recent at least 1 every result older than the keep_recent most recent ones becomes the marker with its call and its size (an elided one stays as it is), the recent ones and every other block stay; for 0 the whole list stays; returns exactly the tokens the transcript lost and keeps all pairings |
| Context.MaskIdempotent | src/harness/context/masking.py:31-32 | Masking a second time changes nothing |
| Context.MaskedOlderExactly | src/harness/context/masking.py:24-28 | All but the most recent `keep` results end up elided iff keep is at least 1 or nothing was left to elide |
| Context.KeepNoResultMasksNothing | src/harness/context/masking.py:24-28 | A list with one full result that masking with keep_recent 0 leaves as it is |
| Context.Transcript.DropOrphanToolResults | src/harness/context/masking.py:52-81 | Returns the number of orphans, which is 0 iff there are none, and then leaves the list untouched; else filters every message down to what is no orphan and leaves, in order, exactly the messages that still hold a block; afterwards no orphan is left |
| Context.OrphansCounted | src/harness/context/masking.py:61-62 | The repair drops nothing iff the transcript holds no orphan |
| Context.RepairedHasNoOrphan | src/harness/context/masking.py:52-58 | After the repair no result lacks its call |
| Context.RepairedFilters | src/harness/context/masking.py:68-78 | The repair filters the blocks of every message and then the emptied messages, order and multiplicity included |
| Context.KeepConcat | src/harness/context/masking.py:69-71 | The repair works block by block: order and multiplicity of kept blocks stay |
| Context.RepairedConcat | src/harness/context/masking.py:68-78 | The repair works message by message |
| Context.SnapCut | src/harness/context/summarizer.py:52-59 | The cut is the last position at or before the requested one that carries no result, or 1 |
| Context.Transcript.SummarizePrefix | src/harness/context/summarizer.py:41-99 | Does nothing when there is nothing to summarize, fails on keep 0 or a raising provider without touching the list; else keeps the first message and everything from the snapped cut and puts between them one user message that names the number of turns replaced and carries the reply, or a placeholder for an empty one; keeps all pairings |
| Context.CutFailsExactly | src/harness/context/summarizer.py:45-55 | The cut fails iff keep_recent_turns is 0 and the list has at least two messages |
| Context.KeepNoTurnFails | src/harness/context/summarizer.py:48-55 | A list of two messages on which it fails |
| Context.CompactIfNeeded | src/harness/context/compactor.py:37-70 | Touches nothing unless the zone is red; masks first, eliding exactly the older results, summarizes only if that left it red, reports exactly the tokens freed and the turns replaced, raises exactly when that summarization does, and keeps all pairings |
| Context.CompactionRaisesExactly | src/harness/context/compactor.py:43-62 | A compaction raises iff the list is red before and after masking, longer than the turns to keep, and no turn is to be kept or the provider fails on a non-empty prefix |
| Context.CompactionKeepsPairing | src/harness/context/compactor.py:37-70 | Whatever the zone, the provider and the limits: no compaction breaks a pairing of calls and results |
| Streaming.Accumulate | src/harness/providers/base.py:83-176 | The calls are the distinct resolved ids in first-seen order, each with the name of its latest start and, as arguments, what the fragments resolved to it parse to when joined in arrival order: none for no text, an object, a malformed buffer, or JSON that is no object; exactly one of is_final and is_tool_call holds |
| Streaming.RunIsReference | src/harness/providers/base.py:103-131 | The loop's dictionary and order list equal the reference reading of the stream, for all event sequences |
| Streaming.ResolutionRule | src/harness/providers/base.py:109-131 | An event belongs to its own id when that is neither missing nor empty, else (a fragment) to the call opened last, else to "_orphan_" and the number of ids made up before it |
| Streaming.OrphanIdsDiffer | src/harness/providers/base.py:109-131 | Made-up ids of different numbers differ |
| Streaming.FragmentsConserved | src/harness/providers/base.py:119-131 | All buffers together are as long as all fragments received: nothing is dropped or doubled |
| Streaming.SwapDeltas | src/harness/providers/base.py:119-131 | Swapping adjacent fragments resolved to two different calls already open changes nothing, whatever follows, whether a fragment names its call or falls back to the one opened last |
| Streaming.ResponseOf | src/harness/providers/base.py:44-50 | Exactly one of is_final and is_tool_call holds of an accumulated response |
| Streaming.CommittedCalls | src/harness/messages.py:84-111 | There is an assistant message to commit iff every call's arguments make a dict; it holds one block of reasoning if there is any and then exactly the calls, each with its id, name and arguments, in order, or the text if there are none, and no result |
| Plans.ReadyIsProven | src/harness/plans/model.py:44-51 | With evidence on record, ready-to-finalize holds iff every step is blocked or done with non-empty evidence and every postcondition is verified with non-empty evidence |
| Plans.StatusWords | src/harness/plans/model.py:10-14 | A status word names its status, and no other word names one |
| Plans.PlanHolder.PlanCreate | src/harness/plans/tools.py:24-45 | Replaces the plan; nothing in it is done or verified, so it is ready only when empty |
| Plans.PlanHolder.StepUpdate | src/harness/plans/tools.py:58-85 | Refuses a missing plan, a number out of range, an unknown status and done without evidence; else changes exactly that step; evidence stays on record for all done steps |
| Plans.PlanHolder.PostconditionVerify | src/harness/plans/tools.py:88-107 | Refuses a missing plan, a number out of range and empty evidence; else verifies exactly that postcondition |
| Registry.GuardFiresExactly | src/harness/tools/registry.py:182-205 | The loop guard fires iff the two calls recorded before were the same call with the same arguments |
| Registry.ReachedExactly | src/harness/tools/registry.py:54-124 | A tool runs iff the call is known, valid, allowed and not halted and the two calls recorded last are not both this name with these arguments |
| Registry.RecordedExactly | src/harness/tools/registry.py:182-188 | A call that passes the checks is recorded under its name and arguments, behind at most the ninety-nine recorded last; no other is |
| Registry.ToolRegistry.Dispatch | src/harness/tools/registry.py:54-124 | A call ends without a result iff it is known, well-formed, valid and the run is cancelled in it or a check raises outside the handler; every other call gets one result for its own id; the tool runs iff the call is also allowed and not looping; history grows exactly by the calls that reach the guard, and the plan changes exactly by the effect of a plan tool that ran |
| Registry.EffectKeepsBacked | src/harness/plans/tools.py:58-107 | No plan tool leaves a done step or a verified postcondition without evidence |
| AgentRuns.ResponseIsReference | src/harness/providers/base.py:136-176 | The response a completed stream is accumulated to has the calls and the text the stream reads as |
| AgentRuns.VerdictRule | src/harness/agent.py:112-240 | A pass stops for its reasons exactly when its turn gives them: deadline, a raising compaction, a cancelled or raising stream, arguments that are no objects, a call cut off, a plan with an unfinished step or an unverified postcondition after two nudges, a text of nothing but whitespace, a text; else it goes on |
| AgentRuns.CutStopsExactly | src/harness/agent.py:228-240 | A pass that leaves calls open stops for the reason of its first cut-off call, and no other pass stops as cancelled in a tool |
| AgentRuns.NoObjectRaises | src/harness/messages.py:103-106 | A completed stream with arguments that are no object ends the run with an exception and nothing committed |
| AgentRuns.PassLeaves | src/harness/agent.py:157-240 | Behind its request a pass leaves, read off its stream: the joined text marked as interrupted when cancelled with any, nothing when it raises, else the response's own message followed by one user message per call up to the first cut off, or by the nudge when the plan has open work and nudges are left |
| AgentRuns.BatchIsSound | src/harness/agent.py:228-240 | A committed batch dispatched up to any call keeps every result tied to its call, and every call answered iff no call is missing |
| AgentRuns.RequestIsSound | src/harness/agent.py:327-344 | No request carries an orphan; on a linked transcript the repair drops nothing and the request is paired as the run began |
| AgentRuns.PassIsSound | src/harness/agent.py:112-240 | One pass keeps pairing, nudge budget and plan evidence, and leaves calls unanswered iff its turn cuts one off |
| AgentRuns.PassStands | src/harness/agent.py:180-226 | An answer is a non-blank text and comes with a plan proven complete, so does an empty response; an open plan ends a run only with the nudges spent |
| AgentRuns.EndIsUnique | src/harness/agent.py:112-276 | A start and an environment fix where a run ends |
| AgentRuns.SendsAreSound | src/harness/agent.py:65-276 | Every request of every run is free of orphans and paired as the run began, at most max_iterations + 1 of them |
| AgentRuns.LeavesSound | src/harness/agent.py:65-276 | Every run leaves the transcript paired as it began, except exactly when it leaves calls open |
| AgentRuns.EndsWell | src/harness/agent.py:65-276 | Whatever the environment: iterations and requests stay within budget and nudges within two, a linked transcript never needs a repair, completed only with a text that says something and a proven plan, incomplete_plan only with open work and both nudges spent |
| AgentRuns.StoppedEnds | src/harness/agent.py:112-232 | A stopped run reports the pass it stopped on: one iteration more than the passes before it, unless the deadline, a cancelled stream or an exception kept the pass from counting |
| AgentLoop.SendTurn | src/harness/agent.py:327-357 | On any transcript the request holds no orphan and exactly the orphans were dropped; a linked transcript goes out as it is |
| AgentLoop.DispatchCalls | src/harness/agent.py:232-240 | Dispatches in arrival order, one result message per call, up to the first call that is cut off; history and plan change call by call |
| AgentLoop.CommitResponse | src/harness/agent.py:178-240 | Commits nothing and stops when arguments are no objects; else commits one message and finishes, nudges or dispatches |
| AgentLoop.FinishOrNudge | src/harness/agent.py:190-226 | With an open plan: nudge while nudges are left, else incomplete_plan, even for an empty reply; with none: empty_response for blank text, else completed with that text |
| AgentLoop.GraceTurn | src/harness/agent.py:242-276 | One last request on the repaired list; cancelled iff its stream is, else max_iterations; commits exactly the calls its completed stream asks for, and none when their arguments are no objects |
| AgentLoop.CompactIfRed | src/harness/agent.py:136-155 | Leaves exactly the compacted list, and raises exactly when that compaction does |
| AgentLoop.Iterate | src/harness/agent.py:112-240 | One pass makes exactly the specified transition of transcript, call history, plan and nudges, with its request and its repairs |
| AgentLoop.RunTurns | src/harness/agent.py:112-240 | The passes follow start and environment until one stops the run or the budget is spent |
| AgentLoop.Arun | src/harness/agent.py:65-276 | For every transcript, plan and environment: where the run ends, what it reports, sends and leaves is what start and environment fix; every request is free of orphans and paired as the run began; the transcript stays paired except exactly when calls are left open |
| AgentLoop.GraceLeavesCalls | src/harness/agent.py:249-258 | A run whose grace turn asks for a tool ends with an unanswered call |
| AgentLoop.CancelledToolLeavesCalls | src/harness/agent.py:232-238 | A run cancelled inside a tool ends with an unanswered call |
| AgentLoop.RaisingCheckLeavesCalls | src/harness/tools/registry.py:70-77 | A run whose permission check raises ends with an unanswered call |
| AgentLoop.NullArgumentsRaise | src/harness/messages.py:103-106 | A run whose call has the arguments null raises, with every call answered |
| AgentLoop.NullGraceIsCaught | src/harness/agent.py:249-266 | In the grace turn that is caught, with no call left open |
| Segmenter.Runs | src/pipeline/segmenter.py:34-42 | The encoding covers every position with maximal runs of equal labels |
| Segmenter.EncodeRuns | src/pipeline/segmenter.py:34-42 | The loop computes that encoding |
| Segmenter.EncodingUnique | src/pipeline/segmenter.py:34-42 | No other list of runs covers the labels that way |
| Segmenter.AbsorbRuns | src/pipeline/segmenter.py:52-63 | Absorbing a stray merges it with its two neighbours and changes no other run: the count falls by exactly two |
| Segmenter.AbsorbKeeps | src/pipeline/segmenter.py:45-51 | Absorbing a stray keeps both end labels and every block of at least min_run equal labels |
| Segmenter.SettledIsRight | src/pipeline/segmenter.py:45-64 | After all rounds no stray is left, the length, both end labels and all blocks of at least min_run survive, no label is invented, and the run count fell by an even number |
| Segmenter.FindStray | src/pipeline/segmenter.py:56-59 | Finds the first interior run shorter than min_run between equal neighbours, or none iff there is none |
| Segmenter.AbsorbStrays | src/pipeline/segmenter.py:45-64 | The in-place loop terminates and leaves exactly the settled labels |
| Segmenter.NoShortInterior | src/pipeline/segmenter.py:45-51 | With two kinds of page, every interior run left has at least min_run pages |
| Segmenter.MarkFrontMatter | src/pipeline/segmenter.py:67-78 | Marks exactly the first and last regions that are manual, short and without a manual anchor; fails iff such a look-up misses a page index |
| Segmenter.AnyAnchor | src/pipeline/segmenter.py:75-77 | Fails iff some index of the region has no page; else true iff some page of the region holds a manual anchor |
| Segmenter.SegmentFile | src/pipeline/segmenter.py:81-102 | For any pages: one region per run of the settled labels with its first and last page and the rounded share of pages that had the label from the start, front matter marked; a KeyError iff a short manual region at an end spans a missing index. For consecutive pages, said of page sizes alone: the regions tile the pages; every block of at least min_run large pages lies in one drawings region, every such block of other pages in one that is not, and so do the first and last page; each confidence is the rounded share of large pages (drawings) or of the others |
| Segmenter.GapRaises | src/pipeline/segmenter.py:67-78 | Two pages with the indices 0 and 2: segmenting raises |
| Segmenter.RegionsAreRuns | src/pipeline/segmenter.py:81-102 | With gaps and repeats allowed, regions are the runs in order, interior runs hold at least min_run pages, front matter sits at an end, is short and holds no anchor, and no short anchorless manual region stays at an end |
| Segmenter.ConsecutivePages | src/pipeline/segmenter.py:81-102 | For consecutive indices the regions tile the pages in order, neighbours differ in kind, every page carries its region's label, and every region but the first and last has at least min_run pages |
| Segmenter.ConsecutiveIsRight | src/pipeline/segmenter.py:30-102 | What the regions of consecutive pages say of page sizes and anchors alone |
| Segmenter.ConsecutiveNeverFails | src/pipeline/segmenter.py:72-77 | For consecutive indices no page look-up can fail |
| Segmenter.SortSorts | src/pipeline/segmenter.py:83 | Sorting orders the pages by index |
| Segmenter.SortKeeps | src/pipeline/segmenter.py:83 | Sorting loses and invents no page |
| Segmenter.SortStable | src/pipeline/segmenter.py:83 | Pages of one index keep their order |
| Segmenter.ByIndexLast | src/pipeline/segmenter.py:87 | Of several pages with one index the look-up table holds the last |
| Ingestion.FindExisting | service/api/ingestions.py:82-97 | A job found is for exactly the requested content and config |
| Ingestion.FoundExactly | service/api/ingestions.py:82-97 | A job is found iff it is the row under the request's non-empty key and for this work or, with no row under that key, the job of this work that is neither failed nor dead |
| Ingestion.ConflictExactly | service/api/ingestions.py:85-91 | A 409 is raised iff a row stored under this non-empty key is for other work |
| Ingestion.ReuseReportedExactly | service/api/ingestions.py:82-97 | In every run a key's reuse is reported iff it is non-empty and some submit that inserted its own row used it with other work |
| Ingestion.Collision | service/migrations/versions/0004_dedup.py:16-28 | A refused insert collides with an active job of the same work or a row with the same key |
| Ingestion.CollisionExactly | service/migrations/versions/0004_dedup.py:16-28 | An insert is refused iff a job of this content and config that is neither failed nor dead, or a row under this key (an empty one included), is there |
| Ingestion.InsertsExactly | service/api/ingestions.py:111-120 | An insert adds the submit's row, queued, unless it is refused, and then adds none |
| Ingestion.StepIndexes | service/migrations/versions/0004_dedup.py:16-28 | Every step keeps one active job per work and one row per key |
| Ingestion.StepKeepsInv | service/api/ingestions.py:100-133 | Every transaction of every submit, and every status change, keeps the invariant |
| Ingestion.SubmitsAreSafe | service/api/ingestions.py:100-133 | In every interleaving: of two jobs of one content and config at least one has failed or is dead, one row per key, no job enqueued twice, none before its upload, and each only by the submit that created it |
| Ingestion.EnqueueIsCreators | service/api/ingestions.py:128-133 | In every run an enqueue is its creator's step, for its own work, after the upload, and the first for the job |
| Ingestion.ReturnedJobMatches | service/api/ingestions.py:100-133 | A returned job has exactly the requested content and config; the submit that reports it created is the one that inserted, uploaded and enqueued it |
| Ingestion.SameWorkSameJob | service/api/ingestions.py:120-126 | Two submits of the same work whose jobs are both active were given the same job |
| Ingestion.NotFoundExactly | service/api/ingestions.py:82-97 | The look-up finds nothing iff no active job of this work and no row under a non-empty key is there |
| Ingestion.RefusedNotFoundExactly | service/api/ingestions.py:112-126 | An insert these rows refuse has nothing to dedupe onto iff the key is empty and no active job of this work is there |
| Ingestion.ReraisedExactly | service/api/ingestions.py:120-126 | In every run the second look-up re-raises iff by then nothing is left to find; then the key is empty or the refusing job stopped being active |
| Ingestion.EmptyKeyReraises | service/api/ingestions.py:82-126 | A run of two submits under an empty key in which the second re-raises |
| Ingestion.DedupedKeyIsForgotten | service/api/ingestions.py:82-97 | A key deduped onto a row that does not carry it is not remembered: the same key with other work is inserted, not reported |
| Ingestion.ForgottenKeyRun | service/api/ingestions.py:82-122 | A run in which one key is used for two works and both submits are accepted |
| Ingestion.RunsExactly | service/api/ingestions.py:112-133 | Once all submits have ended, a returned job is enqueued iff neither the upload nor the enqueue of the submit that created it failed |
| Ingestion.StrandedTwinRun | service/api/ingestions.py:107-133 | A run in which a submit is given a job that is never enqueued |
| Ingestion.SubmitService.constructor | service/api/ingestions.py:100-106 | Starts with empty tables and all submits before their first look-up |
| Ingestion.SubmitService.LookUp | service/api/ingestions.py:107-126 | First look-up goes on to insert, second one re-raises, when nothing is found |
| Ingestion.SubmitService.InsertRow | service/api/ingestions.py:112-122 | Inserts a queued row iff neither index refuses it |
| Ingestion.SubmitService.UploadPdf | service/api/ingestions.py:128-130 | Only the creating submit uploads; a failed upload leaves the row in place |
| Ingestion.SubmitService.EnqueueJob | service/api/ingestions.py:131-133 | Enqueues once, after the upload, and returns created |
| Subagents.StepKeepsInv | src/harness/subagents/parallel.py:29-39 | Every step of every sub-agent keeps permits, spawn count and gate consistent with who holds what |
| Subagents.BatchIsSafe | src/harness/subagents/parallel.py:23-39 | In every interleaving at most max_parallel sub-agents run, at most the remaining budget ever start, and at most one is inside a tool that is not pure-read |
| Subagents.OneWriterAtATime | src/harness/tools/registry.py:99-104 | In every interleaving at most one sub-agent is inside a tool that declares anything but exactly the effect read, nothing included |
| Subagents.CallGoes | src/harness/tools/registry.py:54-104 | A refused or unknown call is answered at once, an admitted call of a tool that declares exactly read enters its body at once, any other goes to the gate |
| Subagents.CallsInOrder | src/harness/agent.py:228-240 | In every run a sub-agent makes its calls one by one in the order it asks for them: none is skipped or repeated |
| Subagents.StuckExactly | src/harness/subagents/parallel.py:27-33 | A batch is stuck before everyone finished only when the semaphore admits nobody, and then always |
| Subagents.NoPermitsStuck | src/harness/subagents/parallel.py:27-33 | A batch of one under a semaphore of 0 is stuck before it starts |
| Subagents.NeverDelegates | src/harness/subagents/spawner.py:16-22 | At every moment a call at the gate or in a tool body is one of an allowed catalog tool and no delegation tool |
| Subagents.NoToolsExactly | src/harness/subagents/spawner.py:53-66 | A sub-agent has no tools iff no allowed catalog tool is left without the delegation tools |
| Subagents.StepDecreases | src/harness/subagents/parallel.py:29-39 | Every step decreases the work that remains |
| Subagents.RunsAreBounded | src/harness/subagents/parallel.py:29-39 | Every run of a batch is finite |
| Subagents.FateIsOwn | src/harness/subagents/parallel.py:35-39 | An outcome once fixed stays fixed under every later step, and before that only the agent's own steps fix it |
| Subagents.ResultIsOwn | src/harness/subagents/parallel.py:35-46 | When everybody has finished, result i is what agent i's own steps decided, in spec order |
| Subagents.ResultIsIsolated | src/harness/subagents/parallel.py:35-46 | In two batches with any other siblings and any interleaving, the same own steps and the same budget verdict give the same result: one failure never touches another's |
| Subagents.BatchEnds | src/harness/subagents/parallel.py:35-46 | When nothing can move everyone has a result, and exactly the specs beyond the session budget were refused |
| Subagents.Narrow | src/harness/subagents/spawner.py:53-59 | A sub-agent gets exactly the allowed tools of the catalog, each as often as there and in catalog order, never a delegation tool |
| Subagents.ParallelSpawner.constructor | src/harness/subagents/parallel.py:26-27 | A fresh gate and a full semaphore for the batch |
| Subagents.ParallelSpawner.AcquirePermit | src/harness/subagents/parallel.py:30 | Takes a semaphore permit |
| Subagents.ParallelSpawner.CheckBudget | src/harness/subagents/spawner.py:44-66 | Checks and increments the spawn count in one step; refuses beyond the budget |
| Subagents.ParallelSpawner.StartCall | src/harness/tools/registry.py:54-106 | A call the registry refuses or does not know gets its answer at once; any other skips the gate iff its tool's effects are declared and only read |
| Subagents.ParallelSpawner.EnterGate | src/harness/tools/registry.py:102-104 | Enters a mutating tool body only holding the free gate |
| Subagents.ParallelSpawner.LeaveTool | src/harness/tools/registry.py:101-124 | Leaving a tool body, normally or by exception, frees the gate iff it was taken |
| Subagents.ParallelSpawner.StopAgent | src/harness/subagents/spawner.py:75-103 | A sub-agent's loop ends completed, on a bound, or by an exception that becomes its own result |
| Subagents.ParallelSpawner.ReleasePermit | src/harness/subagents/parallel.py:30-33 | Leaving gives the permit back |
| Subagents.ParallelSpawner.SpawnAll | src/harness/subagents/parallel.py:18-46 | Under any scheduling the batch ends with one result per spec in spec order and spawns exactly what the budget allows |
| AreaHarvest.NearestRoom | src/takeoff/area_harvest.py:87-91 | The first closest room within max_dist, or none iff all are farther |
| AreaHarvest.BindLabels | src/takeoff/area_harvest.py:84-93 | One pair per kept label that has a room within reach, naming its nearest room, distance and area |
| AreaHarvest.SortOrders | src/takeoff/area_harvest.py:95 | The stable sort puts closer pairs first, and of equally close ones the earlier label |
| AreaHarvest.KeepFirstPerRoom | src/takeoff/area_harvest.py:96-104 | Keeps, in order, the first pair of every room |
| AreaHarvest.JoinAreas | src/takeoff/area_harvest.py:69-104 | One area per contested room, from the closest label whose nearest room it is; no label serves two rooms; closest first; each with the area its label prints and a rounded confidence that falls linearly from 1 at distance 0 to 0 at max_dist and is never negative; fails iff max_dist is 0 and some kept label has a room within that reach |
| AreaHarvest.ZeroDistanceFails | src/takeoff/area_harvest.py:102-103 | A label on a room token with max_dist 0 divides by zero |
| AreaHarvest.OneAreaPerRoom | src/takeoff/area_harvest.py:74-82 | A room has an entry iff it is some kept label's nearest room, and then exactly one |
| AreaHarvest.JoinUnique | src/takeoff/area_harvest.py:69-104 | That promise determines the output list |
| AreaHarvest.ConfidenceFalls | src/takeoff/area_harvest.py:81-82 | For any monotone rounding, confidences never rise along the list and lie between 0 and 1 |
| DoorRows.SplitJoin | src/pipeline/phase2_schedule_parser.py:69-72 | Splitting joined tokens gives the tokens back |
| DoorRows.ColumnConserves | src/pipeline/phase2_schedule_parser.py:68-74 | The N values of a column, concatenated, hold exactly the cell's tokens in order, divisible or not |
| DoorRows.EvenShare | src/pipeline/phase2_schedule_parser.py:62-64 | Tokens that divide evenly are shared evenly; else the first door takes the whole cell and the rest are blank |
| DoorRows.MarkColumn | src/pipeline/phase2_schedule_parser.py:66-72 | The mark column splits into its tokens, one per row |
| DoorRows.ExpandMerged | src/pipeline/phase2_schedule_parser.py:59-75 | N rows of the same width; row r carries mark r; each column is the split of its cell and conserves its tokens |
| DoorRows.RowsOf | src/pipeline/phase2_schedule_parser.py:121-127 | A merged row is expanded, a row with one accepted mark passes unchanged, any other is dropped |
| DoorRows.SelectDoorRows | src/pipeline/phase2_schedule_parser.py:119-128 | One row per accepted mark, in table order, each from its own table row |
| DoorRows.SelectDoorRowsAuto | src/pipeline/phase2_schedule_parser.py:131-142 | The built-in grammar if it accepts at least five marks, else the discovered one |
| PageCache.Document.GetPage | src/access/document.py:129-136 | The same index always gives the same page object |
| PageCache.Document.Cached | src/access/page.py:40-47 | Produces at most once per page, operation and arguments, and answers what a direct call would, degraded on failure |
| PageCache.DegradesTo | src/access/page.py:51-84 | A failing call gives an empty mapping for dict and rawdict text, an empty list for words, drawings and tables, and nothing for other text and renders |
| PageCache.Document.Read | src/access/page.py:51-84 | Any consumer call on the shared document answers as a separate open would |
| PageCache.Document.RenderPng | src/access/page.py:75-84 | A missing or zero dpi means the configured one |
| PageCache.Document.ReadAll | src/access/page.py:15-21 | Any sequence of calls returns the answers of separate documents, produces each distinct call once in order of first use, and records exactly the failing ones |
| PageCache.ReadSeparately | src/access/document.py:39-46 | The same calls, each on its own document, give the same answers |
| PageCache.OneRecordPerFailure | src/access/document.py:106-116 | The failure ledger holds exactly one record per distinct failing call |
| QueryApi.EntityTables.ShredEntities | service/takeoff/projection.py:69-78 | In all three tables the job's rows become exactly the projection of the report and other jobs' rows stay; returns the row counts |
| QueryApi.EntityTables.ShredAgain | service/takeoff/projection.py:70-71 | Shredding the same report twice leaves what shredding it once leaves |
| QueryApi.SelectionIsArtifactOrder | service/api/query.py:76-89 | Whatever order the table keeps, a query reads exactly the artifact's items that pass the filter, in artifact order |
| QueryApi.GetRows | service/api/query.py:31-143 | Rejects an unknown job, a job not succeeded, a page below one and a size outside 1..500, in this order; else returns that page of the selection with the total, the page count, the incomplete flag and the schema version |
| QueryApi.GetItems | service/api/query.py:70-94 | A page of exactly the job's items that equal every given filter, each as often as stored, by ordinal, with the total and the least number of pages that hold it |
| QueryApi.GetFixtureCounts | service/api/query.py:97-119 | The same for fixture counts: symbol and verified equal, confidence at least the given one |
| QueryApi.GetRoomAreas | service/api/query.py:122-143 | The same for room areas: room equal, confidence at least the given one |
| QueryApi.LastPage | service/api/query.py:52-53 | Page p is at least total_pages iff p full pages cover all rows |
| QueryApi.FetchPages | src/takeoff_agent/reconcile.py:30-40 | The client's page loop terminates and returns every row once, in artifact order, for every entity and page size, or the first error |
| Rollups.Summarize | src/takeoff/quantity_schedules.py:190-204 | by_schedule and by_basis are the exact counts per value, with the rounded known quantity and the pending count |
| Rollups.SummaryAgreesWithQueries | docs/takeoff_query_api_design.md:37-40 | Every rollup of the summary equals the total a query with that filter reports |
| Rollups.SummarizeCounts | src/takeoff/fixture_counts.py:77-92 | by_symbol names exactly the counted symbols, each with its candidate total and its sheets in counting order; instance_sheets are the distinct pages, ascending |
| Rollups.CountsAgreeWithQueries | src/takeoff/fixture_counts.py:77-92 | by_symbol agrees with a query on the symbol: present iff it has rows, their total, one sheet entry per row |
| Rollups.CoverageIsShare | src/takeoff/build_schedule_items.py:38-46 | Never more covered rooms than finish rooms, and as many iff every finish room has an area |
| Rollups.Assemble | src/takeoff/build_schedule_items.py:38-60 | The artifact carries the report, its rollups, its area coverage and its fixture-count summary |
| Rollups.GetSummary | service/api/query.py:146-168 | Gated like the queries; gives back the artifact's three rollups, the manifest's incomplete flag and failed shards, and the flags: pending count, unverified rows, finish rooms without an area |
| Rollups.FlagsAgree | src/takeoff_agent/reconcile.py:79-91 | rooms_without_area and unverified_fixture_counts equal what the client works out from the fetched rows |

## Left out

- Parsing: PDF text and tables, title signatures, mark grammars, cell cleaning, JSON and the tokenizer are given functions; `build_item`, `_quantity` and the catalog and free row selectors are inside the given parse of a page.
- Plumbing: SQL, the queue, object storage and HTTP appear only as committed row updates, unique indexes, messages with bounded retry and a key-value store.
- Worker crashes between two commits, duplicate deliveries without a raise, and lost counter updates: outside what the shard protocol handles, so not steps of the model.
- Retry backoff, fairness of semaphore and lock queues, and wall-clock deadlines: a deadline is a yes-or-no choice of the environment before each turn.
- Job-level status and timestamp columns, `process_job`'s own bookkeeping, and a reduce that raises.
- Wave 2 inside a job: area harvest and fixture counts enter a report as given lists; unit, attributes and source columns of the rows are not modelled.
- The rest of the client's reconciliation: catalog marks without counts and double-count candidates.
- Message ids and creation times, the wording of nudges and tool errors, token totals, and the summary text of a run that did not complete.
- The rules of permission managers (a check that denies or raises is a choice of the environment), per-turn tool selection, event callbacks that raise, and the second snapshot after a compaction.
- A tokenizer that refuses a text: counting tokens is a given total function, so a snapshot never raises.
- Registry.ToolRegistry.Dispatch: a call that is cut off leaves the history as it was; the run ends there, so its history is never read again.
- `harvest_room_areas` over several pages and the choice of area-plan pages.
- PageCache.Document.Read: pages that fail to load and calls on a closed document are not modelled; the failure record leaves out the error text.
- AgentLoop.Arun: the plan it is handed has evidence for what it claims, as the plan tools leave every plan; a cancellation in the summarizer's call counts as its exception.
- Subagents.ParallelSpawner.SpawnAll: requires a semaphore that admits somebody, since with none the batch never ends, and a spawn count within the budget, which every run keeps.
- QueryApi.FetchPages: the rows and the job do not change while the client pages through them.
