# Verified kernels of the Teledex gateway

The gateway keeps long agent runs alive across crashes, disconnects and restarts.  This
project models the stateful kernels that this rests on and proves what they keep.  Files,
sockets, timers and child processes are steps of an environment that may do them in any
order; every `await` is a point where other steps may happen.

| module | what it models |
|---|---|
| `RolloutReader` | the byte-level reader of a growing rollout log: carryover, short reads, offsets, the overlap before a replay floor |
| `RolloutFollow` | the loop that follows the log after a disconnect, with reads that flush |
| `RolloutReplay` | how watcher, follower and replay decide from log lines how a run ended, sharing one set of seen summaries |
| `TokenUsage`, `RunTokenUsage` | the algebra of token counts, and baselines, segments and closed domains of a run |
| `Utf8Tail` | truncation by UTF-8 bytes of UTF-16 text, and the bounded tail of lines |
| `RpcClient` | the JSON-RPC request table, timeouts, closing, and replies to server requests |
| `AppServerRun` | the notification chain, timers and settlement of an app-server-v2 run |
| `SteerQueue` | the queue of live steering inputs and its flush chain |
| `RunRecovery` | the retry loop of a run and its six budgets |
| `WorkerPool` | slots, reservations, starts, failures and shutdown of the worker pool |
| `McpConfig`, `McpPreset` | rewriting and parsing the MCP tables of a config, and the generator and validator of a host's servers |
| `ExecRecovery`, `SubAgentLogs` | the live JSONL processor, the reading of its log after a crash, and what sub-agent events do to it |
| `UpdateOffsets` | the update loop, its saved offset, and the server's forgetting |

Code that changes state in place is a class or a method with loops, tied by its
postcondition to a function of the old state; the lemmas are about that function, over
all inputs and all runs.  Where a wished-for law is false of the code, a lemma gives the
exact condition under which it holds (`FlushIsExact`, `OverlapIsExact`, `FollowIsExact`,
`DisconnectSettles`, `RewritingIsIdempotent`, `GeneratedPassesExactly`,
`AnswersAgreeExactly` and the three of `SubAgentLogs`, `SavedOffsetGoesBackExactly`), and
another one a case in which it fails (`FlushingFollowerTruncates`, `DisconnectCanStrand`,
`SecondCompletionDiffers`, `SubAgentTurnDiffers`, `SavedOffsetIsNotMonotone`).

`dafny verify dfyconfig.toml` checks the whole project.

## Model

| member | source | states |
|---|---|---|
| RolloutReader.ReadRolloutDelta | src/pty-worker/codex-runner-recovery.js:142-248 | One read (restart at 0 when the file shrank, short read, carryover, CR before LF, blank lines, flush) returns exactly the records of carryover plus bytes read, with their absolute offsets, and the tail after the last newline; which lines those are RecordsAreTheWholeLines and TailIsTheRest say byte by byte |
| RolloutReader.RecordsAreTheWholeLines | src/pty-worker/codex-runner-recovery.js:193-221 | A record is found if and only if its bytes run from a line start to the next newline without one in between; its text is the decoding of exactly those bytes, less the last one where that is a carriage return |
| RolloutReader.TailIsTheRest | src/pty-worker/codex-runner-recovery.js:160-240 | The flush returns a line if and only if it runs from the last line start to the end, has no newline and is not blank; its text leaves out only a carriage return at its very end |
| RolloutReader.ShorterFileIsReadAnew | src/pty-worker/codex-runner-recovery.js:142-168 | A file shorter than the offset is read from its start, with nothing carried over |
| RolloutReader.RecordsAreOrdered | src/pty-worker/codex-runner-recovery.js:193-221 | Records come in file order, none overlaps another, and all end by the start of the unfinished one |
| RolloutReader.ReadInStep | src/pty-worker/codex-runner-recovery.js:142-248 | One read of a grown file keeps the carryover equal to the unfinished record and returns exactly the records finished since the last read |
| RolloutReader.ChunkInvariance | src/pty-worker/codex-runner-recovery.js:142-248 | For every append-only file, every sequence of growths and every length of short reads: the concatenated lines with their offsets are those of all consumed bytes cut at once, and the carryover is the newline-free tail that ends at the next offset |
| RolloutReader.FlushIsExact | src/pty-worker/codex-runner-recovery.js:169-248 | A last read with the flush yields all lines of the file, the unterminated one once, if and only if it reached the end of the file or it cut nothing off (what is unfinished there and all that follows is blank) |
| RolloutReader.OverlapIsExact | src/pty-worker/codex-runner-recovery.js:409-414 | The 64 KiB overlap re-read keeps exactly the file's own lines that end after the floor, at every later size, if and only if the line that straddles the floor starts inside the overlap or does not matter (unfinished, or blank both whole and cut) |
| RolloutReader.OverlapCoversShortLines | src/pty-worker/codex-runner-recovery.js:409-414 | If the line at the floor has at most 65536 bytes before the floor, the overlap re-read keeps exactly the file's own lines after the floor |
| RolloutFollow.ReadsArePieces | src/pty-worker/codex-runner-recovery.js:441-460 | For every mix of reads with and without the flush the lines returned are those of the stretches between the cuts, each stretch cut at once and its tail flushed |
| RolloutFollow.FollowIsExact | src/pty-worker/codex-runner-recovery.js:409-476 | After any growths, short reads and flushes the follower has kept exactly the file's lines that end after the floor, the unterminated one included if it flushed at the end of the file, if and only if no cut is seen: each lies between records or at the final end, or the record cut and the fragments beside the cut are blank, unfinished or end by the floor |
| RolloutFollow.FlushingFollowerTruncates | src/pty-worker/codex-runner-recovery.js:451-456 | A follower that flushes while a record is being written keeps a truncated one |
| RolloutReplay.RolloutFallback.RememberSummary | src/pty-worker/codex-runner-recovery.js:12-51 | A summary is new exactly when its replay key was not in the shared set, and its key is in the set afterwards |
| RolloutReplay.RolloutFallback.ReplayRolloutGap | src/pty-worker/codex-runner-lifecycle.js:295-363 | The replay loop leaves the tracker, the shown summaries and the verdict of the scan that the lemmas below are about |
| RolloutReplay.RolloutFallback.WatchDelta | src/pty-worker/codex-runner-recovery.js:323-363 | The same for the watcher, which looks at final summaries only and shows one only while no final answer was seen |
| RolloutReplay.RolloutFallback.FollowDelta | src/pty-worker/codex-runner-recovery.js:471-519 | The same for the follower, which returns in the middle at an abort and has read exactly the lines up to it |
| RolloutReplay.VerdictIsTheLastWord | src/pty-worker/codex-runner-lifecycle.js:295-363 | For every line sequence the verdict is that of the last fresh, turn-matching terminal line after the last task start, and there is none exactly when no such line exists |
| RolloutReplay.VerdictIsOfTheCurrentTurn | src/pty-worker/codex-runner-lifecycle.js:295-363 | A line of a superseded turn never decides: when both turns are known, the verdict's is the one active after the last line |
| RolloutReplay.DecidesByTheLine | src/pty-worker/codex-runner-lifecycle.js:295-363 | Which events decide, told by the event itself: a new completion or abort whose own turn id is not known to be another than the active one (an abort not for the watcher), and a new final answer |
| RolloutReplay.VerdictTellsTheLine | src/pty-worker/codex-runner-lifecycle.js:295-363 | The verdict is what the deciding line's event says: completed with that event's own message, or aborted with its own reason, and never the event of a turn other than the one active at the end |
| RolloutReplay.SameKeyMeansSameLine | src/pty-worker/codex-runner-recovery.js:12-51 | Two lines share a replay key if and only if they say the same of the same turn; the reason of an abort and the turn of a message do not count |
| RolloutReplay.FollowerStopsAtTheFirstAbort | src/pty-worker/codex-runner-recovery.js:471-519 | The follower returns early if and only if there is a fresh abort of the turn then active, at the first such line, with that abort as its verdict |
| RolloutReplay.EachSummaryIsShownOnce | src/pty-worker/codex-runner-recovery.js:30-51 | Over any interleaving of watches, follows and replays that share the tracker no summary key is shown twice, and none the live connection had reported |
| RolloutReplay.FreshLinesAreShown | src/pty-worker/codex-runner-recovery.js:323-519 | Which events each of the three paths shows, told by the event: a line is shown if and only if it is new, of the active turn as far as known, and of a kind that path shows |
| TokenUsage.NormalizingIsIdempotent | src/codex-runtime/token-usage.js:1-55 | A normalised usage, read back under its own field names, normalises to itself; with total synthesis only a missing total is filled in from input and output |
| TokenUsage.CountsComeFromTheFirstName | src/codex-runtime/token-usage.js:1-55 | Each count comes from the first of its field names that is present, an unusable or negative one is no count, and a missing total is filled in only on request and where input or output is known |
| TokenUsage.AdditionLaws | src/codex-runtime/token-usage.js:75-107 | Addition of normalised usages is commutative and associative with null as identity, and is null only for two nulls |
| TokenUsage.SubtractionUndoesAddition | src/codex-runtime/token-usage.js:109-138 | On complete readings subtraction undoes addition and addition undoes subtraction; the difference is complete exactly when the baseline is contained in the reading |
| TokenUsage.DifferencesTelescope | src/codex-runtime/token-usage.js:75-138 | The differences of successive nondecreasing readings add up to the difference of the last and the first |
| TokenUsage.NonCachedTotalAdds | src/codex-runtime/token-usage.js:57-73 | The non-cached input and output total of a sum is the sum of the totals when cached input is part of the input, and never more than it otherwise |
| TokenUsage.NonCachedTotalIsTheRest | src/codex-runtime/token-usage.js:57-73 | The non-cached total exists if and only if input and output are known, and with the cached part of the input, at most the whole of it, it makes up their sum |
| RunTokenUsage.RunUsage.ApplyRunTokenUsageSummary | src/pty-worker/worker-pool-run-token-usage.js:64-106 | A summary updates snapshot, baseline, segment and total as the function that the run lemmas are about; publishing and resetting likewise |
| RunTokenUsage.PublishedUsageIsTheReported | src/pty-worker/worker-pool-run-token-usage.js:7-106 | For every sequence of raw reports and resets, without any condition on the readings: the published usage is that of the ended stretches plus that of the current one, each read off the reports themselves (last reading less origin, or the last usage reported where there is no difference), and the snapshot is the last usage reported with its total filled in |
| RunTokenUsage.StretchTelescopes | src/pty-worker/worker-pool-run-token-usage.js:64-106 | A stretch whose last report has a cumulative reading that contains the origin counts the difference of the two, whatever was reported in between |
| RunTokenUsage.ReadingsCount | src/pty-worker/worker-pool-run-token-usage.js:82-105 | Two reports of a running turn, usage 10 of total 1010 and usage 5 of total 1015, publish 15 |
| RunTokenUsage.UsageIsConserved | src/pty-worker/worker-pool-run-token-usage.js:7-106 | In every reachable state, over any interleaving of reports and resets, the published usage is closed plus segment, and a reset moves the whole of it into closed without changing it |
| RunTokenUsage.DomainProgress | src/pty-worker/worker-pool-run-token-usage.js:64-106 | Within a domain of complete nondecreasing readings whose first one contains all counts of the running turn's usage or none, the segment after each reading is that reading less the origin |
| RunTokenUsage.UsageTelescopes | src/pty-worker/worker-pool-run-token-usage.js:44-106 | The total of a run is the sum over its domains of last reading minus origin |
| RunTokenUsage.UsageOfAnyDomains | src/pty-worker/worker-pool-run-token-usage.js:20-106 | Whatever the readings, if each domain ends with a cumulative one that leaves at least one count: the total is the sum over the domains, count by count, of last reading minus origin, or of the usage reported with the last reading where that difference is missing |
| RunTokenUsage.UsageOnlyReportsAreForgotten | src/pty-worker/worker-pool-run-token-usage.js:64-106 | Reports without a cumulative reading leave no trace once the next reading is applied |
| Utf8Tail.PrefixBytesMonotone | src/codex-exec/jsonl-log-mirror.js:18-36 | The UTF-8 length of UTF-16 prefixes grows by one to three bytes per unit, also when a cut splits a surrogate pair: what the binary search relies on |
| Utf8Tail.ConcatBytes | src/codex-exec/jsonl-log-mirror.js:18-40 | UTF-8 lengths add up under concatenation except that surrogate halves that meet at the seam save two bytes |
| Utf8Tail.PrefixBytesAreEncoded | src/codex-exec/jsonl-log-mirror.js:18-20 | The byte length of every prefix is the length of its UTF-8 encoding as section 3 of RFC 3629 defines it, unpaired surrogate halves becoming the replacement character |
| Utf8Tail.TruncateUtf8 | src/codex-exec/jsonl-log-mirror.js:22-40 | The binary search finds the longest prefix that a linear search finds: the text unchanged if it fits, else that prefix and the suffix |
| Utf8Tail.TruncatedFits | src/codex-exec/telegram-exec-runner.js:57-78 | The result never exceeds the limit, or the suffix where that alone exceeds it |
| Utf8Tail.TruncatedIsTight | src/codex-exec/telegram-exec-runner.js:57-78 | No longer prefix with the suffix would have kept the limit |
| Utf8Tail.TruncatedKeepsTheMost | src/codex-exec/jsonl-log-mirror.js:18-40 | A text that fits is unchanged; another is cut to a prefix that leaves room for the suffix, or to nothing, and no longer prefix would have fitted |
| Utf8Tail.StderrTail.RememberTail | src/codex-exec/telegram-exec-runner.js:80-102 | After every history of lines the tail is the longest suffix of the truncated non-empty lines that keeps both the line limit and the joined-bytes limit; the eviction loop ends |
| RpcClient.JsonLineRpcClient.RejectAllPending | src/app-server-v2/jsonl-rpc-client.js:54-59 | Every pending request is rejected once, in the order of issue, and table and timers are empty; the other handlers of the class likewise do exactly their step of the model |
| RpcClient.RequestsSettleExactlyOnce | src/app-server-v2/jsonl-rpc-client.js:46-246 | Over every interleaving of requests, responses, timeouts, failed writes, server requests and closes: each issued id is either pending or settled, once; timers belong to pending requests; a closed client has none pending; no server request is replied to twice |
| RpcClient.SettlementsHaveTheirCause | src/app-server-v2/jsonl-rpc-client.js:46-245 | In every run a request is settled in some way if and only if one event of the run settles it so: a result resolves it, an error or a timeout or a failed write or the end of the transport rejects it, each while it was pending |
| RpcClient.RepliesHaveTheirCause | src/app-server-v2/jsonl-rpc-client.js:69-99 | In every run a server request is replied to in some way if and only if one event of the run does so on an open client: the handler's result, or an error where there is no handler or it failed |
| RpcClient.OpenRequestsAreIssued | src/app-server-v2/jsonl-rpc-client.js:161-208 | A request on an open client gets the next id and is pending, with a timer if and only if one was asked for; its answer settles it and undoes the rest |
| RpcClient.ClosedForGood | src/app-server-v2/jsonl-rpc-client.js:144-245 | In every run the client is closed if and only if it was closed or its transport ended, and it reports a disconnect, once, if and only if the transport ended before any close |
| RpcClient.HandlersRunUntilTheyReturn | src/app-server-v2/jsonl-rpc-client.js:69-137 | In every run the handler of a server request is running if and only if the request came and its handler did not return since |
| RpcClient.SettledIsFinal | src/app-server-v2/jsonl-rpc-client.js:46-246 | The logs of settlements and replies only grow |
| RpcClient.LateResponsesChangeNothing | src/app-server-v2/jsonl-rpc-client.js:101-142 | A response for a settled or never issued id leaves every reachable state as it is |
| AppServerRun.Runner.CompleteNotification | src/app-server-v2/notifications.js:114-179 | The part of a handler after its awaits: errors, failed, interrupted, other and completed turns, and the deferred goal; the other handlers of the class likewise do exactly their step of the model |
| AppServerRun.SettlementIsSound | src/app-server-v2/app-server-v2-runner.js:86-151 | Over every interleaving of notifications, timers, stream errors, disconnects, startup failures and goal calls: at most one settlement; an ok one happens in a step before which some step handled a primary turn/completed with completed or absent status, with no step in between that handled a primary turn/started with an id |
| AppServerRun.OkNeedsThePrimaryTurn | src/app-server-v2/thread-state.js:63-75 | In every run an ok settlement happens in a step before which some step handled a turn/completed, with completed or absent status, whose thread id is none, equal to the primary thread's, or the first one named; told on the notification's thread id |
| AppServerRun.OtherThreadsChangeNothing | src/app-server-v2/notifications.js:63-113 | A notification of a thread other than the primary one changes neither core nor turn: not when it arrives, nor when its handler begins, nor when it ends |
| AppServerRun.FirstNamedThreadIsPrimary | src/app-server-v2/thread-state.js:63-75 | The first thread named by a handled notification is the primary one from then on |
| AppServerRun.StepSettlesExactly | src/app-server-v2/app-server-v2-runner.js:86-151 | Which step settles an unsettled run, and how, for every event |
| AppServerRun.StepArmsExactly | src/app-server-v2/notifications.js:25-179 | What arms and disarms each of the two timers of an unsettled run, for every event |
| AppServerRun.StepTellsTheTurn | src/app-server-v2/notifications.js:63-179 | What changes the active turn, the primary and the latest thread, the deferred goal and the interrupt request, for every event |
| AppServerRun.BeginningTakesEffect | src/app-server-v2/notifications.js:63-113 | A turn/started of the primary thread makes its turn the active one and disarms both timers; its final answer is remembered |
| AppServerRun.CompletionTakesEffect | src/app-server-v2/notifications.js:135-179 | A completed turn of the primary thread is no longer active; a deferred goal waits for its own turn, otherwise the run is settled if a final answer was seen, else armed |
| AppServerRun.DisconnectSettles | src/app-server-v2/app-server-v2-runner.js:141-151 | After the client closed and the chain drained, the run is settled or holds an armed completion timer that settles it, if and only if it is settled or no primary turn with an id was begun that neither completed for good nor was followed by another look at the loss |
| AppServerRun.ChildCloseSettles | src/app-server-v2/app-server-v2-runner.js:490-508 | The close of the child settles a drained run exactly when no completion timer is left to do it |
| AppServerRun.DisconnectCanStrand | src/app-server-v2/jsonl-rpc-client.js:101-158 | A reachable run that is disconnected and drained but neither settled nor holding a timer: after an error of a stream, lines still come, and a turn begun by them disarms the timer |
| AppServerRun.ChainDrains | src/app-server-v2/app-server-v2-runner.js:238-257 | While there is work on the chain one of its steps can happen, and each leaves less of it |
| SteerQueue.Steering.OnSteerRefused | src/app-server-v2/steering.js:46-90 | A refusal puts the batch back in front, or retries after a delay while the server knows no active turn and delays are left; the other handlers of the class likewise do exactly their step of the model |
| SteerQueue.InputsAreConserved | src/app-server-v2/steering.js:19-105 | Over every interleaving of steer calls, turn changes, refreshes and flushes: accepted inputs are delivered, then in flight, then pending, in order; one flush at a time; at most one more request than retry delays per flush |
| SteerQueue.AcceptedInputsGetAFlush | src/app-server-v2/app-server-v2-runner.js:534-558 | An accepted input is pending at the end of the queue, and a flush is put on the chain if and only if a thread and a turn are known and no recovery is under way |
| SteerQueue.FlushSendsAll | src/app-server-v2/steering.js:19-45 | A flush sends all that is pending in one request if a thread and a turn are known; the server's acceptance delivers it and tells the turn |
| SteerQueue.RefusedInputIsRetried | src/app-server-v2/steering.js:46-90 | A refused input waits in front again, unless the server knows no active turn and a delay is left: then the same input is requested once more after a refresh that tells a turn |
| SteerQueue.BufferedInputIsSent | src/app-server-v2/steering.js:19-103 | Input buffered without a turn is sent once a turn is known and a flush is scheduled |
| SteerQueue.DeliveryIsFifo | src/pty-worker/codex-runner-steer.js:46-158 | Both the accepted and the delivered inputs only grow at the end |
| SteerQueue.FlushEnds | src/app-server-v2/steering.js:19-97 | Each step of a running flush brings its end closer and nothing else puts it off |
| RunRecovery.Run.RunAttempt | src/pty-worker/worker-pool-run-attempt.js:671-697 | run.child is set only while the task runs: it is null again however the attempt ends |
| RunRecovery.Run.ExecuteRunAttempts | src/pty-worker/worker-pool-run-recovery.js:192-464 | The loop leaves for every script of attempts with finitely many live steers, in a state its turns lead to, with at most 6 + capacity delays + accepted live steers attempts; run.child is null at every loop head |
| RunRecovery.AttemptsAreBounded | src/pty-worker/worker-pool-run-recovery.js:204-464 | After n turns exactly n attempts were made, each paid for by one of the budgets, and their number stays below the limit |
| RunRecovery.IteratePays | src/pty-worker/worker-pool-run-recovery.js:235-464 | A turn that goes on made one attempt and spent a budget; one that leaves made one attempt, or none exactly when it found an interrupt request |
| RunRecovery.ThrowGoesOnExactly | src/pty-worker/worker-pool-run-recovery.js:261-330 | After an attempt that threw the loop goes on if and only if, told by error, budgets and interrupt requests: a context-window fallback or a corruption fallback is due and works, or a retry at capacity is left; with which thread id, and what was spent |
| RunRecovery.ResultGoesOnExactly | src/pty-worker/worker-pool-run-recovery.js:350-513 | After an attempt that returned the loop goes on if and only if, told by the result's fields, budgets and interrupt requests: a compaction is due and works, live steers were accepted and not served, the run was interrupted upstream before its final answer, or its thread was replaced; with which thread id; else the result is returned |
| RunRecovery.UpstreamInterruptIsRestarted | src/pty-worker/worker-pool-run-recovery.js:467-513 | A run interrupted upstream without a final answer goes on with its prior thread id while fewer than two such restarts were made |
| RunRecovery.AnswerIsReturned | src/pty-worker/worker-pool-run-recovery.js:502-513 | A result with a final answer and nothing else due is returned |
| RunRecovery.NoAttemptAfterInterrupt | src/pty-worker/worker-pool-run-recovery.js:235-244 | Once a loop head finds an interrupt request, the loop has left with the attempts made so far, however long it is watched |
| RunRecovery.InterruptedAttemptIsTheLast | src/pty-worker/worker-pool-run-recovery.js:467-513 | An interrupt during an attempt or while its result is recorded makes it the last one, and its result is returned |
| WorkerPool.CodexWorkerPool.Drained | src/pty-worker/worker-pool-lifecycle.js:417-424 | One look of the drain loop is positive exactly when no session holds a slot |
| WorkerPool.PromptStart.OnProgressSent | src/pty-worker/worker-pool-lifecycle.js:220-275 | A failed message goes to cleanup with the reservation held, a shutdown releases it, else the run becomes active in the same section that releases it; the other sections of the class likewise do exactly their step of the model |
| WorkerPool.StepIsSafe | src/pty-worker/worker-pool-lifecycle.js:49-332 | Every section of every start keeps the invariant of tables, owners and phases, and takes no slot during a shutdown |
| WorkerPool.SlotsAreSafe | src/pty-worker/worker-pool-lifecycle.js:49-332 | At every yield point of every interleaving: active and starting sessions are disjoint, together at most the limit, and the three starting tables have the same keys |
| WorkerPool.EndedStartsLeaveNoTrace | src/pty-worker/worker-pool-lifecycle.js:90-332 | A start that did not return ok and a run that ended are in none of the tables; a running one holds its slot |
| WorkerPool.OneStartPerSession | src/pty-worker/worker-pool.js:85-99 | A session is taken exactly when one of its starts holds its slot, and no two of its starts do at the same time |
| WorkerPool.ShutdownIsForGood | src/pty-worker/worker-pool-lifecycle.js:450-474 | The pool is shutting down if and only if a shutdown was asked for at some time |
| WorkerPool.FreeSessionsAreAdmitted | src/pty-worker/worker-pool.js:85-99 | A start is admitted if and only if no shutdown is under way, its session holds no slot and fewer than the limit do; it then holds the session's slot, and otherwise nothing changes |
| WorkerPool.GoodStartsRun | src/pty-worker/worker-pool-lifecycle.js:85-300 | An admitted start whose host resolves and whose message is sent holds its run and ends up running, unless a shutdown came before |
| WorkerPool.StartsEndAndFree | src/pty-worker/worker-pool-lifecycle.js:85-332 | When a start ends and when its session is free again: a refused host or backend, the end of the run and the cleanup end it; a failed message, shutdown note or patch leads to the cleanup first; no other step frees the session |
| WorkerPool.ShutdownOnlyDrains | src/pty-worker/worker-pool-lifecycle.js:450-474 | After shutdown begins the set of sessions that hold a slot only shrinks, over every continuation |
| WorkerPool.DrainedStaysDrained | src/pty-worker/worker-pool-lifecycle.js:417-448 | Once a shutdown found the pool drained it stays so |
| McpConfig.ParseMcpServerBlocks | src/hosts/codex-mcp-config.js:114-148 | The parser's loop computes the blocks that the read-back lemmas are about |
| McpConfig.RemoveMcpServerBlocks | src/hosts/codex-mcp-config.js:233-252 | Removal keeps exactly the lines outside the MCP tables and tidies them |
| McpConfig.ReplaceMcpServerBlocks | src/hosts/codex-mcp-config.js:186-231 | Rewriting puts the new text in the place of the first MCP table, else before the first table, else at the end, and drops every other MCP table |
| McpConfig.TidyingIsCollapsingAndTrimming | src/hosts/codex-mcp-config.js:230-251 | Dropping empty and blank lines line by line is the same as collapsing runs of three or more newlines to two in the joined text, trimming its end and adding a newline |
| McpConfig.OutsideSurvives | src/hosts/codex-mcp-config.js:186-231 | For every config and rendered text all non-blank lines outside MCP tables survive in order, up to white space at the very end |
| McpConfig.OutsideKeepsTheOthers | src/hosts/codex-mcp-config.js:186-252 | Line by line, told by what the lines open: a line is dropped if and only if it opens an MCP table or follows such a header with no other header between |
| McpConfig.NewTextIsPlaced | src/hosts/codex-mcp-config.js:186-231 | For every config: the non-blank lines before the first MCP table (else before the first table, else all) come before the new text, and the other lines outside the MCP tables after it |
| McpConfig.RewritingIsIdempotent | src/hosts/codex-mcp-config.js:186-231 | A second rewrite changes nothing if and only if the config had an MCP table or no table at all; a third never changes anything |
| McpConfig.WrittenServersAreRead | src/hosts/codex-mcp-config.js:114-231 | Parsing the rewritten config gives exactly the rendered servers, each block up to one empty line at its end |
| McpConfig.ParsedTables | src/hosts/codex-mcp-config.js:114-148 | For every config a name is read if and only if some server header has it, and it is read as the lines from the last such header to the next header or the end |
| McpConfig.RemovalIsClean | src/hosts/codex-mcp-config.js:233-252 | Removal leaves no MCP table, keeps every other non-blank line in order, and is idempotent |
| McpConfig.RemovedServersAreNotRead | src/hosts/codex-mcp-config.js:114-252 | Nothing is read back after a removal |
| McpPreset.GeneratedPassesExactly | src/hosts/codex-mcp-config.js:299-513 | For every config, host and target the generated workspace config passes the validator if and only if the required container and each declared optional one run and nothing written in contains a reserved marker |
| McpPreset.WorkspacePassesExactly | src/hosts/codex-mcp-config.js:376-513 | For any blocks, host and target, generated or not: they pass if and only if none is reserved or marked, each shared server runs over ssh to the target with its command, docker runs locally and under that name only, and the optional servers of this host alone are there, exactly when declared |
| McpPreset.MarkedLinesSayAMarker | src/hosts/codex-mcp-config.js:150-155 | A line is marked if and only if a reserved marker stands somewhere in a name, command or argument written on it |
| McpPreset.NoServersPass | src/hosts/codex-mcp-config.js:299-390 | With the preset none what is generated always passes |
| McpPreset.MarkedSuffix | src/hosts/codex-mcp-config.js:24-29 | A reserved marker in a host-prefixed server name lies wholly in the host id |
| ExecRecovery.JsonlProcessor.IngestLine | src/codex-exec/exec-jsonl-processor.js:31-104 | The live handler changes its state and announces answers as the function that the lemmas below are about |
| ExecRecovery.InspectExecJsonRunLog | src/cli/run-stale-run-recovery.js:282-414 | The crash-side loop over the log returns reply, flag and thread of the fold; a missing log says nothing |
| ExecRecovery.ThreadIsTheLastNamed | src/cli/run-stale-run-recovery.js:282-414 | For every log each side knows the thread named last; a run without an answer counts as interrupted if and only if a thread is known |
| ExecRecovery.FlagsTellTheEvents | src/codex-exec/exec-jsonl-processor.js:31-104 | For every log the live flags say whether a turn completed, a turn failed and the stream broke, and the count of malformed lines is theirs |
| ExecRecovery.LiveAnswerIsTheFirst | src/codex-exec/exec-jsonl-processor.js:31-87 | For every log the live processor announces, per turn, the last message before the first completion that has one |
| ExecRecovery.RecoveredAnswerIsTheLast | src/cli/run-stale-run-recovery.js:312-396 | Without interfering sub-agent events the crash side finds the last message before the last completion, and none if the turn failed after it |
| ExecRecovery.AnswersAgreeExactly | src/cli/run-stale-run-recovery.js:312-396 | The two answers agree if and only if none was announced, or the turn's last terminal event is a completion whose last message is the announced one |
| ExecRecovery.CrashFindsTheLiveAnswer | src/cli/run-stale-run-recovery.js:312-414 | If each turn has at most one terminal event the crash side finds exactly the announced answer and flag |
| ExecRecovery.CompletedMeansAnswered | src/cli/run-stale-run-recovery.js:467-471 | A run is recovered as completed if and only if its last turn's last terminal event is a completion with a message before it |
| ExecRecovery.CompletedAgain | src/cli/run-stale-run-recovery.js:372-387 | For every log whose turn completes again after an answer the two sides agree if and only if the agent's last words are the same at both completions |
| ExecRecovery.SecondCompletionDiffers | src/cli/run-stale-run-recovery.js:372-387 | One such log in which the two sides differ |
| SubAgentLogs.CrashAnswerIsTheSeenOne | src/cli/run-stale-run-recovery.js:312-396 | For every log, sub-agent events of all kinds included, the crash side answers as the deciding line says of what it takes for the run's turns and messages |
| SubAgentLogs.AnswersAgreeInGeneral | src/cli/run-stale-run-recovery.js:312-396 | For every log the two sides agree if and only if the deciding line says the message before the first answered completion of the run's own turn |
| SubAgentLogs.StartsHideTheAnswerExactly | src/cli/run-stale-run-recovery.js:364-371 | If sub-agents only start turns and the run's turns end at most once: agreement if and only if nothing was announced or no sub-agent started a turn after the announced message was said |
| SubAgentLogs.EndsReplaceTheAnswerExactly | src/cli/run-stale-run-recovery.js:372-387 | If sub-agents only end turns and the run's turns end at most once: agreement if and only if the last end of a turn is the run's own, or the last message before it, where it counts as completed, is the announced one |
| SubAgentLogs.ConclusionsReplaceTheAnswerExactly | src/cli/run-stale-run-recovery.js:340-363 | If sub-agents only say final messages and the run's turns end at most once: agreement if and only if nothing decides, or the run's own end decides and no final message with other words came after the agent's last words, or a late one repeats the announced message |
| ExecRecovery.SubAgentTurnDiffers | src/cli/run-stale-run-recovery.js:336-371 | One log in which a sub-agent's turn start hides the announced answer |
| UpdateOffsets.Poller.ProcessUpdates | src/cli/run-update-processing.js:449-529 | The loop saves offsets and handles updates one by one, up to the first failure, and returns the offset after the last; the poll cycle and the bootstrap likewise do exactly their step of the model |
| UpdateOffsets.StepsAreSafe | src/cli/run-update-processing.js:449-529 | The invariant of server, gateway, batch and history holds after every sequence of arrivals, fetches, failures, stops and restarts |
| UpdateOffsets.NoUpdateIsLost | src/cli/run-update-processing.js:449-529 | In every reachable state an update at or above the bootstrap offset is handled or still with the server, it is handled if below the saved offset, and no offset sent exceeds the saved one |
| UpdateOffsets.FetchBringsTheNext | src/cli/run-update-processing.js:449-529 | A fetch brings the next updates in order, none below the current offset or forgotten and none left out between; none at all exactly if there is none |
| UpdateOffsets.GoodBatchIsHandled | src/cli/run-update-processing.js:449-529 | A batch without failures is handled as a whole, its last offset is saved and the next fetch starts behind it |
| UpdateOffsets.BootstrapStarts | src/cli/run-update-processing.js:54-76 | A bootstrap takes up the saved offset and drops nothing; without one it saves the offset behind the last waiting update, which together with those before counts as dropped |
| UpdateOffsets.RestartTakesUpTheSavedOffset | src/cli/run-update-processing.js:54-76 | A restart with a saved offset forgets the batch, and the next fetch brings every update from that offset on that the server still has |
| UpdateOffsets.NothingIsDroppedLater | src/cli/run-update-processing.js:54-76 | Once an offset is saved no step drops updates |
| UpdateOffsets.EachOffsetWasSaved | src/cli/run-update-processing.js:449-529 | In every run each update that counts and lies below the saved offset had its own offset saved at some time |
| UpdateOffsets.SavedOffsetGoesBackExactly | src/cli/run-update-processing.js:524-526 | In every run a step lowers the saved offset if and only if it saves the first update of a batch and that lies below the saved offset, and the offset it goes back to was saved before |
| UpdateOffsets.RefetchReplays | src/cli/run-update-processing.js:449-529 | A batch that fails after at least one save is fetched again and saves its first update again; the offset goes back if and only if at least two were saved |
| UpdateOffsets.SavedOffsetIsNotMonotone | src/cli/run-update-processing.js:524-526 | A run from the initial state in which the saved offset is 7 and then 6 |

## Left out

- RolloutReader.ReadRolloutDelta: decoding bytes as UTF-8 and trimming are an uninterpreted function of a line's bytes; the file operations that can throw are not modelled.
- RolloutFollow.FollowIsExact: a file that is truncated while it is followed is only modelled as the reader's restart at offset 0.
- RolloutReplay.VerdictIsTheLastWord: lines are parsed events, ids are taken as trimmed, and the thread id is constant within one reading.
- RunTokenUsage.UsageTelescopes: cumulative readings are complete and nondecreasing, and a usage reported with a domain's first reading for a running turn is contained in it in all counts or in none; UsageOfAnyDomains says what the total is otherwise.
- TokenUsage.NormalizingIsIdempotent: counts are natural numbers; truncation and rounding of floating-point values are not modelled.
- Utf8Tail.StderrTail.RememberTail: lines are taken without their trailing white space.
- AppServerRun.SettlementIsSound: startup is reduced to its failures, its goal call and what its responses assign; the fallback that sends the initial input again is not modelled.
- AppServerRun.Runner.FailRun: rejecting leaves an armed completion timer behind, as in the code; it is harmless because settlement happens once.
- SteerQueue.InputsAreConserved: the law is about the runner's own queue, not about a pool that retries a steer on top of it; requestTurnInterrupt and requestThreadResume with their own retries are not modelled; a refresh is one step that works or fails.
- RunRecovery.Run.ExecuteRunAttempts: prompts, image paths and session patches are not modelled; what error texts say is given by four flags; which thread id a restart resumes is given by the script.
- RunRecovery.AttemptsAreBounded: terminates only if live steers are finitely many, which is what the code needs too.
- WorkerPool.SlotsAreSafe: progress messages, lifecycle promises and the deadline of the drain loop are not modelled; a start is known by a number where the code compares object identity.
- McpConfig.ReplaceMcpServerBlocks: a config is a sequence of classified lines; recognising headers in the text, carriage returns and quoting of table keys are not modelled.
- McpPreset.GeneratedPassesExactly: the validator's regular expressions are modelled as runs of equal argument strings in one line, and markers are looked for in names, commands and argument strings.
- ExecRecovery.CrashFindsTheLiveAnswer: it is about logs without sub-agent events that the crash side takes for the run's, the others are in SubAgentLogs; message texts are taken as trimmed, the log is complete up to the crash, and failing event callbacks of the live processor are not modelled.
- UpdateOffsets.NoUpdateIsLost: there is a single leader, and the server hands out pending updates in id order; forwarding and dispatching are one step that works or fails.
- The rollout-log side of the stale-run recovery (the legacy backend) and what recovery writes back to sessions: the fold over the exec log is the one modelled.
- The JSONL log mirror beyond truncateUtf8, the rollout lease and leadership, process spawning, shells, ssh, Docker probes, Telegram clients, control panels and texts: input and output, or user interface.
- Environment files, argument builders, host-id normalisation, queue backoff and hook counters: they would only add easy members.
- Real time: timers are steps that may happen at any moment, and no bound on time is stated.
