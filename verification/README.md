# Verified model of Emelex's durable log, agent turn and tooling cores

Emelex runs language models on a local machine and keeps long agent sessions in a durable store. This project
models the parts of it whose correctness spans many operations, and proves what they promise.

**The session log and its compactions** (`Records`, `Turns`, `Transcript`, `Store`, `Ledger`, `Integrity`,
`Replays`, `Protocol`, `Safety`, `Retries`, `CounterRun`, `Effects`, `Journal`, `Database`). Sessions hold events in atomic turns; a client
holds a session through a lease with a token and a deadline; compaction jobs summarise a prefix of the log. `Store`
gives each transaction as a function from rows to rows; `Database` is the store as an object whose methods rewrite its
tables in place, each proved to do what the function says; `Protocol` is the step machine of clients, workers and
database in which the time of every step is an arbitrary input; `Safety` and `Retries` speak of whole runs. `Effects`
says of each transaction when it succeeds and what it has then done, in terms a caller can observe, and `Journal` that
the log of a session is, in every run, exactly what was written to it.

The step that retries a failed compaction does not repeat the two tests that queueing makes. The model keeps the step
as the code has it. `CounterRun` is a run that ends in a session which replay rejects as corrupt, and
`Retries.RetryBreaksIffUnguarded` says exactly when a retry opens the way to that error: when another boundary of the
session is active, or a completed summary lies after the job's boundary. Both can be looked up before the retry.

**The agent turn** (`Conversation`, `Agent`, `Client`). A turn alternates model rounds and tool batches. The event sink,
durable checkpoints, cancellation, the model's stream, the tools, approvals and the UUID generator are one arbitrary
sequence of answers, so every mix of failures is covered. The environment also records what it was made to do: the
text shown, the tools entered and how each ended, the batches stored. What a turn leaves in the history is compared
with that record, in both directions: what is stored is what was shown and what the tools answered, and a turn that
gives no answer had a reason.

**Smaller cores.** `Replacement` (replacing a file by swapping entries), `Wildcard` (pattern matching by rows),
`Capture` (bounded output), `Schedule` (coprime strides), `Tensors` and `Stripping` (tensor files), `Migration`
(identities of migrated rows).

Conventions: identifiers are natural numbers that stand for UUIDs in text order, and a generator never repeats one;
times are integers; SHA-256, the text of a UUID, the JSON text of a tensor header and the names of temporary files are
arbitrary functions; the hypotheses `HashesStream` (a digest is the SHA-256 of the encoded stream) and `JsonCodec`
(decoding restores what was encoded and refuses repeated names) are stated where they are used. The words of an agent's
notices are a parameter of what is said about results; the constructor of a session sets them to the program's own.

## Model

| member | source | states |
|---|---|---|
| Safety.GuardedRunsReplay | src/memory.rs:5278-5295 | in every run whose retries repeat the queue's tests, completed compactions form a chain t1 < s1 <= t2 < s2 ..., at most one job is active, and replay answers the effective transcript in whole turns, or its size limit, and never corruption |
| Retries.EveryRunReplays | src/memory.rs:5235-5317 | in every run of the code as it is, retries unguarded, replay is refused for a second summary in its tail, by the size limit, or not at all: then it is the effective transcript in whole turns |
| Safety.NoLostUpdate | src/memory.rs:1377-1520 | in every run, a turn that is appended extends exactly the event list its holder last replayed or wrote, whatever expired, was renewed or was compacted in between |
| Safety.LiveClaimExcludes | src/memory.rs:1169-1249 | while a claim is live, only an append with the stored token changes the session's events, and nothing deletes the session |
| Safety.RetiredTokenIsRefused | src/memory.rs:4867-4900 | a token that was replaced or cleared never again validates, renews, releases, replays or appends, however the run goes on |
| Safety.JobRowsStayValid | src/memory.rs:187-233 | in every run, retries of any kind included, job rows satisfy the four-state CHECK, decode, and have at most three failures, two while active |
| Safety.RunKeeps | src/memory.rs:1169-2405 | every run keeps the store invariant, and every guarded run keeps the chains |
| Journal.LogIsWhatWasWritten | src/memory.rs:1377-1520 | in every run the events of a session are, in order and with kind, text and metadata, exactly the inputs of the appends to it that succeeded and the texts of the compactions of it that completed |
| Journal.DeletedForGood | src/memory.rs:1905-1959 | in every run a session that was deleted never appears again |
| Effects.StartGivesEmpty | src/memory.rs:1102-1136 | a new session is empty, replays as nothing and can be claimed; every other row is as before |
| Effects.ClaimEffect | src/memory.rs:1169-1249 | a claim succeeds exactly on a session of the workspace that nobody holds; for five minutes its token alone is admitted, and from then on anybody may claim |
| Effects.RenewEffect | src/memory.rs:1260-1282 | a renewal succeeds exactly for the stored token and lasts five more minutes |
| Effects.ReleaseEffect | src/memory.rs:1289-1307 | a release succeeds exactly for the stored token, frees the session for anybody at once, and changes nothing when repeated |
| Effects.ReplayEffect | src/memory.rs:1321-1333 | a replay is answered exactly under a live claim of the workspace, unless its tail has a second summary or is over the size limit, and moves the cursor to the end of the log |
| Effects.AppendTurnEffect | src/memory.rs:1377-1520 | an append succeeds exactly for an admissible turn under a live, replayed claim whose cursor is at the end of the log; every other row is as before |
| Effects.TurnCarries | src/memory.rs:1410-1452 | the i-th event appended carries the kind, text and metadata of the i-th input, numbered on from the log |
| Effects.AppendEventEffect | src/memory.rs:1766-1849 | a single append succeeds exactly on a session that nobody holds, and the log grows by an event with the input's kind, text and metadata |
| Effects.TitleEffect | src/memory.rs:1680-1718 | a session is retitled exactly when nobody holds it, and can then be claimed |
| Effects.DeleteEffect | src/memory.rs:1905-1959 | a deletion succeeds exactly on a session without live claim and live worker; the session and its jobs are then gone and every other session and job is as before |
| Effects.QueueEffect | src/memory.rs:1967-2065 | the answer is the row of the boundary, either the one there was or the only row added, pending; no session changes |
| Effects.QueueSucceedsIff | src/memory.rs:1967-2065 | queueing succeeds exactly at the end of a whole turn where no other boundary is active and no summary lies after it |
| Effects.ClaimsOldest | src/memory.rs:2076-2143 | a claim takes the eligible job with the least creation time, for five minutes, and takes none only if none is eligible |
| Effects.WorkerEffect | src/memory.rs:2175-2309 | only the worker that holds a job renews it, for five minutes, or releases it, after which it can be claimed at once |
| Effects.FailureEffect | src/memory.rs:2214-2279 | a failure is recorded exactly for the worker that holds the job; the job then waits half a minute or a minute, or is over |
| Effects.CompleteEffect | src/memory.rs:2317-2405 | a completion succeeds exactly for the worker that holds the job before its deadline on a session that nobody holds; the log grows by a summary with the given text |
| Effects.RetryEffect | src/memory.rs:2993-3024 | a retry succeeds exactly on a failed job, which starts anew and can be claimed at once |
| Retries.RetryBreaksIffUnguarded | src/memory.rs:2993-3024 | after a retry some guarded continuation puts a second summary in the replay tail if and only if another boundary is active or a summary lies after the job's boundary |
| Retries.SecondSummaryIsCorrupt | src/memory.rs:5278-5295 | replay of such a state is the second-summary error, or the size limit if that is met first |
| Retries.ChainsExcludeSecondSummary | src/memory.rs:5278-5295 | no state with the chain has a second summary in a replay tail |
| Retries.LeadToHeld | src/memory.rs:2076-2143 | repeated claims reach every eligible job, because each one starts an eligible job and recovery makes none eligible |
| Retries.FailureOutcome | src/memory.rs:4337-4378 | the third failure or a permanent one ends a job; any other returns it with a deadline at most a minute away; the row stays valid |
| CounterRun.UnguardedRetryCorrupts | src/memory.rs:2993-3024 | a concrete run, first compaction failed, second completed, first retried and completed, ends in corruption reported by replay |
| Integrity.RetryKeepsIffGuarded | src/memory.rs:2993-3024 | a retry keeps the chains if and only if both of the queue's tests hold for the job |
| Integrity.DbAppendTurn | src/memory.rs:1346-1520 | appending a turn keeps events numbered, distinct and in whole turns, job rows tied to their prefix, and the chains |
| Integrity.DbAppendEvent | src/memory.rs:1766-1849 | appending one event keeps the same |
| Integrity.DbQueue | src/memory.rs:1967-2065 | queueing keeps boundaries unique, sources equal to the prefix's fingerprint, one active job and the chains |
| Integrity.DbClaimJob | src/memory.rs:2076-2143 | claiming, with its bounded recovery, keeps the invariant and the chains |
| Integrity.DbFail | src/memory.rs:2214-2279 | recording a failure keeps the invariant and the chains |
| Integrity.DbComplete | src/memory.rs:2317-2405 | completing, also under an expired claim that was not cleared, keeps the invariant and the chains |
| Integrity.DbRecoverAll | src/memory.rs:2153-2165 | recovering every expired claim keeps the invariant and the chains |
| Integrity.DbDelete | src/memory.rs:1905-1953 | deleting a session with its jobs keeps the invariant and the chains |
| Integrity.DeleteSparesWorkers | src/memory.rs:1934-1953 | a session with a live worker is not deleted, and the answer is the latest deadline of its workers |
| Integrity.ProvenanceOk | src/memory.rs:5105-5185 | on well-formed events a fingerprint succeeds exactly at a boundary between whole turns, with the prefix's source |
| Integrity.SummaryAfterMeaning | src/memory.rs:2021-2033 | the queue's summary test holds exactly when every completed compaction ends at or before the boundary |
| Integrity.BlockedMeaning | src/memory.rs:1982-1997 | the queue's active-job test holds exactly when no other job of the session is active |
| Integrity.RecoverRows | src/memory.rs:4413-4448 | bounded recovery changes only expired running rows, each into the row one failed attempt leaves |
| Replays.ReplayNeverCorrupt | src/memory.rs:5235-5317 | where the chain holds, replay returns the latest summary followed by every later event that is not a summary, once, in order, in whole turns |
| Replays.TailHasOneSummary | src/memory.rs:5278-5295 | after the latest boundary there is one summary, the compaction's own |
| Replays.SourceDetectsChange | src/memory.rs:5123-5153 | any change to a covered event changes the recorded source, short of a SHA-256 collision |
| Replays.ReplayRejectsChangedSource | src/memory.rs:5254-5265 | replay refuses a compaction whose source no longer matches the transcript |
| Protocol.StepKeeps | src/memory.rs:1169-2405 | each of the seventeen steps keeps the invariant over rows, leases, workers and what each holder has seen |
| Protocol.AppendExtendsSeen | src/memory.rs:1396-1404 | the cursor test makes the stored list equal to the list the holder saw |
| Turns.CheckersAgree | src/memory.rs:5049-5103 | the streaming checker ends with no open turn exactly on concatenations of complete turns, which the slicing checker accepts too |
| Turns.ValidateReplayTurns | src/memory.rs:5319-5356 | the slicing loops accept a list if and only if it is cut into complete turns |
| Turns.ProvenanceTurn.Validate | src/memory.rs:5057-5103 | the mutating checker takes the specified transition or reports the error |
| Turns.WholeTurnsAreConcatenations | src/memory.rs:5319-5356 | greedy cutting accepts exactly the concatenations of complete turns |
| Transcript.EncodingInjective | src/memory.rs:5123-5153 | equal byte streams come from the same session, boundary and events, column by column |
| Transcript.EncodeSnoc | src/memory.rs:5131-5153 | the stream grows by one event's encoding per row |
| Database.HashRows | src/memory.rs:5125-5166 | the hashing loop succeeds exactly on rows numbered from 1 that form whole turns, with the SHA-256 of the encoded stream |
| Database.MemoryStore.SourceThrough | src/memory.rs:5105-5185 | the fingerprint of a session's prefix, or its error |
| Database.MemoryStore.LoadSessionReplay | src/memory.rs:5235-5317 | the object's replay is the specified one |
| Database.CollectRows | src/memory.rs:5283-5308 | the replay loop takes rows while they fit, decode and are allowed |
| Database.MemoryStore.StartSession | src/memory.rs:1102-1136 | a new unclaimed session; the invariant is kept |
| Database.MemoryStore.ClaimSession | src/memory.rs:1169-1249 | claims a session that is not live, with its cursor at the end of the log; the invariant is kept |
| Database.MemoryStore.RenewSession | src/memory.rs:1260-1282 | renews under the stored token, expired or not |
| Database.MemoryStore.ReleaseSession | src/memory.rs:1289-1307 | clears the claim under the stored token, once |
| Database.MemoryStore.ReplaySession | src/memory.rs:1321-1333 | replays under a live claim and moves the lease's cursor |
| Database.MemoryStore.AppendTurn | src/memory.rs:1377-1520 | appends all rows of a turn or none, with every check in order, and moves the cursor; the log is then the old one followed by one event per input with its kind, text and metadata |
| Database.PrepareTurn | src/memory.rs:4913-4944 | accepts exactly turns of admissible kinds and sizes |
| Database.BuildTurn | src/memory.rs:1410-1452 | one row per input, carrying its kind, text and metadata under its identifier, or the sequence overflow |
| Database.MemoryStore.AppendEvent | src/memory.rs:1766-1849 | appends one event to a session that is not live and clears an expired claim |
| Database.MemoryStore.SetSessionTitle | src/memory.rs:1680-1718 | refuses a live session and clears an expired claim |
| Database.MemoryStore.DeleteSession | src/memory.rs:1905-1959 | succeeds exactly without a live claim or worker, and refuses with the deadline otherwise; then the session and its jobs are gone and nothing else changed |
| Database.MemoryStore.QueueCompaction | src/memory.rs:1967-2065 | the tests and the insertion, in order, and the row of the boundary as the answer |
| Database.MemoryStore.ClaimCompaction | src/memory.rs:2076-2143 | at most 128 recoveries, first deadline first, then the oldest eligible job |
| Database.MemoryStore.RecoverOne | src/memory.rs:4413-4448 | finds a claim to recover exactly when one has expired |
| Database.MemoryStore.RecoverStale | src/memory.rs:2153-2165 | the loop ends, having recovered exactly the expired claims, each once, and counted them |
| Database.MemoryStore.RenewCompaction | src/memory.rs:2175-2203 | extends the lease of the running claim |
| Database.MemoryStore.RecordFailure | src/memory.rs:2214-2279 | records a bounded diagnostic under the running claim |
| Database.MemoryStore.ReleaseCompaction | src/memory.rs:2289-2309 | returns the job to the queue under the running claim |
| Database.MemoryStore.ValidateCompactionLease | src/memory.rs:4466-4510 | the checks of a completing worker, source included |
| Database.MemoryStore.CompleteCompaction | src/memory.rs:2317-2405 | appends the summary and finishes the job in one step, unless the session is live |
| Database.MemoryStore.RetryFailedJob | src/memory.rs:2993-3024 | puts a failed job back as pending with a clean record |
| Conversation.ValidateHistory | src/agent.rs:3199-3261 | the scan accepts exactly the accepted histories within the message limit and returns the identifiers issued |
| Conversation.IssueCalls | src/agent.rs:3228-3238 | registers the calls of a message, or finds a repeated identifier |
| Conversation.AcceptedMeans | src/agent.rs:3199-3261 | accepted means: every message well formed, no call issued or answered twice, every result after its call, nothing else before all calls are answered, and every call answered |
| Conversation.EachCallAnswered | src/agent.rs:3199-3261 | in an accepted history each call has exactly one result, after it, with only results in between |
| Agent.AgentSession.RunMessage | src/agent.rs:1776-1956 | every turn ends, after at most the configured number of model rounds, or one more than the tool-output budget has bytes; however it ends, the old history is a prefix of the new one, which is still accepted and equals what was stored; issued identifiers are the calls in it; no call is entered twice; if no checkpoint failed in the turn every call entered is recorded with exactly one result; every result tells what became of its call, the tool's own words unless the batch was cut short; the assistant's messages say what the rounds showed, in order; the results of a finished turn are within the limit of one output and together within the budget; the history gained an answer exactly when the turn finished, announced or not, and that answer is what was shown; and a turn without one had an inadmissible input, used up its rounds, or met a refusal, a cancellation, a repeated UUID, a stream that cannot be accepted, or a tool that failed, was interrupted or answered too much |
| Agent.AgentSession.OpenTurn | src/agent.rs:1788-1803 | a turn is announced unless its input is inadmissible or something refuses |
| Agent.AgentSession.RunRounds | src/agent.rs:1820-1955 | the loop over rounds ends, because each round that goes on uses up tool-output budget |
| Agent.AgentSession.RunRound | src/agent.rs:1820-1955 | one round keeps the turn's invariant and record; if the turn goes on, the round used tool-output budget and was not the last allowed; if it ends, it ended as the committed messages say, and without an answer only for a reason |
| Agent.AgentSession.ActOn | src/agent.rs:1851-1955 | a response without calls finishes the turn, one with calls runs its batch, and the finish reason must agree, which it does in a stream that can be accepted |
| Agent.AgentSession.RunBatch | src/agent.rs:1907-1955 | a batch is committed whole, with the calls it entered, or not at all; its message says what the round showed and its results tell what became of the calls; none of its calls was entered before; a batch after which the turn goes on added at least one byte of tool output, and it fails only for a reason |
| Agent.AgentSession.CommitBatch | src/agent.rs:1937-1950 | a batch that cannot be stored leaves history and identifiers as they were; a stored one is appended whole |
| Agent.AgentSession.FinishTurn | src/agent.rs:1867-1903 | the answer is in the history whenever the turn is announced or only its announcement failed, and its text, calls and, where it is kept, reasoning are the response's; it is not there when it could not be stored, and that alone fails |
| Agent.AgentSession.ExecuteToolBatch | src/agent.rs:2277-2405 | a batch to be stored has one result per call in call order, and each tells what became of its call; otherwise no tool was entered, unless a checkpoint failed; no call is entered twice; a batch that runs to its end is charged exactly its results; it is cut short only by a refusal, a cancellation, a tool that failed or was interrupted, or an output over its limit |
| Agent.AgentSession.SettleFailure | src/agent.rs:2334-2395 | the failed call gets the result it has, or the notice that an effect may have occurred exactly if one is possible, and otherwise that it was not executed; every later one the notice that it was not executed; or nothing has to be stored |
| Agent.AgentSession.EndBatch | src/agent.rs:2303-2331 | after a call that ends the batch every later one gets the notice that it was not executed |
| Agent.AgentSession.ExecuteToolCall | src/agent.rs:2411-2583 | only a registered and enabled tool is entered, after its start was stored, and one that is not entered was refused by someone; a failure without effect and without result entered no tool; the result always fits the history and tells what became of the call; a call ends the batch only for a reason |
| Agent.AgentSession.ScreenCall | src/agent.rs:2424-2523 | a call is refused for the reason it names: unknown, not enabled, arguments, or a denial; a registered and enabled tool whose arguments fit and which nobody denies is cleared |
| Agent.AgentSession.EnterTool | src/agent.rs:2524-2582 | the result of a tool that answered is its answer; one that was interrupted or failed is reported as such |
| Agent.AgentSession.ApproveTool | src/agent.rs:2585-2651 | a call is let through exactly if the tool needs no approval or the policy allows it, unless something refuses; a denial is passed on in the policy's words; a checkpoint failure is reported as one |
| Agent.Environment.Invoke | src/agent.rs:2533-2554 | a tool is entered only for a call whose batch plan and start are stored and which is permitted |
| Agent.AgentSession.FinalizeToolOutput | src/agent.rs:2653-2728 | the recorded result is the tool's output, or `(no output)` for an empty one, and is charged exactly; exactly an output over its limit or over the turn's budget becomes a notice that ends the batch; the result is kept when only the event sink fails |
| Agent.AgentSession.StreamModelRound | src/agent.rs:2011-2199 | a round that succeeds has shown deltas that add up to its text and reasoning, keeps the terminal calls in order under fresh identifiers, and charges the turn exactly its output and arguments; a contradiction is reported only of a stream that has one; and a round fails only on a stream that cannot be accepted, a refusal, a cancellation or a repeated UUID |
| Agent.AgentSession.ReidentifyCall | src/agent.rs:2201-2271 | an accepted call gets a UUID used neither in the history nor in the turn, within the budgets |
| Agent.AgentSession.TakeItem | src/agent.rs:2033-2105 | the round follows the stream item by item |
| Agent.AgentSession.ShowRest | src/agent.rs:2113-2158 | the suffix completes what was shown, or the deltas were no prefix |
| Agent.ValidateTerminal | src/agent.rs:2909-2973 | the loop accepts exactly the admissible terminal responses |
| Agent.AppendDelta | src/agent.rs:2881-2907 | a delta is added exactly when the whole output stays within its own budget and the turn's total within the turn's; the total then grows by exactly what the output grew |
| Agent.AnswerMessageOk | src/agent.rs:2786-2803 | the message made of a round's answer passes the check on histories |
| Agent.AnswerPage | src/agent.rs:2786-2803 | the message made of a response has its text, its calls and, exactly where it is kept, its reasoning |
| Agent.NextTakable | src/agent.rs:2033-2105 | every item of a stream that can be accepted is taken when its turn comes |
| Agent.TellBatch | src/agent.rs:1936-1951 | a committed batch leaves what earlier results tell as it was and adds results that tell what became of its own calls |
| Agent.AcceptBatch | src/agent.rs:1936-1951 | a call message followed by its results in order keeps a history accepted and adds exactly its calls |
| Agent.CalledIsSettled | src/agent.rs:1936-1951 | a call recorded in an accepted history has exactly one result |
| Client.StreamJob | src/client/mod.rs:463-540 | a stream that delivers its terminal response has delivered its whole answer and all of its calls; with room enough and a reply that extends the text sent it ends in that reply, and with any other outcome in an error |
| Client.FedRound | src/agent.rs:2113-2179 | fed by that stream, the answer-prefix and call-equality checks never fail |
| Client.OnToken | src/client/mod.rs:476-501 | while the channel is open, the text sent is the text recorded, and generation goes on exactly while there is room |
| Client.SendTerminal | src/client/mod.rs:521-529 | the calls and then the response, or a prefix of them when the receiver has gone |
| Client.StreamTextReconciler.TerminalSuffix | src/client/mod.rs:206-212 | what was recorded and the suffix make the terminal text, or it is no prefix |
| Replacement.AtomicReplace | src/agent/workspace.rs:392-432 | others may change the target while the new file is prepared; after every system call, whatever fails, the target names the file found there or the complete new one, a file that is not the opened one is never lost, and no other name changes; success means the opened file was replaced, and failure that a call failed, the target found was not the opened file, or every temporary name tried was taken |
| Replacement.StageFile | src/agent/workspace.rs:397-415 | preparing the new file never touches the target, and fails only if a call fails or every name is taken |
| Replacement.ReplaceExistingWithSwap | src/agent/workspace.rs:510-580 | the same for the swap, and that removing the temporary file later is safe whenever it is still armed; it fails only if a call fails or the file found is not the opened one |
| Replacement.RollbackOrPreserve | src/agent/workspace.rs:582-610 | either the swap is undone, or cleanup is disarmed |
| Replacement.Install | src/agent/workspace.rs:417-423 | swap or exclusive rename, then cleanup; it fails only if a call fails or the target found is not the expected one |
| Replacement.CreateSiblingTemp | src/agent/workspace.rs:434-508 | takes a free name and touches no other; it fails only if a call fails or all names tried are taken |
| Replacement.PendingTemp.Drop | src/agent/workspace.rs:749-766 | removes the armed name only |
| Wildcard.WildcardMatches | src/agent/workspace.rs:2176-2196 | true exactly when the value splits into one piece per pattern token |
| Wildcard.StarUnfolds | src/agent/workspace.rs:2186-2191 | the recursive reading of a star holds of that definition |
| Wildcard.MatchesSnoc | src/agent/workspace.rs:2181-2194 | the last piece may be taken off as well as the first, which is what the rows compute |
| Capture.CappedOutput.Push | src/agent/workspace.rs:1835-1851 | what is kept depends on the whole stream only: its first half-limit bytes and the last bytes of the rest |
| Capture.CappedOutput.Omitted | src/agent/workspace.rs:1853-1868 | kept plus omitted is the stream; within the limit nothing is omitted |
| Capture.NothingDropped | src/agent/workspace.rs:1853-1858 | head and tail make the stream exactly when it fits the limit |
| Schedule.BalancedCellOrder | examples/mtp_bench.rs:150-163 | for every cell count and sweep the order visits each cell exactly once, with the stride the sweep selects, and no product overflows |
| Schedule.Gcd | examples/mtp_bench.rs:141-148 | the loop computes Euclid's gcd |
| Schedule.GcdGreatest | examples/mtp_bench.rs:141-148 | every common divisor divides the gcd |
| Schedule.GcdBezout | examples/mtp_bench.rs:141-148 | the gcd divides both numbers and is a combination of them |
| Schedule.CellInjective | examples/mtp_bench.rs:160-162 | two positions never reach one cell |
| Tensors.WriteThenRead | tools/mtp_fixture_strip.py:61-81 | writing and reading back restores the contents exactly when they are writable, and is refused otherwise |
| Tensors.AcceptedFile | tools/mtp_fixture_safetensors.py:86-133 | in an accepted file each payload byte lies in exactly one tensor, and names are distinct |
| Tensors.ReadSafetensors | tools/mtp_fixture_safetensors.py:62-133 | the reader accepts exactly well-described entries that tile the payload |
| Tensors.CoversPayload | tools/mtp_fixture_safetensors.py:124-132 | the cursor over sorted ranges finds a tiling exactly when one exists in some order |
| Tensors.WriteSafetensors | tools/mtp_fixture_strip.py:61-81 | the file with recomputed offsets |
| Tensors.TilesExactly | tools/mtp_fixture_safetensors.py:124-132 | a tiling covers each byte once and nothing outside |
| Stripping.Strip | tools/mtp_fixture_strip.py:103-215 | succeeds exactly when there are shards, all accepted, owners unique, the index right, rewritten headers within the limit and all tensors to remove present; then every other tensor survives in place, bytes are conserved and the new index describes the new shards |
| Stripping.CheckIndex | tools/mtp_fixture_strip.py:133-161 | accepts exactly an index that names each tensor's shard and, if it gives a total, the right one |
| Stripping.RewriteIndex | tools/mtp_fixture_strip.py:200-215 | the index without the removed tensors names exactly the surviving owners and bytes |
| Stripping.StripShard | tools/mtp_fixture_strip.py:163-185 | a rewritten shard always reads back as its surviving tensors |
| Stripping.ClaimUniqueOwnership | tools/mtp_fixture_safetensors.py:153-165 | refuses exactly the shards that repeat an owned tensor |
| Stripping.BytesConserved | tools/mtp_fixture_strip.py:166-171 | bytes kept and bytes removed are all the bytes |
| Migration.KnowledgeTable.Disambiguate | src/memory.rs:4564-4614 | keeps every row, ends with all identities distinct, and moves exactly the rows that are not first in their clash group |
| Migration.FindInode | src/memory.rs:4588-4605 | the wrapping probe ends at a free inode |
| Migration.OneLeader | src/memory.rs:4568-4577 | each clash group has exactly one row that keeps its identity, the one updated last and among those the one with the greatest identifier |

## Left out

- SQLite, file permissions, locks, write-ahead logging and schema text: each transaction is one atomic step on maps and sequences, and its queries are first-order conditions on them.
- The adapter, assets and lifecycle tables of the store (pending tool batches, active turns, distillation), session titles and workspace paths as text.
- Binding a session to a model, periodic maintenance and dropping a lease object: their effect on claims, jobs and sessions is that of the title, recovery, deletion, release and failure steps.
- Overflow of deadlines, and ties in `updated_at` where boundaries are unique anyway.
- Checks that identifiers and digests are well-formed text when rows are decoded, and white space outside ASCII in job diagnostics.
- Retries.RetryBreaksIffUnguarded: asks for room for two more events below the largest sequence number, because a full log refuses every summary.
- Replays.SourceDetectsChange: speaks of fields whose length fits 64 bits and of a pair of streams on which SHA-256 does not collide.
- Agent.AgentSession.StreamModelRound: a model stream is a finite list, as it is when the generation behind it ends.
- Agent.AgentSession.ExecuteToolCall: an interruptible tool that was cancelled before it began counts as entered.
- Agent.AgentSession.ScreenCall: a refusal reads as the notice followed by the tool's name or the policy's reason, without quotation marks; one that is itself over the output limit reads as the omission notice, which speaks of a possible effect though no tool was entered, as in the code.
- Client.FedRound: says nothing of the reasoning check, because the client forwards reasoning deltas without reconciling them.
- Replacement.AtomicReplace: others change the target until the exchange, not between the exchange and its rollback, and the target is not itself the name of a temporary file.
- Schedule.BalancedCellOrder: asks that the largest product of the walk fits a machine word.
- Stripping.Strip: leaves out copying the other files and the strip record; an index is its decoded content.
- Usage counters, generation options, schema checks of tool arguments, the request built for a model (with the joining of adjacent user messages), and the wording of errors.
- Knowledge search, distillation, configuration narrowing, conversion, the inference engine and its foreign calls, shell and web tools, and asynchronous runtime mechanics.
