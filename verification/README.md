# Verified model of the sb-manager-web task system

sb-manager-web is a controller that queues actions for managed servers and runs them: on its own host through a pool of
local workers, on remote hosts through Agents that send heartbeats, poll for work and report results. Tasks live in one
SQLite table. This project models the life of a task from the request to the last report, and the pure transformations
that the same path relies on, and proves what the system promises about them. `dafny verify dfyconfig.toml` checks all
of it.

## How the model is built

* `Types`, `Digits`, `Timestamps`, `Patterns`: records, stored time texts and their byte order, argument patterns.
* `TaskSpec`: what each store operation means on decoded records, and the arithmetic of batch failure rates.
* `Storage` (`Store.dfy`): a class with the rows of the task, server and enrollment tables. A row is the indexed columns
  beside the decoded record. Its methods have the branches, queries and loops of `internal/storage/store.go`, query by
  column and are proved against `TaskSpec`, so index agreement (`Valid`) is what makes them right.
* `Protocol`: the whole system as a machine. Handlers, workers, Agents, the network and crashes interleave; every call of
  the store is one event. A schedule is any list of events; an event that the state does not allow changes nothing.
  Replies that get lost, requests that arrive late and results that arrive twice are all schedules, so a statement about
  `Run` for every schedule covers every way in which these store calls can interleave.
* `Evolution`, `Invariants`, `Pool`, `Claims`, `Updates`, `Finality`: what each event keeps. `Theorems`, `Restarts`,
  `Batches`, `Cancellations`, `Expectations` and `WakeUps`: what holds in every run. `Counterexamples`: inputs at which
  plausible claims fail.
* `Ledger`: what each event does to one record, written out field by field, and the proof that the machine does that.
* `Controllers` (`Controller.dfy`): the handlers of `internal/api/server.go` as methods over the store; `AgentLoop`: the
  Agent of `internal/agent/agent.go` as a class. `HandlerSchedules` checks that the events of a handler, in sequence, come
  to what its method does, and `AgentLives` that the whole loop of an Agent, with anything else between its ticks, is a
  schedule of the machine.
* `Rollout`: the preflight report and the rollout of a batch action.
* `Redaction`, `Utf8`, `ShellQuoting`, `LoginThrottle`, `Enrollment`, `Decimals`, `ArgvEncoder`, `FieldTables`,
  `Commands`, `CommandDecoding`, `FieldFlags`: the transformations and the two other small protocols.

## Assumptions

* New identifiers are fresh: generated task ids and tokens, server ids at registration only where the code needs it
  (a collision there is modelled), and the `retry_` keys made from the clock.
* Encoding and decoding a record gives the record back; SQLite runs each transaction atomically; in `Protocol` and
  `Controllers` a store operation fails only for the reasons that the code tests.
* One process at a time opens the database. Every opening requeues the running tasks (`internal/storage/store.go:53`), and
  `sb-web init` and `sb-web reset-admin-password` open it too (`cmd/sb-web/main.go:198`, `800`). Run beside a working
  controller they would requeue tasks whose workers are alive, which the model does not contain: a restart always forgets
  the workers. The pool theorems, the finality of local results (also in `Finality.FinishedChangesOnlyByReport`), the bound
  on local starts, `WakeUps.NoWakeUpLost` and what is proved of local tasks whose cancellation was requested
  (`Theorems.RequeuedCancellationWaits`, `Cancellations.RequestStopsExactlyLocal`) rest on this.
* One Agent process at a time runs for each registered identity. Two processes could each hold a claim that a different
  restart took back, and `Restarts.StartsBetweenRestarts` would not hold.
* No Agent can authenticate as `local`, because that record has no public key; an authenticated Agent is its server.
  A digest stands for the state it was computed from.
* Agents report a non-empty version, which is the version they run; it may change at any restart of theirs.
* Clocks and generated identifiers are arguments. Where one call handles several rows, `when` gives the reading for each
  row. Stored times are civil UTC times with years up to 9999.
* What a command prints and whether it fails are arguments. In `Protocol` the texts of a report are the texts as stored,
  after redaction and truncation; `Controllers` shows where these come from.

## Claims that are false, and what holds instead

* "A finished task stays as it is." A remote one can change again, because the result handler does not look at the
  status (`Counterexamples.LateResultChangesStatus`). It changes only when a result for it is delivered, and the status
  stays exactly under the condition of `Finality.LateReportKeepsStatus`. Finished local tasks do not change
  (`Theorems.LocalResultsAreFinal`).
* "Between two restarts no task starts twice." A remote one can: its Agent still holds the claim that a restart took back
  (`Counterexamples.RemoteTaskStartsTwice`). That is exactly when (`Restarts.RemoteStartsOnceExactly`), it never happens
  more than twice (`Restarts.StartsBetweenRestarts`), and never to a local task (`Restarts.LocalStartsOnceWithoutRestart`).
* "A stopped batch stays stopped." A cancellation reopens one (`Counterexamples.CancelReopensBatch`).
  `Batches.StoppedBatchReopensExactly` says which events can and when they do. Before such an event, only tasks start
  that an Agent already held when the batch stopped (`Batches.OnlyHeldStartAfterStop`).
* "Older pending tasks are served first." Creation times are ordered as text without trailing zeros
  (`Counterexamples.NewerServedFirst`; `TaskSpec.ServedInCreationOrder` gives the exception exactly).
* "Looking up a key and inserting under it is one step." It is two transactions. Key uniqueness still holds
  (`Theorems.KeysAreUnique`), because the index decides.
* "A task whose cancellation was requested is not claimed." `ClaimTask` refuses it and `ClaimPendingTask` does not: a
  remote task starts after its cancellation was requested and a restart put it back (`Counterexamples.RequestedTaskStarts`).
  Of the pending tasks whose cancellation was requested, exactly the local ones are not claimed and not started again
  (`Cancellations.RequestStopsExactlyLocal`); these wait unchanged until they are canceled again
  (`Theorems.RequeuedCancellationWaits`). A request that comes between a local claim and the check of the batch does not
  stop the start either (`Cancellations.RequestBehindClaimStopsNothing`). Cancellation is final all the same: no such task
  can succeed (`Theorems.CancellationIsFinal`).

## Model

| member | source | states |
|---|---|---|
| Theorems.AtMostOncePerRestart | internal/storage/store.go:367-435 | in every run, a task is claimed and started at most once more than restarts requeued it; claims equal requeues while it is pending and exceed them by one while it runs |
| Theorems.AtMostOnceWithoutRestart | internal/storage/store.go:367-435 | a stretch without restarts does not raise the bound on all claims and starts: one more than the restarts before it requeued |
| Restarts.LocalStartsOnceWithoutRestart | internal/api/server.go:80-91 | between two restarts no wake-up, retry or resumption starts a local task a second time |
| Restarts.StartsBetweenRestarts | internal/storage/store.go:570-624 | between two restarts any task starts at most twice, and at most once unless someone holds a claim on it that a restart took back |
| Restarts.RemoteStartsOnceExactly | internal/agent/agent.go:361-415 | a startable task of a registered Agent, in a batch below the threshold, starts at most once in every such stretch exactly if its Agent does not hold, at the beginning, a claim that a restart took back |
| Counterexamples.RemoteTaskStartsTwice | internal/storage/store.go:396-435 | a run in which a remote task starts twice without a restart in between |
| Theorems.LocalConcurrencyBounded | internal/api/server.go:1961-1978 | in every run, at most `Concurrency` local tasks are running, each in the hands of exactly one worker past the claim |
| Theorems.LocalResultsAreFinal | internal/api/server.go:1980-1998 | a finished local record never changes again, whatever is scheduled afterwards |
| Theorems.CancellationIsFinal | internal/storage/store.go:507-539 | canceled is absorbing and implies the request; a request is never withdrawn and excludes success, in every continuation of every run |
| Theorems.RequeuedCancellationWaits | internal/storage/store.go:381 | a local task that a restart requeued after its cancellation was requested stays as it is through every continuation without another cancel, which ends it at once |
| Cancellations.RequestStopsExactlyLocal | internal/storage/store.go:570-624 | in every reachable state, a pending task whose cancellation was requested is not claimed, and not started, by any continuation without another cancel exactly if it is local; for remote ones: of a registered Agent, startable, in a batch below the threshold |
| Cancellations.RequestBehindClaimStopsNothing | internal/api/server.go:1961-1978 | a request between a local claim and the check of the batch leaves the start to the failure rate alone |
| Counterexamples.RequestedTaskStarts | internal/storage/store.go:396-435 | a run in which a remote task is put back with its cancellation requested, and a continuation without another cancel that starts it |
| WakeUps.NoWakeUpLost | internal/api/server.go:80-91 | in every run, a pending local task without a cancellation request has a worker on its way to the claim, or the handler that inserted it or the resumption after a start still owes its wake-up |
| Theorems.OnlyAnnouncedStateIsChanged | internal/agent/agent.go:375-401 | every execution of a task with an expected digest saw that digest at its check, and at a state before the execution a heartbeat of the same server had carried it and it had been stored |
| Theorems.AnnouncedByBeat | internal/api/server.go:2163-2168 | every stored digest was sent in a heartbeat of that server |
| Theorems.DriftStopsTasks | internal/agent/agent.go:375-381 | while the state stays away from a digest, no task queued against it runs under any schedule, and each one handed out is reported failed for drift |
| Expectations.RunsOnlyOnStateAtRequest | internal/api/server.go:1928-1940 | in every run, for every enqueued action, batch target and retry and whatever happens meanwhile, the task expects the state stored for its server when the request read it - nothing for an update or the local server - and the Agent runs it only on that state |
| Expectations.CheckPassesExactly | internal/agent/agent.go:375-381 | a task that was handed out passes the check exactly if it is an update, no state was stored at the request, or the Agent is in the state stored then; so a retry after a fresh heartbeat is not refused again |
| Expectations.HeardStateIsStored | internal/api/server.go:2160-2168 | a heartbeat that gets through stores the version, the features and the state that the Agent had when it sent it |
| Theorems.ConfirmedUpdatesFinish | internal/api/server.go:2165-2173 | once a heartbeat has succeeded, no update to its version is pending or running among all tasks stored when the controller confirmed it |
| Theorems.UpdatesConverge | internal/storage/store.go:629-677 | so once a heartbeat sent after some moment succeeds, every update of that moment to the running version is finished, however its result was lost, delivered or requeued |
| Theorems.PollFollowsHeartbeat | internal/agent/agent.go:180-190 | an Agent that a poll hands a task had an acknowledged heartbeat before it, which settled its updates |
| Theorems.KeysAreUnique | internal/storage/store.go:28 | in every run, one record per non-empty key, and one per batch and server, although lookup and insertion race |
| Theorems.RetriesCountNowhere | internal/storage/store.go:552-560 | a record that counts in a batch is a first attempt, so retries change no failure rate |
| Theorems.RetriesFormForest | internal/storage/store.go:541-561 | every record heads a chain of finished predecessors with the same server, action and arguments, one per earlier attempt, down to attempt 0 |
| Theorems.ReachableInv | internal/api/server.go:2126-2230 | every reachable state satisfies all invariants together |
| Ledger.RecordsFollowLedger | internal/storage/store.go:367-677 | in every state and for every event, each record becomes exactly what the field-by-field definition says, and a new record is exactly the waiting draft under a new id and a free key |
| Ledger.ConfirmationIsOwn | internal/storage/store.go:638-660 | in every run, a heartbeat changes a record only if it is an open update of the server that sent one with the version asked for |
| Ledger.SuccessIsEarned | internal/api/server.go:2189-2222 | in every run, a remote task is a success only if its own Agent reported success on it, or it is an update and its own Agent reported the version |
| Evolution.RunEvolves | internal/storage/store.go:445-465 | over any run records are never lost, keep their identity, and keep cancellation |
| Pool.StepKeepsPool | internal/api/server.go:1961-1978 | every event keeps the permit bound and the ownership of running local tasks |
| Claims.StepKeepsCount | internal/storage/store.go:367-435 | every event keeps the balance of claims and requeues |
| Updates.ConfirmationIdempotent | internal/storage/store.go:629-677 | confirming an update again, at any time, changes nothing |
| Updates.StepKeepsSettled | internal/api/server.go:2142-2173 | every event keeps acknowledged heartbeats settled |
| Finality.FinishedChangesOnlyByReport | internal/api/server.go:2209-2222 | a finished record changes in a step only if that step delivers a result for it, and then to what the result says |
| Finality.LateReportKeepsStatus | internal/api/server.go:2209-2222 | exactly when a late result leaves a finished status alone |
| Counterexamples.LateResultChangesStatus | internal/api/server.go:2209-2222 | a run in which a failed remote record becomes a success |
| TaskSpec.SnapshotVerdicts | internal/storage/store.go:595-618 | recounting every batch after each failed row gives the verdicts of the first snapshot |
| TaskSpec.RateMonotone | internal/storage/store.go:605-612 | one more failure never lowers the percentage in integer division |
| TaskSpec.ThresholdTestsAgree | internal/storage/store.go:562-569 | the test of `BatchShouldStop` and the inline test agree for every threshold, also below 1 and above 100 |
| Batches.TallyIsExact | internal/storage/store.go:562-569 | in every reachable state, how every event moves the completed and failed tasks of every batch |
| Batches.StoppedBatchReopensExactly | internal/storage/store.go:562-569 | in every reachable state, a stopped batch stays stopped unless the event finishes one of its open tasks as success or canceled or brings a late non-failure for a failed one; then it goes on exactly if the new rate is below the threshold |
| Batches.StoppedBatchStaysStopped | internal/storage/store.go:595-618 | so it stays stopped through every continuation without such an event |
| Batches.NothingStoppedStarts | internal/api/server.go:1968-1971 | in every run a command starts only for a task whose batch was below the threshold: a local one at its check, a remote one when the poll claimed it from which the starting Agent has held it ever since |
| Batches.OnlyHeldStartAfterStop | internal/storage/store.go:595-618 | from the moment a batch has stopped until an event may reopen it, no local task of it starts, and an Agent starts only the task of it that it held at that moment and ever since |
| Counterexamples.CancelReopensBatch | internal/storage/store.go:507-539 | for every threshold above 50 percent, a run of two servers and one batch that has stopped, and goes on when the pending task is canceled |
| TaskSpec.ServedInCreationOrder | internal/storage/store.go:576 | of two pending tasks the older is served first, except exactly when both lie in one second and its trimmed fraction is a proper prefix of the newer one's |
| Timestamps.StampOrder | internal/storage/store.go:75 | stored texts order like times, except exactly in that case, where they order the other way round |
| Counterexamples.NewerServedFirst | internal/storage/store.go:75 | two creation times whose tasks are served newer first |
| Storage.UpsertIsPut | internal/storage/store.go:332-346 | writing a record writes agreeing columns, and the key column is free exactly when no record has the key |
| Storage.PendingQuery | internal/storage/store.go:348-365 | the ordered query over the columns lists exactly the pending records that a scan finds, in stored order |
| Storage.RunningQuery | internal/storage/store.go:399-435 | rewriting the rows that the status column finds requeues exactly the running records |
| Storage.Store.BatchCounts | internal/storage/store.go:567 | the two sums over the columns count exactly the failed and the completed records |
| Storage.Select | internal/storage/store.go:405 | a query returns exactly the rows that satisfy its condition, each once |
| Storage.SelectByCreated | internal/storage/store.go:349 | and with ORDER BY in the order of the creation texts |
| Storage.Store.PutTask | internal/storage/store.go:336-346 | inserts or updates unless another row holds the key; keeps index agreement |
| Storage.Store.ListPendingTaskIDs | internal/storage/store.go:348-365 | lists exactly the pending records of a server in stored order |
| Storage.Store.ClaimTask | internal/storage/store.go:367-395 | succeeds exactly for a pending record without a cancellation request, which alone becomes running |
| Storage.Store.RecoverRunningTasks | internal/storage/store.go:399-435 | requeues every running record and changes no other |
| Storage.Store.UpdateTask | internal/storage/store.go:445-465 | writes what the update function returns, or nothing |
| Storage.Store.FindTaskByIdempotency | internal/storage/store.go:490-505 | finds the one record with a key, never one for the empty key |
| Storage.Store.CancelTask | internal/storage/store.go:507-539 | cancels a pending record, marks a running one, refuses a finished one |
| Storage.Store.CloneTask | internal/storage/store.go:541-561 | refuses what is not failed or canceled; returns the holder of a key in use, exactly then, or adds one pending copy, given field by field, that expects the digest it was called with |
| Storage.Store.BatchShouldStop | internal/storage/store.go:562-569 | holds exactly when the rate over the batch's records has reached the threshold |
| Storage.Store.ServeFirst | internal/storage/store.go:595-618 | the loop that recounts refines the decision on one snapshot |
| Storage.Store.ClaimPendingTask | internal/storage/store.go:570-624 | starts the first candidate whose batch was below the threshold at entry, fails exactly the earlier ones, changes no other record |
| Storage.Store.ConfirmAgentUpdate | internal/storage/store.go:629-677 | finishes exactly the open updates of the server to the version, and changes no other record |
| TaskSpec.ConfirmationWrites | internal/storage/store.go:651-675 | record by record: an open update of that server to that version is closed with these fields, every other record stays as it is |
| Storage.Store.ConsumeEnrollment | internal/storage/store.go:704-737 | spends the token and inserts the server, or changes nothing; the guarded UPDATE hits its row because the `used` column agrees |
| Enrollment.TokensAreSingleUse | internal/api/server.go:2090-2110 | over all interleavings of registrations: a token is spent exactly when one registration used it, in time, never two; registrations and spent tokens are equally many |
| Enrollment.RegistrationIsAllOrNothing | internal/storage/store.go:704-737 | a registration does both changes exactly for an open token and a free server id, and otherwise none |
| Controllers.Controller.FinishTask | internal/api/server.go:1980-1998 | records the outcome with redacted and cut texts, cancellation first |
| Controllers.Controller.ExecuteLocal | internal/api/server.go:1961-1978 | claims, checks the batch, runs, records: the whole effect on the table |
| Controllers.LocalRunWrites | internal/api/server.go:1961-1998 | field by field, what an execution leaves: the error text carries standard error and the failure, output and error are cut at 32768 and 8192 bytes |
| Controllers.Controller.EnqueueAction | internal/api/server.go:1847-1888 | an eligible server gets one new pending task, given field by field with the state stored for the server as its expectation, or the request gets the task that has the key; the worker wakes exactly for a new local one |
| Controllers.Controller.BatchAction | internal/api/server.go:1158-1206 | each server in the chosen prefix of the eligible ones gets exactly one task, given field by field with its expectation, in request order; woken are exactly the created local tasks, at most one |
| Controllers.Controller.InsertBatch | internal/api/server.go:1188-1205 | repeated ids run into the unique key: one task per known target, table otherwise unchanged; the result is the recursive definition that the schedule of the machine reaches as well |
| Controllers.OneTaskPerTarget | internal/api/server.go:1188-1205 | after a rollout every known target has exactly one task of the batch |
| Controllers.LocalIDsAre | internal/api/server.go:1202-1204 | the woken ids are those of exactly the local tasks, each once, in the order of creation |
| Controllers.ChosenIs | internal/api/server.go:1176-1188 | the targets are a prefix of the eligible servers: all, at most one, or the percentage rounded up |
| Controllers.Controller.RetryTask | internal/api/server.go:2046-2065 | exactly a failed or canceled task on a known server can be retried; one pending copy, given field by field, that expects the state now stored for the server, or the task that has the key, which is woken again |
| Controllers.Controller.Heartbeat | internal/api/server.go:2160-2173 | stores the reported state over the record that authentication read, then confirms updates |
| Controllers.Controller.AgentResult | internal/api/server.go:2204-2226 | records a result exactly for the Agent's own task |
| Controllers.ResultIsReport | internal/api/server.go:2209-2222 | the result handler and `finishTask` store the same record, although one fills in the default text before redaction and the other after |
| Controllers.Controller.Restart | internal/api/server.go:65-91 | requeues running tasks and wakes every pending local task once |
| HandlerSchedules.LocalRunIsSchedule | internal/api/server.go:1961-1978 | a local execution is a schedule of the machine with the same effect |
| HandlerSchedules.EnqueueIsSchedule | internal/api/server.go:1847-1888 | so is an enqueued request, which owes the wake-up of a new local task |
| HandlerSchedules.RetryIsSchedule | internal/api/server.go:2046-2065 | so is a retry |
| HandlerSchedules.RolloutRoundIsSchedule | internal/api/server.go:1188-1205 | so is a round of a rollout |
| HandlerSchedules.RolloutIsSchedule | internal/api/server.go:1188-1205 | so is the whole insertion loop, which owes the wake-up of exactly the tasks that the handler wakes |
| HandlerSchedules.HeartbeatIsSchedule | internal/api/server.go:2142-2173 | so is a heartbeat |
| HandlerSchedules.PollIsSchedule | internal/api/server.go:2174-2188 | so is a poll: the claim of the store in creation order, and the Agent gets what was claimed |
| HandlerSchedules.ResultIsSchedule | internal/api/server.go:2189-2228 | so is a result |
| HandlerSchedules.RestartIsSchedule | internal/storage/store.go:396-435 | so is a restart, which owes the wake-up of every pending local task |
| HandlerSchedules.WakeUpIsSchedule | internal/api/server.go:1961-1963 | so is a wake-up, after which it is no longer owed |
| HandlerSchedules.RevocationIsSchedule | internal/api/server.go:1638-1647 | so is the removal of a server, which the local one escapes |
| AgentLoop.Agent.Poll | internal/agent/agent.go:361-415 | one report for a task it is handed, none otherwise; starts nothing after drift, a refused action, an invalid version or the running version; restarts exactly after an installation |
| AgentLoop.TurnReports | internal/agent/agent.go:361-415 | for each of drift, invalid version, running version, refusal, success and failure: what is started, and the report in its words |
| AgentLoop.Agent.Run | internal/agent/agent.go:154-194 | the loop: a poll only in ticks whose heartbeat got through, nothing after a restart |
| AgentLoop.LifeInOrder | internal/agent/agent.go:154-194 | in every life of an Agent each poll directly follows a successful heartbeat, and each start is followed by the report on the same task |
| AgentLoop.TurnIsSchedule | internal/agent/agent.go:374-415 | handling a task is a schedule of the machine with the same report, start, version and restart |
| AgentLives.LifeIsSchedule | internal/agent/agent.go:154-194 | for every life whose answers fit the controller's state at each tick, whatever else happens between the ticks, a schedule of the machine shows exactly the heartbeats, polls, starts and results of the Agent's whole loop, in order |
| Rollout.BatchEligible | internal/api/server.go:1160-1175 | the requested servers that the rollout takes, in order |
| Rollout.Preflight | internal/api/server.go:1257-1279 | the report's eligible list equals the rollout's element by element; eligible and skipped partition the request |
| Rollout.JudgesAgree | internal/api/server.go:1264-1278 | the differently ordered tests, one of which trims the version, decide alike |
| Rollout.ReasonsAre | internal/api/server.go:1257-1279 | each reason is given exactly in its case, and the report carries the stored facts of the server |
| Rollout.TrimmedIs | internal/api/server.go:1921-1926 | trimming takes spaces from both ends, all of them, and nothing else |
| Rollout.LimitIsCeiling | internal/api/server.go:1176-1187 | a percentage takes n * p / 100 servers rounded up, between 1 and n |
| Rollout.TargetsNested | internal/api/server.go:1176-1187 | larger percentages extend smaller ones, all contain the canary, 100 is everyone |
| Redaction.MatcherDecidesPattern | internal/api/server.go:2327 | the matcher finds a match exactly where the pattern, written as a shape of texts, matches; it is unique |
| Redaction.KeywordsAre | internal/api/server.go:2327 | the keys are exactly the five words in any letter case |
| Redaction.SecretsAreHidden | internal/api/server.go:2323-2327 | for each of the five words in any letter case, all blanks and every value without a quote, the value at the front of the text is replaced by [REDACTED] and the scan goes on behind it |
| Redaction.HitsAreSecrets | internal/api/server.go:2327 | nothing but values of these five keys is ever hidden |
| Redaction.OnlyMatchesChange | internal/api/server.go:2323-2325 | the result is the text with its leftmost non-overlapping matches replaced and nothing else touched |
| Redaction.PiecesAreMatches | internal/api/server.go:2323-2327 | everything that is replaced is a match of the pattern, with its key |
| Redaction.RescanFindsHidden | internal/api/server.go:2323-2327 | redaction is idempotent on every text, and a rescan finds the same keys in order with every value hidden |
| Redaction.StoredTextIsOnePass | internal/api/server.go:1974-1985 | the two passes of a local execution store what one pass stores |
| Utf8.TextRoundTrip | internal/api/server.go:2316-2321 | the lengths that limits are compared with are those of the UTF-8 encoding, which determines the text |
| Utf8.StoredTextFits | internal/api/server.go:2316-2325 | what fits is stored redacted and whole; of the rest the beginning with a mark, never more than the limit and the mark |
| ShellQuoting.QuotingRoundTrip | internal/api/server.go:1611-1613 | a shell reads the quoted text as the one word it was, exactly when it has no NUL |
| ShellQuoting.QuotedReads | internal/api/server.go:1611-1613 | inside any line, quoted text adds exactly itself to the word under way |
| ShellQuoting.JoinCommandReads | internal/api/server.go:1515-1516 | the join command splits into the download, a pipe and the installer with the base URL and the token as last two words |
| LoginThrottle.Throttle.LoginAllowed | internal/api/server.go:279-284 | lets an address try exactly when it is not blocked now |
| LoginThrottle.Throttle.RecordLoginFailure | internal/api/server.go:286-299 | counts the failure and blocks from the fifth on, for one minute more each time up to fifteen |
| LoginThrottle.BlockedExactlyDuringPenalty | internal/api/server.go:279-299 | under any overlap, an address may try exactly before its fifth failure or after the penalty of the last |
| LoginThrottle.GuessingIsSlow | internal/api/server.go:245-253 | the n-th failure in a row of an address comes at least (n-5)(n-4)/2 minutes after the fifth up to 20, then 120 + 15(n-20) |
| Decimals.DecimalRoundTrip | internal/runner/runner.go:602 | decimal texts read back as the number |
| ArgvEncoder.TableRoundTrip | internal/runner/runner.go:587-624 | reading a table's words by arity gives exactly the arguments carried, even where a value looks like a flag |
| ArgvEncoder.EncodeRefuses | internal/runner/runner.go:588-611 | a table fails exactly when one of its given arguments is refused |
| ArgvEncoder.CarriedExactly | internal/runner/runner.go:566-571 | the arguments carried are the given ones of the table with their values; there are words exactly when there are some |
| Patterns.VersionsAre | internal/runner/runner.go:29 | which texts are versions, character by character |
| Patterns.VersionsJoin | internal/runner/runner.go:29 | versions joined by a dot, underscore, plus or dash are versions |
| Patterns.IDsAre | internal/runner/runner.go:30 | which texts are ids |
| Patterns.DomainsAre | internal/runner/runner.go:32 | domains are exactly labels, each with a dot, before a top level of letters |
| Commands.NodeAddCommand | internal/runner/runner.go:581-626 | the appended command is the table's |
| Commands.NodeSetCommand | internal/runner/runner.go:666-719 | likewise, and refused when it carries nothing |
| Commands.TrafficSetCommand | internal/runner/runner.go:475-492 | likewise |
| Commands.HealthConfigureCommand | internal/runner/runner.go:505-518 | likewise |
| Commands.RealmEnableCommand | internal/runner/runner.go:628-664 | likewise, with the listen address filled in |
| CommandDecoding.CommandExists | internal/runner/runner.go:566-719 | exactly when an action becomes a command |
| CommandDecoding.CommandRoundTrip | internal/runner/runner.go:475-719 | a decoder recovers the action and exactly the arguments that it means |
| CommandDecoding.CommandsAreUnambiguous | internal/runner/runner.go:475-719 | actions that share a command mean the same |
| CommandDecoding.MeaningSuffices | internal/runner/runner.go:475-719 | writing the recovered arguments gives the same command |
| FieldFlags.TablesSayKeys | internal/runner/runner.go:475-719 | in every table, the flag is the key behind two dashes with dashes for underscores |
| FieldFlags.GivenTextIsSaid | internal/runner/runner.go:475-719 | each text that an action can be given is within its limit and on one line, and stands behind the flag called after its key |
| FieldFlags.GivenNumberIsSaid | internal/runner/runner.go:593-610 | likewise each number, whole and from 1 to 65535 |
| FieldFlags.GivenSwitchIsSaid | internal/runner/runner.go:694-711 | each switch of `node.set` stands there by the flag for its position |
| FieldFlags.RefusedIs | internal/runner/runner.go:566-571 | exactly which given argument makes a command fail, for each kind of field |
| FieldFlags.RealmCommandIs | internal/runner/runner.go:628-664 | the whole Realm command word by word, and exactly when there is one |

## Left out

- HTTP routing, sessions, cookies, templates, the web pages and the installer: input, output and plumbing.
- SQLite, JSON, process execution, files: taken as atomic transactions, an exact codec and arguments for outcomes. Failing storage calls are not modelled; `finishTask` ignores them.
- Signatures, certificates, password hashing, second factors: library calls; an Agent's identity is taken as authenticated.
- Users, roles and API tokens: their checks read and write in separate steps, so they hold only for serialised requests.
- `tunnel.fixed` and `cert.setup-cloudflare`: their optional positional arguments collapse, so they cannot be read back.
- The branches of `ActionCommand` without a field table, metrics, audit and backups: one-branch facts.
- The metadata that servers report besides version, features and digest, and the certificate rotation of the Agent loop.
- Controllers.Controller.EnqueueAction: starts behind the validation of the request, the role check and the refusal of sensitive actions, which read no state.
- Controllers.Controller.BatchAction: the batch identifier is an argument whose keys are not in use yet, as random identifiers are; requests of 1 to 100 ids are not enforced.
- Redaction.StoredTextIsOnePass: what truncation leaves of a long text is an arbitrary function of it, because it cuts bytes and can divide a character. A byte that is not valid UTF-8 counts as one character other than a quote.
- ShellQuoting.JoinCommandReads: operators are read one character at a time, and aliases and reserved words are not expanded; the command contains none that matter.
- LoginThrottle.GuessingIsSlow: holds for requests of an address that do not overlap; `LoginThrottle.BlockedExactlyDuringPenalty` needs no such condition.
- CommandDecoding.CommandRoundTrip: numbers are real numbers, of which 64-bit floating point numbers are some; the URL parser is an arbitrary predicate.
- Restrictions of the code that no theorem needs: the machine allows more than the code does - local wake-ups of any local task at any time, rollouts of any action to any known server, polls whose order ignores creation times - so that the theorems hold for these too. A poll that serves in creation order is `Storage.Store.ClaimPendingTask`.
