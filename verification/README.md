# Codeoff: verified models of its protocols

Codeoff is a gateway between Slack and Codex with a durable scheduler. This project models the
parts of it whose correctness depends on interleavings, on machine arithmetic or on canonical
forms, and proves what they promise for all runs, all inputs and all accepted policies.
`dafny verify dfyconfig.toml` checks everything.

## How the models are built

- An object guarded by a mutex, an atomic or a lock is a `class`; each of its methods is one
  critical section, and its postcondition gives the new state as a function of the old one
  (`DeliveryTimeline`, `DeliveryWorkerState`, `DispatcherState`, `ScheduledAuthorityManager`,
  `ConversationDispatchLocks`, `ScheduleTools`).
- A protocol whose parties interleave at awaits is a step machine over values that uses those
  same functions. Store answers, provider answers, clocks, timers, panics and shutdown requests
  are inputs, so a run is any sequence of inputs, and the theorems quantify over all of them.
- Sequential code with loops is a method with loop invariants (`WatchExecution`,
  `RunExecutorSession`, `BoundSummary`), specified without reference to its own steps.
- Pure code is functions and lemmas. Rust's fixed-width arithmetic is written out: `checked_shl`
  drops bits, `checked_add` has no result, the hash wraps at 64 bits.

| files | component |
|---|---|
| `MachineInts` | integer widths and powers of two |
| `SchedulerPolicy`, `PolicyValidation`, `RetryBackoff`, `RetryChain`, `RetryDesign` | policy validation, backoff, retries and chains of them |
| `DeliveryState`, `DeliveryWorker`, `DeliverySafety`, `DeliveryTheorems`, `DeliveryReadiness`, `DeliveryProgress`, `DeliveryShutdown` | scheduled delivery |
| `AssistantStatus`, `StatusQuiescence`, `StatusSets`, `StatusSessions`, `StatusThread` | assistant status dispatcher |
| `RetentionGate` | shutdown barrier around retention cleanup |
| `ExecutorSession`, `ExecutorFrames` | remote executor session |
| `AuthorityCache` | rotation of the deployment authority |
| `CanonicalJson`, `JsonText`, `JsonReader` | canonical JSON, its text, and a reader of that text |
| `DigestPreimage`, `DigestLayout` | what request digests are taken over |
| `ScheduleAudit`, `AuditTable` | tool calls and their audit trail |
| `ChannelDispatch`, `ChannelSummaries`, `ConversationKeys`, `DispatchProgress` | dispatch of channel events |
| `Utf8`, `SummaryBound`, `SummaryText` | conversation summaries |

## Where the code does less than its design

Each of these is kept as the code has it, with a lemma that shows it and a lemma that says
exactly when the design is met.

- Run backoff is computed with a shift that checks only the shift count. For a small family of
  accepted policies the bits lost make the wait too short, down to no wait at all
  (`RetryBackoff.RunDelayExactness`, `RetryBackoff.RunBackoffCanVanish`). Delivery backoff never
  loses bits.
- A status set that reaches Slack and then returns an error, because its answer was lost or
  invalid, is not remembered, so the session's clear does nothing and the status stays. A drained
  thread shows a status exactly when its last landed call is such a set
  (`StatusThread.QuiescenceExactly`, `StatusThread.FailedSetStaysShown`).
- Retention cleanup deletes aged summaries without the conversation lock. A dispatch brings a deleted
  summary back exactly when it had read it before the delete
  (`ChannelSummaries.DeletesAreUndoneExactly`, `ChannelSummaries.DeleteCanBeUndone`).
- The shutdown flag is a watch channel, which ignores a send that no receiver can see. The barrier
  holds exactly when the flag is already up or a receiver is alive
  (`RetentionGate.BarrierNeedsAReceiver`); the service's own cleanup loop keeps one.
- A frame of the right session that is no Cancel for the run, and a clock that fails inside the
  loop, end the executor session without raising cancellation
  (`ExecutorSession.CancellationExactly`, `ExecutorSession.ViolationLeavesExecutionRunning`).

One more is a hazard of an interface rather than of the program as it stands. The dispatcher
accepts events without a channel; those share one stored conversation per workspace but are locked
one by one (`ConversationKeys.LockCoversStoredRow`, `ConversationKeys.ChannellessEventsShareARow`).
Slack intake never queues one: it requires a channel and stores it with the event
(`ConversationKeys.IntakeLocksCoverRows`).

## Model

| member | source | states |
|---|---|---|
| `SchedulerPolicy.ValidImpliesBounds` | crates/core/src/scheduler_policy.rs:110-155 | a policy that passes all of validate's early returns satisfies every numeric bound the run and delivery arithmetic relies on |
| `SchedulerPolicy.RunValidationImpliesBounds` | crates/core/src/scheduler_policy.rs:242-307 | the run half: attempts 1 to 20, base 1 to 86400 and at most the cap |
| `SchedulerPolicy.DeliveryValidationImpliesBounds` | crates/core/src/scheduler_policy.rs:309-407 | the delivery half, readiness and Retry-After caps included |
| `PolicyValidation.AcceptedExactly` | crates/core/src/scheduler_policy.rs:110-155 | a policy is accepted if and only if its limits, its runs and its deliveries are sound: ranges, more than three heartbeats to a lease, a whole run and a whole send inside their deadlines |
| `PolicyValidation.RunsExactly` | crates/core/src/scheduler_policy.rs:242-307 | the run half, both directions |
| `PolicyValidation.DeliveriesExactly` | crates/core/src/scheduler_policy.rs:309-407 | the delivery half, both directions |
| `PolicyValidation.DefaultIsAccepted` | crates/core/src/scheduler_policy.rs:50-93 | the default policy is accepted |
| `RetryDesign.HashIsFold` | crates/core/src/scheduler_policy.rs:433-437 | the hash is FNV-1a folded over the bytes from first to last |
| `RetryDesign.KnownHashes` | crates/core/src/scheduler_policy.rs:433-437 | it has the published values for the empty input and one letter |
| `RetryDesign.JitterIsRemainder` | crates/core/src/scheduler_policy.rs:426-427 | the jitter is the remainder of that hash by a quarter of the term, at least one |
| `RetryDesign.DelayIsDesigned` | crates/core/src/scheduler_policy.rs:423-431 | with a term that lost no bits the delay is min(cap, term + that remainder), on unbounded integers |
| `RetryDesign.DeliveryRetryExactly` | crates/core/src/scheduler_policy.rs:205-240 | under an accepted policy a retry is granted at now + d if and only if an attempt is left and now + d lies before the deadline, with d the larger of the designed delay and the hint clamped between a second and its cap; otherwise there is none |
| `RetryDesign.RunRetryExactly` | crates/core/src/scheduler_policy.rs:187-203 | the same for runs, for every accepted policy outside the family that loses bits |
| `RetryBackoff.DelayWithinCap` | crates/core/src/scheduler_policy.rs:423-431 | for all inputs, lost bits included, a delay is at least its exponential term and at most the cap |
| `RetryBackoff.BackoffClosedForm` | crates/core/src/scheduler_policy.rs:423-437 | if base times 2^(attempt-1) fits 32 bits the delay is min(cap, e + jitter) with e = min(cap, base times 2^(attempt-1)) and jitter below max(e/4, 1) |
| `RetryBackoff.BackoffMonotone` | crates/core/src/scheduler_policy.rs:423-437 | under the same condition delays of one identity never shrink as attempts grow, whatever the jitter |
| `RetryBackoff.DeliveryBackoffIsExact` | crates/core/src/scheduler_policy.rs:167-175 | validate guarantees the closed form for every delivery attempt that can be granted a retry |
| `RetryBackoff.RunGrantsWrapFrom16384` | crates/core/src/scheduler_policy.rs:277-295 | with 20 run attempts no bits are lost on any grant if and only if the base is at most 16383 |
| `RetryBackoff.RunBackoffExactness` | crates/core/src/scheduler_policy.rs:157-165 | the exponential term of an accepted run policy is the closed form's on every grantable attempt if and only if its base and budget are outside a listed finite family |
| `RetryBackoff.RunDelayExactness` | crates/core/src/scheduler_policy.rs:423-437 | so is the jittered delay, for every run id: some run shows the difference for each policy of the family, and no run does outside it |
| `RetryBackoff.VanishingBackoffIsAccepted` | crates/core/src/scheduler_policy.rs:110-155 | a policy of that family passes validate |
| `RetryBackoff.RunBackoffCanVanish` | crates/core/src/scheduler_policy.rs:187-203 | under it attempt 18 waits 16384 seconds and attempt 19 is granted a retry at once |
| `RetryChain.GrantWindow` | crates/core/src/scheduler_policy.rs:205-240 | the bounds the chains rest on: one grant waits at least the base and the capped Retry-After hint and at most the larger cap, lies before the deadline and has an attempt left |
| `RetryChain.RoomMeansRetry` | crates/core/src/scheduler_policy.rs:205-229 | and a retry is granted whenever an attempt is left and the longest wait still ends before the deadline |
| `RetryChain.RunGrantWindow` | crates/core/src/scheduler_policy.rs:187-203 | under any policy a run's retry lies between now and now plus the cap, before the run's deadline, with an attempt left |
| `RetryChain.ChainsStayInsideTheirWindow` | crates/core/src/scheduler_policy.rs:205-240 | every chain of grants of an accepted policy grows by at least the base, stays before the deadline, and has at most min(max_attempts-1, (deadline-1)/base) grants |
| `DeliveryState.DeliveryTimeline.FreshNow` | crates/runtime/src/scheduled_delivery.rs:155-170 | fetch_max leaves and returns the larger of the last time and the clamped reading |
| `DeliveryState.FreshTimesNeverDecrease` | crates/runtime/src/scheduled_delivery.rs:155-170 | for any readings the times handed out never decrease, never fall behind an earlier reading, and are invented by nobody |
| `DeliveryState.DeliveryWorkerState.ReadinessReady` | crates/runtime/src/scheduled_delivery.rs:131-134 | a Ready verdict starts the deferral count over |
| `DeliveryState.DeliveryWorkerState.ReadinessRetry` | crates/runtime/src/scheduled_delivery.rs:136-153 | a deferral waits as the design states for the true number of deferrals since Ready, although the stored streak saturates and the shift is clamped |
| `DeliveryState.WaitMatchesDeferralCount` | crates/runtime/src/scheduled_delivery.rs:136-153 | clamped 64-bit shift and saturating streak agree with max(min(cap, base times 2^k), capped hint) for every k |
| `DeliveryState.ReadinessBackoffMatchesHistory` | crates/runtime/src/scheduled_delivery.rs:641-650 | the same over any history of verdicts under any accepted policy |
| `DeliveryReadiness.DeferralsWaitAsDesigned` | crates/runtime/src/scheduled_delivery.rs:557-650 | in every run of the worker a deferral under an accepted policy waits max(min(cap, base times 2^k), capped hint), with k the deferrals since the last Ready in the history before it |
| `DeliverySafety.StepKeeps` | crates/runtime/src/scheduled_delivery.rs:557-949 | every step of worker, heartbeat, clock and shutdown keeps the inductive invariant and is allowed after what was done before |
| `DeliverySafety.WatchIsHistory` | crates/runtime/src/scheduled_delivery.rs:725-804 | the running summary used in the invariant says exactly what the history holds: open claim, unused verdict, send, answer, join, lost lease, renewal, newest expiry, claim time and completion |
| `DeliveryTheorems.RunsAreLawful` | crates/runtime/src/scheduled_delivery.rs:404-478 | the history of every run of the worker is lawful effect by effect |
| `DeliveryTheorems.NoWriteSoundness` | crates/runtime/src/scheduled_delivery.rs:971-1118 | in every run a no-write completion means the send was never polled or the provider itself reported no write; a send polled and never answered is committed as ambiguous, cancelled after dispatch or timed out; only a confirmed success is committed as delivered |
| `DeliveryTheorems.CompletionsAreDesigned` | crates/runtime/src/scheduled_delivery.rs:971-1135 | in every run a completion under an accepted policy tells the store what the design says: a retryable failure and an unsent release are retried after the larger of backoff and clamped hint if and only if version, budget and deadline leave room, and otherwise given up as exhausted; every other decision has its own kind |
| `DeliveryTheorems.DeadlineFailuresAreLate` | crates/runtime/src/scheduled_delivery.rs:741-765 | a claim is given up for its deadline only once that has passed, with nothing sent |
| `DeliveryTheorems.LeasesAreFullLength` | crates/runtime/src/scheduled_delivery.rs:836-897 | every renewal asks for the full lease, the finalization for one second more |
| `DeliveryProgress.DeliveriesCanComplete` | crates/runtime/src/scheduled_delivery.rs:557-949 | for every delivery in time and every provider outcome there is a run that claims it, sends it and commits that outcome |
| `DeliveryProgress.HeartbeatsRenew` | crates/runtime/src/scheduled_delivery.rs:872-906 | in every run a claim's heartbeat renews the lease, for its full length, whenever its interval elapses |
| `DeliveryProgress.RefusalsEndHeartbeats` | crates/runtime/src/scheduled_delivery.rs:872-906 | a refused renewal ends it with the store's error |
| `DeliveryProgress.ReleasesFollowShutdown` | crates/runtime/src/scheduled_delivery.rs:971-1023 | a claim is released unsent only after a shutdown was requested |
| `DeliveryProgress.WorkersHaltForAReason` | crates/runtime/src/scheduled_delivery.rs:404-478 | the worker halts only for a requested shutdown, an error that is not transient, or a panic |
| `DeliveryShutdown.GatesHalt` | crates/runtime/src/scheduled_delivery.rs:557-685 | once a shutdown was requested the worker halts at the next gate between its store calls |
| `DeliveryShutdown.ShutdownStopsNewWork` | crates/runtime/src/scheduled_delivery.rs:557-804 | after a shutdown request with no claim call in flight nothing is claimed in any continuation, and nothing is sent unless a send was polled or about to be |
| `DeliveryTheorems.ClaimsFollowReadiness` | crates/runtime/src/scheduled_delivery.rs:557-685 | claims never overlap, and each uses up a Ready verdict about its own authority snapshot |
| `DeliveryTheorems.SendsAreSingleAndInTime` | crates/runtime/src/scheduled_delivery.rs:725-804 | each claim has at most one send, decided strictly before the payload deadline |
| `DeliveryTheorems.CompletionsAreSingleAndFenced` | crates/runtime/src/scheduled_delivery.rs:830-949 | each claim has at most one completion, after its heartbeat was joined without error and never once the lease was reported lost; an outcome is committed only after the final renewal |
| `DeliveryTheorems.LeaseTimesMoveForward` | crates/runtime/src/scheduled_delivery.rs:836-897 | for any clock the periodic lease expiries of a claim never shrink and its single finalization expiry is strictly later than all of them |
| `DeliveryTheorems.GrantsFormAChain` | crates/runtime/src/scheduled_delivery.rs:1120-1135 | the retries committed in a run for one delivery form a chain, given the store's claim contract |
| `DeliveryTheorems.DeliveryRetriesAreBounded` | crates/runtime/src/scheduled_delivery.rs:1103-1135 | so over any run a delivery gets no more retries than budget and window allow, spaced and before its deadline |
| `AssistantStatus.DispatcherState.Set` | crates/cli/src/run.rs:1761-1784 | a set of the current session replaces the pending one and schedules a flush unless one is scheduled; any other set is ignored |
| `AssistantStatus.DispatcherState.TakePending` | crates/cli/src/run.rs:1661-1675 | a flush takes the pending set and allows the next flush |
| `AssistantStatus.DispatcherState.Cleared` | crates/cli/src/run.rs:1705-1742 | a finished clear forgets the session and retires the dispatcher when nothing is left |
| `AssistantStatus.DispatcherState.RetireSession` | crates/cli/src/run.rs:1805-1823 | retiring forgets only the current session, and retires the dispatcher when nothing is left |
| `StatusQuiescence.RunKeeps` | crates/cli/src/run.rs:1628-1823 | every API call, worker step, landing, late landing and answer of one controller keeps the invariants over sessions, queues, logs, dropped sets and what the last landed call left |
| `StatusThread.ControllersRunAlone` | crates/cli/src/run.rs:1251-1259 | with one controller per dispatch worker, whatever the others do on a thread each behaves as if it ran alone, so everything proved of one controller holds of all |
| `StatusThread.QuiescenceExactly` | crates/cli/src/run.rs:1661-1742 | for any number of controllers, once all sessions have ended and all queues are drained, across retired and re-created dispatchers, Slack shows a status if and only if the last call that took effect is a set that returned an error with no clear left behind it |
| `StatusThread.Quiescence` | crates/cli/src/run.rs:1877-2015 | so it shows none when every set that took effect was acknowledged |
| `StatusThread.FailedSetStaysShown` | crates/cli/src/run.rs:1686-1694 | a run of one session in which the set lands, returns an error, and the status outlives the session |
| `StatusQuiescence.ClearedSessionsStayCleared` | crates/cli/src/run.rs:1705-1742 | after a dispatcher handled a session's clear it neither holds nor sends a set of that session |
| `StatusQuiescence.SetsAreCurrentWhenSent` | crates/cli/src/run.rs:1677-1703 | in every run a dispatcher begins to send only the set it took, while that session is current and its clear not yet handled |
| `StatusQuiescence.CoalescingLosesNothing` | crates/cli/src/run.rs:1661-1703 | at most one flush is outstanding, a set waits only while one is, and every accepted set is replaced by a later one, taken by that flush and sent, or dropped because another session or none was current at the check, its own having ended; the transport calls begun are exactly the sent sets, in the order of acceptance |
| `StatusSets.OpenSetIsAccepted` | crates/cli/src/run.rs:1761-1784 | an update of an open session becomes the pending set of the registered dispatcher and its last accepted one, and changes no other |
| `StatusSets.AcceptedSetsAreTheUpdates` | crates/cli/src/run.rs:1932-1935 | in every run what a dispatcher accepted is exactly the updates of open sessions made while it was registered, in order, texts included |
| `StatusSets.LastUpdateIsSent` | crates/cli/src/run.rs:1661-1703 | once the dispatcher has drained, the last transport call begun for an open session is that session's last update |
| `StatusSessions.StartsExactly` | crates/cli/src/run.rs:1877-1911 | in every run a start opens a session of a number not used before, current on the registered dispatcher, unless a guard is alive |
| `StatusSessions.ClearsExactly` | crates/cli/src/run.rs:1937-1960 | clearing an open session closes it and queues one clear; a second one does nothing |
| `StatusSessions.DropsExactly` | crates/cli/src/run.rs:1990-2015 | dropping the guard of an open session closes it and queues its clear if and only if it had set anything |
| `StatusSessions.ClearsAreSentExactly` | crates/cli/src/run.rs:1705-1742 | a queued clear becomes a transport call if and only if its session is the one known to be visible |
| `RetentionGate.RetentionBarrier` | crates/cli/src/run.rs:979-986 | once a request whose flag was delivered has returned, no cleanup body runs then or in any continuation |
| `RetentionGate.BarrierNeedsAReceiver` | crates/cli/src/run.rs:979-982 | a request bars cleanups in all continuations if and only if the flag is already up or a receiver is alive when it sends |
| `RetentionGate.LateCleanupRuns` | crates/cli/src/run.rs:1195-1213 | otherwise there is a schedule in which the request returns and a cleanup starts afterwards |
| `RetentionGate.RequestsReturn` | crates/cli/src/run.rs:979-986 | from every reachable state a shutdown request can return, whoever holds the gate, delivered if and only if the flag is up or a receiver is alive when it sends |
| `ExecutorSession.WatchExecution` | crates/cli/src/scheduled_runner.rs:661-700 | the loop ends at the first wake-up that is neither a quiet read nor a Cancel of this run, for the reason that wake-up gives, and cancellation was raised if and only if a Cancel came before it |
| `ExecutorSession.Greet` | crates/cli/src/scheduled_runner.rs:456-532 | admission is reached if and only if readiness request and admission are valid and no local step fails; exactly the Ready frame is sent, and exactly for a valid request of an able runner |
| `ExecutorSession.PrepareRun` | crates/cli/src/scheduled_runner.rs:533-644 | preparation succeeds if and only if the Prepare frame carries the admission's nonce, sequence 3 and a valid binding and nothing local fails; frame 2 is exactly the preparation or the refusal |
| `ExecutorSession.AwaitStart` | crates/cli/src/scheduled_runner.rs:645-658 | the start is accepted if and only if the four frames form the complete handshake, frame 2 could be written and the clock works |
| `ExecutorSession.Execute` | crates/cli/src/scheduled_runner.rs:659-739 | from the start on the trace is the peer's cancellation followed by what the deciding wake-up calls for; it ends well exactly when frame 3 was sent and written, and after a loss of control as the cleanup ended |
| `ExecutorSession.RunExecutorSession` | crates/cli/src/scheduled_runner.rs:425-718 | the whole session for any frames, failures and timeouts: an execution exactly when the handshake is complete and nothing local fails, an opening otherwise; it finishes exactly when its last frame was written |
| `ExecutorSession.PhaseSafety` | crates/cli/src/scheduled_runner.rs:425-718 | execution starts at most once and exactly after the handshake, outbound sequences are a prefix of 1,2,3, a loss of control sends nothing more and raises cancellation, and a Result is sent only for a proven cleanup |
| `ExecutorSession.CancellationExactly` | crates/cli/src/scheduled_runner.rs:661-739 | during an execution cancellation is raised if and only if a Cancel of this run came or control was lost |
| `ExecutorSession.ViolationLeavesExecutionRunning` | crates/cli/src/scheduled_runner.rs:669-678 | a stray frame of the session, or a failing clock, ends the loop with the execution uncancelled |
| `ExecutorFrames.StartsExactly` | crates/cli/src/scheduled_runner.rs:425-659 | an execution starts if and only if the four frames arrive with the fields spelled out, one by one, and no local step fails |
| `ExecutorFrames.FirstFrameExactly` | crates/cli/src/scheduled_runner.rs:456-514 | the Ready frame is sent if and only if the request leaves between one millisecond and thirty seconds and the runner is probed and attested |
| `ExecutorFrames.SecondFrameExactly` | crates/cli/src/scheduled_runner.rs:823-863 | frame 2 is sent if and only if the preparation is valid, and says Prepared or the code and retryability of its refusal |
| `ExecutorFrames.ThirdFrameExactly` | crates/cli/src/scheduled_runner.rs:865-918 | frame 3 says OutcomeUnknown if and only if the execution lost its transport, a retryable cleanup error if and only if cleanup was unproven, and Completed for every other result |
| `ExecutorFrames.ThirdFrameIsSent` | crates/cli/src/scheduled_runner.rs:701-718 | and is sent for every result that can be attested |
| `ExecutorFrames.LossReportsAreExact` | crates/cli/src/scheduled_runner.rs:720-739 | a loss of control is reported as such only once cleanup is known; otherwise what kept it from being known is |
| `AuthorityCache.AdmissionExactly` | crates/cli/src/scheduled_codex.rs:91-114 | an admission exists if and only if the clock works and more than 30 seconds are left; its deadline is then now+5, before the signed expiry |
| `AuthorityCache.ScheduledAuthorityManager.IsReady` | crates/cli/src/scheduled_codex.rs:73-79 | ready if and only if more than 30 seconds are left |
| `AuthorityCache.ScheduledAuthorityManager.Admit` | crates/cli/src/scheduled_codex.rs:91-114 | admits exactly then, with a deadline before the expiry |
| `AuthorityCache.ScheduledAuthorityManager.BeginRefresh` | crates/cli/src/scheduled_codex.rs:116-134 | an authority is put forward for registration if and only if it has more than 30 seconds left and a higher epoch |
| `AuthorityCache.ScheduledAuthorityManager.FinishRefresh` | crates/cli/src/scheduled_codex.rs:135-151 | after the await the cache changes if and only if the epoch is still higher |
| `AuthorityCache.RotationIsMonotone` | crates/cli/src/scheduled_codex.rs:116-171 | under any interleaving of refreshes the cached values have strictly growing, successfully registered epochs |
| `AuthorityCache.NoRegistrationIsLost` | crates/cli/src/scheduled_codex.rs:116-152 | a registered epoch is ahead of the cache only while the refresh that registered it has yet to write, and none is once no refresh is left to write |
| `AuthorityCache.ValuesAccumulate` | crates/cli/src/scheduled_codex.rs:116-152 | a longer run keeps every cached value of the shorter one |
| `AuthorityCache.RefreshBeginsExactly` | crates/cli/src/scheduled_codex.rs:116-134 | in every reachable state a refresh asks for a registration if and only if it was offered a newer authority with time left |
| `AuthorityCache.RefreshRotates` | crates/cli/src/scheduled_codex.rs:116-152 | undisturbed it makes what it was offered the cached authority; a failed registration leaves cache and registry alone |
| `AuthorityCache.SettledCacheIsNewest` | crates/cli/src/scheduled_codex.rs:116-152 | once no refresh is left to write, the cache holds the highest epoch ever registered, or the initial one |
| `AuthorityCache.RecordSaysAuthority` | crates/cli/src/scheduled_codex.rs:154-171 | what is registered is the authority's own record, field by field |
| `CanonicalJson.LessIsPrecedes` | crates/runtime/src/schedule_service.rs:1070-1071 | the key order is by code point: the first difference decides, and a prefix comes first |
| `CanonicalJson.CanonicalKeysInOrder` | crates/runtime/src/schedule_service.rs:1067-1081 | at every depth of a canonical tree the keys ascend in that order |
| `CanonicalJson.AscendingIsUnique` | crates/runtime/src/schedule_service.rs:1070-1071 | sorted distinct keys are determined by the set of keys |
| `CanonicalJson.LookupIsPreserved` | crates/runtime/src/schedule_service.rs:1067-1081 | every path through objects and arrays finds the canonical form of what it found before, or nothing as before |
| `CanonicalJson.CanonicalKeepsMeaning` | crates/runtime/src/schedule_service.rs:1067-1081 | the canonical tree denotes the same value, objects as maps and arrays as lists |
| `CanonicalJson.CanonicalDecidesMeaning` | crates/runtime/src/schedule_service.rs:1067-1081 | two trees with distinct keys have one canonical form if and only if they denote the same value |
| `CanonicalJson.CanonicalizeIsIdempotent` | crates/runtime/src/schedule_service.rs:1067-1081 | canonicalizing twice is canonicalizing once |
| `JsonReader.ParsesBack` | crates/runtime/src/schedule_service.rs:1052-1055 | a reader of sections 2 to 7 of RFC 8259, with white space, all escapes and surrogate pairs, reads every tree back from its text |
| `JsonReader.PrintIsShortest` | crates/runtime/src/schedule_service.rs:1052-1055 | no text that reads back as a tree is shorter than the one written: no spaces, and only the escapes it needs |
| `JsonReader.CanonicalTextParses` | crates/runtime/src/schedule_service.rs:1052-1081 | the digested text is JSON for the tree's own value with every object's keys in order, and a shortest spelling of it |
| `JsonReader.PrintIsInjective` | crates/runtime/src/schedule_service.rs:1052-1055 | no two trees are written as the same text, escapes and nesting included |
| `JsonReader.TextDecidesMeaning` | crates/runtime/src/schedule_service.rs:1052-1065 | the digested text is the same if and only if the trees denote the same value |
| `DigestPreimage.PreimageIsFaithful` | crates/runtime/src/schedule_service.rs:872-907 | create and update requests are digested over the same text if and only if they agree on operation, owner, job, generation, instruction, policy, schedule, capability and ordered target identities |
| `DigestPreimage.SchedulesAgree` | crates/runtime/src/schedule_service.rs:925-937 | schedules mean the same if and only if they are equal, across kinds |
| `DigestPreimage.PrincipalsAgree` | crates/runtime/src/schedule_service.rs:939-946 | principals mean the same if and only if all four parts are equal |
| `DigestPreimage.TargetsAgree` | crates/runtime/src/schedule_service.rs:909-917 | target lists mean the same if and only if they name the same targets in the same order |
| `DigestPreimage.VersionsNeverMeet` | crates/runtime/src/schedule_service.rs:883-892 | the legacy version-1 definition never collides with version 2 |
| `DigestPreimage.LifecyclePreimageIsFaithful` | crates/runtime/src/schedule_service.rs:565-570 | pause, resume and delete requests share a text if and only if they are equal in operation, owner, job and generation |
| `DigestPreimage.LifecycleNeverMeetsMutation` | crates/runtime/src/schedule_service.rs:553-575 | and never share one with a create or update |
| `DigestPreimage.CreatePreimage` | crates/runtime/src/schedule_service.rs:310-378 | for create requests time, request id and the ids derived from it play no part in the text |
| `DigestPreimage.UpdatePreimage` | crates/runtime/src/schedule_service.rs:397-462 | the same for updates, which also bind job and generation |
| `DigestPreimage.JobPreimageIsFaithful` | crates/runtime/src/schedule_service.rs:319-325 | a created job is named after exactly its owner and request id |
| `DigestPreimage.ScopingKeepsIdentities` | crates/runtime/src/schedule_resolution.rs:501-522 | scoping targets to a job changes none of what identifies them |
| `DigestLayout.DefinitionMeans` | crates/runtime/src/schedule_service.rs:883-892 | a definition says version 1 and has no previous_success exactly without a policy, and version 2 with it |
| `DigestLayout.ScheduleMeans` | crates/runtime/src/schedule_service.rs:925-937 | each schedule kind's fields, under their own names |
| `DigestLayout.TargetsMean` | crates/runtime/src/schedule_service.rs:909-917 | the targets in order, each with its five fields |
| `DigestLayout.MutationMeans` | crates/runtime/src/schedule_service.rs:872-907 | the object a create or update is digested over, field by field, as a map of values |
| `DigestLayout.CreateMeans` | crates/runtime/src/schedule_service.rs:310-378 | for a create: no job, no generation, and the request's own instruction, policy and schedule |
| `DigestLayout.UpdateMeans` | crates/runtime/src/schedule_service.rs:397-462 | for an update: its job and generation too |
| `DigestLayout.LifecycleMeans` | crates/runtime/src/schedule_service.rs:565-570 | for pause, resume and delete: the four fields |
| `DigestLayout.JobMeans` | crates/runtime/src/schedule_service.rs:319-325 | the object a job is named after |
| `DigestLayout.TargetIdMeans` | crates/runtime/src/schedule_resolution.rs:509-516 | the object a target of a job is named after |
| `DigestLayout.DigestedMutation` | crates/runtime/src/schedule_service.rs:872-907 | whoever parses the digested text of a create or update finds exactly those fields |
| `DigestLayout.DigestedLifecycle` | crates/runtime/src/schedule_service.rs:565-570 | and of a pause, resume or delete |
| `DigestPreimage.IntTextReadsBack` | crates/runtime/src/schedule_service.rs:925-937 | numbers are written in decimal behind a sign |
| `ScheduleAudit.ClassifyError` | crates/runtime/src/schedule_audit.rs:94-123 | no error is classified as an allow |
| `ScheduleAudit.EventIdsAreUnique` | crates/runtime/src/schedule_audit.rs:125-132 | ids of one process differ whenever their sequence numbers do, whatever the clock says |
| `ScheduleAudit.ScheduleTools.AuditAttempt` | crates/runtime/src/schedule_audit.rs:23-46 | each attempt takes one sequence number and is correlated by the request id if that is bounded, by its own id otherwise |
| `ScheduleAudit.ScheduleTools.FinishErrorAttempt` | crates/runtime/src/schedule_service.rs:816-831 | one record that says what the caller is told, or none and the append error |
| `ScheduleAudit.ScheduleTools.RejectInvalidAttempt` | crates/runtime/src/schedule_service.rs:272-290 | a rejected input is audited once under the tool's operation |
| `ScheduleAudit.ScheduleTools.ApplyMutation` | crates/runtime/src/schedule_service.rs:703-798 | every store answer leads to one record that agrees with the reply; an applied one moves its job one generation on |
| `ScheduleAudit.ScheduleTools.Mutate` | crates/runtime/src/schedule_service.rs:292-308 | the same for a whole mutation, refused preparation included |
| `ScheduleAudit.ScheduleTools.Read` | crates/runtime/src/schedule_service.rs:487-532 | the same for get and list |
| `ScheduleAudit.ScheduleTools.HandleToolCall` | crates/runtime/src/schedule_tools.rs:116-154 | every path through the three layers takes one sequence number, is audited once and answers as the environment calls for |
| `ScheduleAudit.ScheduleTools.RejectUnauthorizedToolCall` | crates/runtime/src/schedule_tools.rs:156-174 | an unauthorized call is refused and audited once |
| `ScheduleAudit.RunsAreAudited` | crates/runtime/src/schedule_tools.rs:116-174 | over any run of handled and rejected calls there is one record per call whose record is kept, in order, and it allows if and only if the caller succeeded; a caller whose record is not kept has failed |
| `ScheduleAudit.AuditIdsNeverRepeat` | crates/runtime/src/schedule_audit.rs:125-132 | and no two records of a run have the same id |
| `AuditTable.ErrorTable` | crates/runtime/src/schedule_audit.rs:94-123 | the code, outcome and decision of every error |
| `AuditTable.RetryableIsNoDenial` | crates/runtime/src/schedule_service.rs:125-131 | no error whose caller is told to try again is recorded as a denial |
| `AuditTable.ToolsAreNamed` | crates/runtime/src/schedule_tools.rs:335-345 | a known tool is recorded under the operation its name carries, any other as list |
| `AuditTable.AttemptsAreNamed` | crates/runtime/src/schedule_audit.rs:23-46 | the principal, job, time and ids of an attempt; it is correlated by the id the call brings if that has 1 to 255 bytes, by its own id otherwise |
| `AuditTable.AppliesExactly` | crates/runtime/src/schedule_service.rs:292-308 | a mutation is applied if and only if the call is authorized, parses, has a proper request id and a generation below the maximum, is prepared, and the store applies it |
| `AuditTable.ChangesAreRecorded` | crates/runtime/src/schedule_service.rs:703-798 | the record of an applied mutation: owner, job, resolver, capability and the step from generation g to g+1, or to 0 for a create |
| `AuditTable.NothingElseIsRecorded` | crates/runtime/src/schedule_audit.rs:48-77 | no other record names a generation, a resolver or a capability |
| `AuditTable.RepliesAreRecorded` | crates/runtime/src/schedule_audit.rs:79-92 | a refusal is recorded with its error, a replay as a replay, a read as applied under the owner it was read for |
| `AuditTable.AnswersExactly` | crates/runtime/src/schedule_tools.rs:116-174 | what the caller is told: the first objection in order, or the read, or what the store's answer says |
| `AuditTable.TrailIsSpelledOut` | crates/runtime/src/schedule_tools.rs:116-174 | in every run of calls the record at a kept call's place is the one spelled out, under its own id |
| `ChannelDispatch.ConversationDispatchLocks.TryAcquire` | crates/runtime/src/lib.rs:73-82 | a key is granted if and only if it was free, and is taken afterwards |
| `ChannelDispatch.ConversationDispatchLocks.Release` | crates/runtime/src/lib.rs:90-98 | dropping a permit frees its key and no other |
| `ChannelDispatch.LocksAlwaysArePermits` | crates/runtime/src/lib.rs:66-98 | in every interleaving, with store errors and drops anywhere, the lock set is the keys of the live permits and each key has one |
| `ChannelDispatch.ConversationsAreExclusive` | crates/runtime/src/lib.rs:283-454 | no two agent runs share a key at once, and no lock is left behind when all workers rest |
| `ChannelDispatch.ClaimsAreDisposedOnce` | crates/runtime/src/lib.rs:283-454 | per claim the agent runs at most once and at most one of complete, release and fail is called, for the claimed event; exactly one, of the kind the outcome and the agent's answer name, unless a store call failed or the dispatch was dropped |
| `DispatchProgress.EventsAreSorted` | crates/runtime/src/lib.rs:291-300 | from any reachable state a claimed event is worked on if and only if it is one of Slack's three kinds of message |
| `DispatchProgress.IgnoredEventsComplete` | crates/runtime/src/lib.rs:295-300 | any other event is completed without a run |
| `DispatchProgress.LocksDecideExactly` | crates/runtime/src/lib.rs:331-340 | an event is given back if and only if another worker holds its conversation |
| `DispatchProgress.AnsweredEventsComplete` | crates/runtime/src/lib.rs:341-420 | from any reachable state, for every message of a free conversation and every answer: the turn of that message and answer is added to the stored summary, the event is completed as dispatched or accepted, the conversation is free again |
| `DispatchProgress.FailedEventsFail` | crates/runtime/src/lib.rs:421-454 | a run that fails leaves the summaries alone, the event failed and the conversation free |
| `ChannelSummaries.RowsFollowTheirLine` | crates/runtime/src/lib.rs:341-414 | in every interleaving of workers and retention cleanups, failed and dropped writes included, the stored summary of a conversation with a channel is what the turns of its line give one after the other, from what was stored at first or from nothing |
| `ChannelSummaries.NoUpdateIsLost` | crates/runtime/src/lib.rs:341-414 | as long as the row is not deleted, that line is all its written turns in order |
| `ChannelSummaries.DeletesAreUndoneExactly` | crates/state/src/store.rs:65-69 | what a dispatch in flight has read differs from what is stored if and only if the row was deleted since; the row is then absent and the dispatch holds what the delete took away |
| `ChannelSummaries.DeleteCanBeUndone` | crates/state/src/store.rs:1778-1786 | for every event and stored summary, a run in which the row is deleted and then holds the update of the deleted summary |
| `ChannelSummaries.CompletedTurnsAreWritten` | crates/runtime/src/lib.rs:406-415 | an event is completed only with its own turn written, or with nothing to write |
| `ChannelSummaries.StoredSummariesFollowTheirTurns` | crates/runtime/src/lib.rs:345-414 | with the program's own update the stored summary is that of its line's turns in order, within 2000 bytes and not blank |
| `ConversationKeys.LockCoversStoredRow` | crates/runtime/src/lib.rs:828-887 | two events of one stored conversation share its lock if and only if it has a channel or they carry the same dedupe key |
| `ConversationKeys.ChannellessEventsShareARow` | crates/runtime/src/lib.rs:313-330 | two events without a channel, with one stored row and two locks |
| `ConversationKeys.IntakeLocksCoverRows` | crates/channel/slack/src/normalize.rs:100-195 | events that intake queues always have a channel, so for them one stored row means one lock |
| `ConversationKeys.SharedRowExactly` | crates/runtime/src/lib.rs:828-887 | two events are stored under one key if and only if they are in the same channel of a workspace and are direct messages of one user, or none is and they are in one thread; without a channel they share one per workspace |
| `ConversationKeys.IntakeSharesRowsExactly` | crates/channel/slack/src/normalize.rs:100-195 | the same in terms of what intake reads |
| `SummaryBound.BoundSummary` | crates/runtime/src/lib.rs:566-575 | the boundary search on bytes takes at most three steps and yields the longest fitting suffix, its leading white space trimmed |
| `SummaryBound.BoundedBytes` | crates/runtime/src/lib.rs:566-575 | the result's bytes are valid UTF-8 and the last bytes of the original |
| `SummaryBound.BoundedIsShortSuffix` | crates/runtime/src/lib.rs:566-575 | a suffix of at most 2000 bytes |
| `SummaryBound.UpdatedSummaryIsStored` | crates/runtime/src/lib.rs:537-564 | what a turn stores fits and is not blank; it stores nothing if and only if all three parts are blank |
| `SummaryBound.LatestReplySurvives` | crates/runtime/src/lib.rs:537-575 | a reply of at most 2000 bytes is kept whole at the end |
| `SummaryBound.TurnsKeepTheBound` | crates/runtime/src/lib.rs:406-414 | over any number of turns the stored summary stays within 2000 bytes and not blank, and exists once there was one or anybody spoke |
| `SummaryText.UpdateSays` | crates/runtime/src/lib.rs:537-564 | an update is the previous summary, the message and the reply, trimmed, in this order and under their headings, without what is missing; kept whole if it fits and otherwise as much of its end as does |
| `SummaryText.TrimDropsBlanks` | crates/runtime/src/lib.rs:561-564 | trimming takes the blanks at both ends and nothing else |
| `Utf8.BoundaryIsNear` | crates/runtime/src/lib.rs:570-573 | from any byte position a character boundary is at most three bytes away |
| `Utf8.ValidExactly` | crates/runtime/src/lib.rs:566-575 | bytes are valid UTF-8 if and only if they are the encoding of some string by section 3 of RFC 3629 |

## Left out

- The SQLite state store (crates/state): only its contract appears, as inputs: a claim, a lease
  that may be refused, a completion that may be lost, and for `DeliveryRetriesAreBounded` attempts
  that grow and claims no earlier than the granted time.
- TLS, sockets, Ed25519, SHA-256 and process hardening: signature checks are steps that can fail,
  the digest theorems are about the digested text.
- The relay, broker and control-side session modules; only the executor side is modelled.
- The delivery worker and the status dispatcher are step machines over values rather than
  imperative code, because their tasks interleave between awaits; their guarded state is a class.
- Atomicity of the status model: one API call, and one worker step between transport awaits, is
  one step. The retire check and the map removal after it, and the unlock and the send in set, are
  not split. Sessions of one controller on one thread do not overlap, as its worker runs one
  dispatch at a time, and a clear takes effect before it returns.
- The dispatcher without a client, log flags, telemetry and metrics.
- SlackCodexStreamController: its loading ticker updates after releasing its lock, so there is no
  final-text guarantee to state.
- Lock poisoning, and the wrap of 64-bit session, sequence and epoch counters.
- `RetryAfterSeconds`: Rust's clamp panics for a cap of zero; no accepted policy has one.
- Frame contents the executor does not branch on: evidence, attested profile fields, task text.
- The parsers of tool arguments: a call is given with its parsed fields or the reason they were
  refused. Authorization, target resolution and schedule arithmetic are answers of the environment.
- Tool calls are served one at a time in `ScheduleAudit`; the record of a call depends on no other.
- The parse failure of an applied mutation's response: the store hands back the text the service
  printed (crates/state/src/scheduler/store.rs:690-692), so that branch cannot be taken.
- Retention cleanup of summaries deletes any stored rows, one at a time; how old they are, and what
  else it deletes, plays no part.
- A dropped summary write takes effect at the drop or never, not after the permit is released.
- A registration the store commits but answers with an error; the cache then stays behind it.
- Latency in audit records, and the order in which preparation finds several errors at once.
- A JSON number is held as the text serde_json writes for it; that it writes different numbers
  differently is taken from serde_json.
- Dispatch without a lock set: there is then no exclusion to prove.
- Configuration, CLI, MCP server, HTTP endpoints, rendering: plumbing with single-branch checks.
