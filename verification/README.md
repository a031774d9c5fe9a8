# Lake Pass Bot: a verified model of the booking-job engine

The engine books a lake pass by clicking a final confirmation in a browser, exactly once, on behalf of an account. The
click cannot be undone, and the process that makes it is not the process that keeps the database. This project models
the parts of the system that keep its promise (never book twice, never lose a possible booking, let a committed
cancellation win) and proves them over every interleaving of the parts.

How the modules fit together:

- `Types`, `JobTable`: the job vocabulary and the meaning of every SQL statement and immediate transaction on the
  job, decision, reservation, account and profile tables, the reservation triggers included. One function is one atomic step.
- `JobInvariants`, `JobRuns`, `Retention`: what every statement keeps, over every sequence of statements.
- `JobEffects`, `Admission`, `AccountEffects`: exactly when a statement moves a row, starts a job, lets one in or takes an
  account away, told in the system's own terms and not through the statements' definitions.
- `TransitionQuery`, `Store`: the positional query builder and the store object, as imperative code proved against `JobTable`.
- `Frames`, `Inbox`, `Worker`, `Action`: the worker's side. `Worker` is the protocol automaton; `Action` is the booking
  program (login, polling, approval, click) as loops and calls with the page as an oracle, and every act it performs is
  proved to be a move of the automaton; `Inbox` is the control inbox with its look-ahead.
- `Coordinator`, `Hub`, `Engine`: the control plane's event loop, the live hub and the outcome rewriting.
- `Link`, `Progress`: one job's two processes and two FIFO channels as a product machine; it is safe, and no wait is forgotten.
- `System`, `Safety`: the tables, a product machine per claimed job, decisions, the final write, the clock, and crashes
  that leave a worker running; and what every run of that satisfies.
- `Text`, `Otp`, `Twilio`, `BlueBubbles`: code selection, the bounded deduplicator and the two providers' polling.
- `Accounts`: sessions and password changes whose verification happens outside the transaction that uses it.
- `Timing`, `Timestamp`: release windows, and the text form of stored instants.
- `Collections`: minimum, maximum and the size of a subset, shared by the others.

Modelling choices that matter:

- Randomness, the clock, the network and the page are parameters or nondeterministic steps. Correlation ids and session
  ids are fresh values; password hashes are opaque and a new hashing never repeats an old one.
- A store call that the coordinator is told has failed may still have been committed; a crash may happen between any
  two steps, and the worker of a crashed run keeps going.
- A committed re-read of a job is fresh, stale or failed: the engine may miss a marker that is there, and never sees one
  that is not.
- Job ids and profile ids are never reused (AUTOINCREMENT). New booking rows are for a day that has not passed
  everywhere, which `Timing.EngineEnqueueIsAdmissible` derives from the engine's own admission checks for rows written
  up to ten hours after the check.
- The code adds one edge to its own transition graph, queued to failed on expiry (internal/store/jobs.go:332-338), which
  the transition predicate does not list (internal/model/jobs.go:66-79). The model follows the code, and
  `JobRuns.LeavesTheGraphExactly` says which statement takes that edge on which rows.
- Twilio messages that predate the arm: the code promises nothing beyond its one-page snapshot.
  `Twilio.StaleExactly` gives the exact condition, which can be read off the arm, under which such a message can come
  back; `Twilio.CrowdedSecondIsStale` is an input for which it does.
- A startable immediate booking can still be refused at start, exactly when its visit day has passed at the lake since
  it was queued (`Timing.ImmediateStartsExactly`), which can happen exactly when local midnight of the visit day falls in
  its 15 minutes (`Timing.RefusedAfterMidnightExactly`); a startable scheduled booking never is.
- A maintenance pass purges past guards before it removes rows, so the rows it removes leave guards for the next pass
  (`Store.Store.SystemPruneTerminalJobs` says exactly which).
- An unknown outcome reported without a marker would leave a job leased (`Engine.UnmarkedUnknownIsNotFinished`); the
  worker modelled here never reports one (`Safety.FinishAlwaysTerminates`).

## Model

| member | source | states |
|---|---|---|
| Safety.NeverBookTwice | internal/store/migrations/0003_booking_reservations.sql:1-77 | over every run, crashes and orphaned workers included, two click steps are by different jobs and for different profile and day |
| Safety.ClickFollowsDurableMarker | internal/control/coordinator.go:392-412 | every click step comes after a step that committed the job's marker, while the row was leased and uncancelled and its account active |
| Safety.ManualClickWasApproved | internal/engine/engine.go:430-436 | a click of a manual or immediate booking follows the owner's first recorded approval of the awaiting job, and then the committed return from awaiting approval to running |
| Safety.CancelledIsNeverClicked | internal/store/jobs.go:174-192 | if the job is ever clicked, then at every moment its marker is unset its row is uncancelled: a cancellation committed before the marker means no click before or after |
| Safety.BookedWasConfirmed | internal/control/coordinator.go:137-145 | a book row stored as succeeded has, in this order, a step in which its worker took the acknowledgement of a confirmation id, a click step, and a step in which its worker emitted the completed confirmation with that id |
| Safety.ClickedEndsSucceededOrUnknown | internal/store/jobs.go:51-92 | a clicked job's stored terminal status is succeeded or unknown on every path, restart included |
| Safety.FinishAlwaysTerminates | internal/engine/engine.go:449-461 | with this worker, a committed final write always leaves the row terminal |
| Safety.RowStays | internal/store/jobs.go:24-158 | over any run of the whole system a row keeps identity, marker, cancellation and terminal status from any state to any later one |
| Safety.MarkerWasWritten | internal/store/jobs.go:140-158 | a run that holds the marker got it from its own committed write |
| Safety.ApprovalWasRecorded | internal/store/job_decisions.go:12-49 | an approved job has a step in which its active owner's approval was inserted, while the job was awaiting approval and undecided |
| Safety.ResumeWasCommitted | internal/engine/engine.go:430-436 | a resumed run has a step that committed awaiting approval to running after an approval reached it |
| System.StepKeepsInv | cmd/lake-pass-bot/serve.go:30-63 | every step of the system, crash and restart included, keeps the tables well formed, every marked run guarded, and no two confirming runs on one slot |
| System.MarkedLeavesGuard | internal/store/migrations/0003_booking_reservations.sql:60-77 | deleting a marked booking's row leaves its slot guarded, or its profile gone |
| System.VacatedStays | internal/store/jobs.go:352-361 | a slot whose marked job is gone stays closed to new bookings, also after its guard is purged |
| System.MarkingIsAlone | internal/store/migrations/0003_booking_reservations.sql:4-9 | a job with its marker set shares its slot with no other job that may have confirmed |
| System.OutsideGrantsNothing | internal/store/jobs.go:174-192 | no statement from outside the running jobs moves a row to running, awaiting approval or succeeded |
| Link.NoProtocolError | internal/control/coordinator.go:286-437 | no interleaving of worker and coordinator over FIFO channels raises a protocol error on either side |
| Link.ClickFollowsMarker | actions/src/lake_pass_actions/control.py:141-166 | in one run's machine a click is the first, and follows the marker and, in manual mode, the resumed approval |
| Link.StepKeepsInv | internal/control/coordinator.go:146-253 | every step keeps all queued requests acceptable, at most one live reply in flight, and that reply the awaited one |
| Link.ArmOneMore | internal/control/coordinator.go:308-326 | arming a challenge late keeps every queued request legal, and it stays armed unless a queued frame closes it |
| Link.RepliesIgnore | actions/src/lake_pass_actions/protocol.py:223-235 | closing a challenge removes replies to it, and leaves none if all were to it |
| Progress.NoReplyIsLost | internal/control/coordinator.go:286-437 | in every state of every interleaving, while the loop is live, the reply the worker waits for is owed by the coordinator or is the one reply on its way, never neither and never both |
| Progress.NeverStuck | internal/control/coordinator.go:146-253 | and whenever the worker waits, a step towards its reply can be made: no deadlock |
| Progress.EveryWaitEnds | internal/control/coordinator.go:146-253 | a wait that is served by such steps ends within a bound read off the channels, the code waits and the approval |
| Link.WorkerIsTheAutomaton | actions/src/lake_pass_actions/control.py:46-205 | each worker step of the machine is the corresponding move of the worker automaton |
| Worker.AtMostOnce | actions/src/lake_pass_actions/providers/yodel/action.py:424-462 | every trace from any point asks for approval, starts a confirmation, clicks and completes at most once |
| Worker.ClickIsJustified | actions/src/lake_pass_actions/providers/yodel/action.py:569-593 | a click in any trace is a book command's, after an acknowledged confirmation and, in manual mode, an approval with matching ids |
| Worker.BookSuccessIsVerified | actions/src/lake_pass_actions/providers/yodel/action.py:146-169 | a book trace that succeeds emitted the completed confirmation first |
| Worker.EveryTraceIsExplained | actions/src/lake_pass_actions/control.py:46-205 | at every point of every trace the handshakes that lead to its control point have happened |
| Worker.StagesOnlyRise | actions/src/lake_pass_actions/providers/yodel/action.py:464-593 | no act moves back on the way to the click |
| Worker.RepliesAdvance | actions/src/lake_pass_actions/control.py:46-205 | where each wait leads: a cancel ends the run, the reply of the right kind and id carries it on, anything else is a protocol error |
| Worker.ABookingCanBeMade | actions/src/lake_pass_actions/providers/yodel/action.py:146-169 | for every book program there is a trace that signs in with a code, books and reports success, so the safety laws are not empty |
| Action.YodelAction.Process | actions/src/lake_pass_actions/worker.py:284-351 | the whole program's trace, a rejected configuration, an interrupt and a failed launch included, is a run of the automaton that ends in exit, with at most one approval request, confirmation start and click |
| Action.YodelAction.RunAction | actions/src/lake_pass_actions/worker.py:306-320 | from an accepted start every path (rejected configuration, failed launch, interrupt, failure, success) ends the run, by moves of the automaton only |
| Action.YodelAction.Execute | actions/src/lake_pass_actions/providers/yodel/action.py:146-169 | a successful return is at a point from which success may be reported |
| Action.YodelAction.EnsureAuthenticated | actions/src/lake_pass_actions/providers/yodel/action.py:171-220 | returns free of any open challenge or ends the run |
| Action.YodelAction.CompleteLoginForm | actions/src/lake_pass_actions/providers/yodel/action.py:222-266 | closes the challenge it opened on every path |
| Action.YodelAction.CompleteExistingOtpChallenge | actions/src/lake_pass_actions/providers/yodel/action.py:268-287 | arms, triggers, submits and closes one challenge, or ends the run |
| Action.YodelAction.FillAndSubmitOtp | actions/src/lake_pass_actions/providers/yodel/action.py:289-326 | a submitted challenge is closed as submitted |
| Action.YodelAction.WaitForReleaseIfNeeded | actions/src/lake_pass_actions/providers/yodel/action.py:345-397 | waiting and re-authentication leave no exchange open |
| Action.YodelAction.PollForBooking | actions/src/lake_pass_actions/providers/yodel/action.py:436-462 | any number of attempts over any pass order makes at most one approval request, one confirmation start and one click |
| Action.YodelAction.TryBookingOnce | actions/src/lake_pass_actions/providers/yodel/action.py:424-434 | stops at the first pass that is booked |
| Action.YodelAction.TryPass | actions/src/lake_pass_actions/providers/yodel/action.py:464-567 | past the approval request every path confirms or ends the run |
| Action.YodelAction.ClickFinalConfirmation | actions/src/lake_pass_actions/providers/yodel/action.py:569-593 | returns only confirmed |
| Action.YodelAction.RequestCredentials | actions/src/lake_pass_actions/control.py:46-57 | takes the correlated reply or ends the run |
| Action.YodelAction.PrepareOtp | actions/src/lake_pass_actions/control.py:59-91 | returns an armed challenge or ends the run |
| Action.YodelAction.WaitForOtp | actions/src/lake_pass_actions/control.py:96-127 | returns with the code or ends the run with the challenge closed |
| Action.YodelAction.WaitForApproval | actions/src/lake_pass_actions/control.py:168-205 | returns only approved; cancel, expiry and protocol faults end the run |
| Action.YodelAction.AwaitConfirmationReady | actions/src/lake_pass_actions/control.py:141-166 | returns only with the acknowledged confirmation id |
| Inbox.ControlInbox.Next | actions/src/lake_pass_actions/protocol.py:164-184 | takes the first live item of the FIFO, a frame as it is, the end of the stream as a cancel, an unreadable one as an error; it times out only if none is there or delivery is late |
| Inbox.ControlInbox.CheckCancelled | actions/src/lake_pass_actions/protocol.py:204-221 | the look-ahead leaves the live stream as it was when it raises nothing, and then the stream holds no cancel; otherwise the first stop in the queue decides what is raised |
| Inbox.ControlInbox.IgnoreOtpChallenge | actions/src/lake_pass_actions/protocol.py:223-235 | the live stream loses the closed challenge's frames and nothing else |
| Inbox.ControlInbox.Deliver | actions/src/lake_pass_actions/protocol.py:156-162 | a delivered item goes to the end of the live stream unless its challenge is closed |
| Inbox.LiveIgnore | actions/src/lake_pass_actions/protocol.py:223-235 | filtering by one more closed challenge is filtering the filtered stream |
| Inbox.LiveMembers | actions/src/lake_pass_actions/protocol.py:164-184 | the live stream holds exactly what was received and is not a provider's reply to a closed challenge |
| Coordinator.RunState.HandleFrame | internal/control/coordinator.go:286-437 | handling a frame is the reaction function; a refused frame changes nothing, each request that is not refused gets the answer with its own id that says how the call went, and challenges, code waits, confirmation, completion and report are recorded |
| Coordinator.RefusedExactly | internal/control/coordinator.go:286-437 | exactly which frames are protocol errors in which state, and that they change, send and call nothing |
| Coordinator.RequestsAreAnswered | internal/control/coordinator.go:299-412 | start, credentials, arm and confirmation are answered at once with their own id, ready or error as the call went; nothing else is |
| Coordinator.FramesAreRemembered | internal/control/coordinator.go:308-437 | which challenges are open, which codes awaited, which confirmation started, and the last report, after any frame |
| Coordinator.CodesAreDelivered | internal/control/coordinator.go:188-216 | a code is provided, its absence reported as expired and a failure as an error, with the challenge's id and only while it is open |
| Coordinator.RunState.Run | internal/control/coordinator.go:104-253 | over any events the loop ends at the first fault or once the process has exited and its frames are read; a seen completion is a success; otherwise exactly which status is returned, from the report, the started confirmation and an interrupt, with the exit code |
| Coordinator.ClassificationIsConservative | internal/control/coordinator.go:255-271 | exactly when each of the five statuses is reported, with the worker's message where its report stands and always its exit code |
| Hub.Hub.BeginDecision | internal/control/hub.go:232-240 | refused exactly when a waiter exists; otherwise the job has an undecided waiter, others unchanged |
| Hub.Hub.Decide | internal/control/hub.go:242-257 | delivers to an undecided waiter exactly; the send finds the channel empty, so it never blocks |
| Hub.Hub.CancelDecision | internal/control/hub.go:280-289 | an undecided waiter is answered with a cancel, a decided one is left alone |
| Hub.Hub.TakeDecision | internal/control/hub.go:259-278 | returns the one value sent and removes the waiter |
| Hub.Hub.SetPairingCandidates | internal/control/hub.go:91-113 | accepted exactly when a named candidate exists and no pairing is pending; then exactly the named candidates are offered, by id |
| Hub.Hub.ChoosePairing | internal/control/hub.go:126-143 | the first valid choice is sent, a second one is refused |
| Hub.Hub.TakePairing | internal/control/hub.go:145-160 | returns the chosen candidate and ends the pairing |
| Hub.Waiter.Answer | internal/control/hub.go:242-257 | one send in a waiter's life, into an empty channel of capacity one |
| Hub.CollectCandidates | internal/control/hub.go:91-101 | exactly the named candidates by id |
| Engine.MarkedOutcome | internal/engine/engine.go:139-183 | with the marker stored on a leased row, the outcome is succeeded or unknown whatever was seen, and succeeded exactly when reported and not overridden; only a success while approval is awaited is refused |
| Engine.ConclusionIsTerminal | internal/engine/engine.go:139-183 | the concluded status is terminal, succeeded exactly when reported and not overridden, unknown exactly in two cases |
| Engine.ConclusionExactly | internal/engine/engine.go:139-183 | exactly when each of the five outcomes is concluded, told from the answer and what the engine saw, with which message and which exit code |
| Engine.PlainResultIsConcluded | internal/engine/engine.go:166-182 | with no marker, override, limit or missing pairing a returned result is concluded unchanged |
| Engine.OutcomeIsStored | internal/engine/engine.go:449-461 | for every answer and sight: what the final write leaves of a leased row, status, message, exit code and times; marked rows are unknown unless succeeded, withdrawn ones cancelled, all others as meant; no other row is touched |
| Engine.FinishFailsExactly | internal/store/jobs.go:43-45 | the final write on a leased row fails exactly on unknown without a marker or success while approval is awaited |
| Engine.UnmarkedUnknownIsNotFinished | internal/store/jobs.go:43-45 | an unknown outcome without a marker is rejected and the row stays as it was |
| Engine.Engine.ExecuteWithBudgets | internal/engine/engine.go:220-231 | an error stays an error and the exit code is kept; a success is a reported one whose pairing is in place, an unpaired one becomes a failure; an unknown outcome is never changed, and a passed limit turns everything else into a failure that names it |
| Engine.Engine.RunClaimed | internal/engine/engine.go:139-183 | the tables after a run are those of the concluded final write, and a leased row ends as the answer and what was seen mean it to, with that message and exit code |
| Engine.Engine.FinishJob | internal/engine/engine.go:449-461 | the tables after finish are those of the expected-state transition, or unchanged |
| TransitionQuery.Build | internal/store/jobs.go:47-126 | placeholders and arguments agree in number and order, and evaluating the bound query performs the intended three-way resolution of any row |
| TransitionQuery.AppendResolution | internal/store/jobs.go:64-92 | a bound CASE evaluates to the branch the resolution picks |
| TransitionQuery.AppendAssigned | internal/store/jobs.go:93-110 | appending an assignment with its arguments appends its effect |
| Store.Store.SystemTransitionJob | internal/store/jobs.go:24-138 | the loop of checks, the built query and its execution equal the intended transition, errors included |
| Store.Store.SystemMarkConfirmationStarted | internal/store/jobs.go:140-158 | marks exactly a leased, uncancelled row of an active account, keeping an earlier marker |
| Store.Store.RequestJobCancellation | internal/store/jobs.go:174-215 | cancels a queued row, flags a leased one, and tells a missing job from an ended one |
| Store.Store.SystemRecoverInterruptedJobs | internal/store/jobs.go:311-330 | no row is leased afterwards, and the count is the number that were |
| Store.Store.SystemExpireStaleJobs | internal/store/jobs.go:332-347 | exactly the queued rows whose expiry has come fail |
| Store.Store.SystemClaimNextDueJobAt | internal/store/job_queue.go:247-289 | a claimed job is due, unexpired, uncancelled, its account active, its profile and request enabled, its source its owner's and nothing it uses leased; it is the first such by due time and id, and if none is claimed there is none |
| Store.Store.AdmitJob | internal/store/job_queue.go:60-182 | the step-by-step lookups admit exactly the jobs whose parts exist, are enabled and have one owner; the row's source is the one named, else the preferred, else the profile's, and due time, expiry and key are those asked for |
| Admission.AdmittedExactly | internal/store/job_queue.go:60-182 | a job is admitted if and only if what is asked makes sense now, its request and profile exist, are enabled, are the actor's and of one owner, its code source is that owner's, and no other sign-in it duplicates is pending |
| Admission.RefusedBecause | internal/store/job_queue.go:60-182 | what each error of a refusal means |
| Admission.EnqueuedExactly | internal/store/job_queue.go:183-239 | an admitted job is inserted if and only if its account is active, below 8 pending and 200 retained rows after pruning, and it clashes with no row; the error says which failed, and the insert takes the slot |
| Admission.ReachableRowsAreApart | internal/store/migrations/0001_initial.sql:204-217 | in every reachable state no two rows share a key, and a request in a mode, or the pairing of a source, has at most one pending run |
| Store.Store.EnqueueJob | internal/store/job_queue.go:60-239 | inserts a queued row under the next id exactly when admission, quotas and uniqueness allow |
| Store.Store.RecordJobDecision | internal/store/job_decisions.go:12-49 | first writer wins; an accepted answer is the stored one |
| Store.Store.UpdateUser | internal/store/accounts.go:190-243 | disabling revokes the account's pending jobs in the same step |
| Store.Store.SystemPruneTerminalJobs | internal/store/jobs.go:352-367 | every account keeps exactly its newest 128 eligible rows and all its others, unchanged; the count is the number removed; of the past days' slots exactly those of confirmed rows removed in this pass are left as guards |
| JobRuns.ReachableTablesAreWellFormed | internal/store/jobs.go:24-158 | every reachable row is well formed, and two leased jobs share neither profile nor OTP source |
| JobRuns.ApplyKeeps | internal/store/job_queue.go:241-289 | every statement keeps the tables well formed and evolves rows, guards and ids only as allowed; see the next row for the edge outside the transition graph |
| JobRuns.LeavesTheGraphExactly | internal/store/jobs.go:332-347 | a statement moves a row off the transition graph exactly if it sweeps, by itself or as part of a claim, and the row is queued past its expiry |
| JobRuns.ExpiryLeavesTheGraph | internal/model/jobs.go:66-79 | and such a row: queued, expired, swept to failed, which the graph does not list |
| JobEffects.StatusChangesExactly | internal/store/jobs.go:24-347 | for every statement and every other status: a row goes there if and only if the cause holds that the source gives for it, claim, expiry, cancellation, disable, approval, resumption, final write or recovery |
| JobEffects.EveryEndIsRecorded | internal/store/jobs.go:51-126 | whichever statement ends a job, the row records when, with which message and exit code, drops its lease, and is otherwise as it was |
| JobEffects.FinishWrites | internal/store/jobs.go:51-126 | exactly when the final write is made and all it records; no other row is touched |
| JobEffects.ApprovalBegins | internal/store/jobs.go:24-138 | a job goes to awaiting approval exactly from running and not withdrawn, with that message |
| JobEffects.ApprovalResumes | internal/store/jobs.go:24-138 | and back exactly from awaiting approval and not withdrawn |
| JobEffects.ClaimStartsTheNextReadyJob | internal/store/job_queue.go:247-289 | a claim starts exactly the job that is ready and first by due time and id, under the claimer and now; every other row is left or expired |
| JobEffects.ReadyIsClaimable | internal/store/job_queue.go:266-269 | the reservation a claim looks for is always held by a queued booking, so it never keeps a ready job waiting |
| JobEffects.TransitionIsMade | internal/store/jobs.go:24-138 | a transition is made if and only if the row is in an expected state from which it may go there, unknown only with a marker, and back to running or awaiting only if not withdrawn; what each error means |
| JobEffects.TransitionWritesRow | internal/store/jobs.go:51-126 | every column after a transition: the outcome resolved against marker, cancellation and account, marker and first start written once |
| JobEffects.MarkerIsWritten | internal/store/jobs.go:140-158 | the marker is written if and only if the row is leased and not withdrawn, an earlier one is kept, and nothing else changes |
| JobEffects.FirstDecisionCounts | internal/store/job_decisions.go:12-49 | the first decision of the active owner on the awaiting job is kept for good; exactly what each later caller is answered |
| AccountEffects.AccountIsSet | internal/store/accounts.go:190-243 | an account is changed if and only if it exists and no administrator is disabled, and what is left alone |
| AccountEffects.DisableReachesPending | internal/store/accounts.go:222-237 | a disable flags each pending job of the account, ends the queued ones, and changes no other row |
| AccountEffects.DeletedExactly | internal/store/accounts.go:244-308 | a member can be deleted if and only if disabled, confirmed by name, with nothing pending and no foreign job on their profiles |
| AccountEffects.MemberIsDeleted | internal/store/accounts.go:244-308 | nothing of a deleted member is left, and everything of everyone else is as it was |
| AccountEffects.ProfileIsDeleted | internal/store/profiles.go:258-274 | a profile is deleted if and only if by its owner and while no job or request names it, with its guards and nothing else |
| JobRuns.RowHistory | internal/store/jobs.go:24-158 | identity, marker, cancellation and terminal status are kept from any state to any later one |
| JobRuns.DeletedStaysDeleted | internal/store/jobs.go:369-396 | a deleted job's id never comes back |
| JobRuns.CommittedCancellationWins | internal/store/jobs.go:56-63 | after a cancellation without marker the marker stays unset and the job can only end cancelled or interrupted |
| JobRuns.MarkedJobsEndSucceededOrUnknown | internal/store/jobs.go:311-321 | the marker is durable and the job can only end succeeded or unknown |
| JobRuns.DisableRevokes | internal/store/accounts.go:222-237 | work pending at a disable stays revoked, also if the account is enabled again |
| JobRuns.ClaimTakesTheFirstDueJob | internal/store/job_queue.go:255-284 | a claim leases the least claimable job, expires the stale ones and touches nothing else |
| JobRuns.ExpiryKeepsCandidates | internal/store/job_queue.go:252-254 | sweeping stale work first does not change who can be claimed |
| JobInvariants.EditKeeps | internal/store/migrations/0003_booking_reservations.sql:60-67 | legal row edits with the release trigger keep rows, leases and reservations |
| JobInvariants.AdmissionIsSound | internal/store/job_queue.go:60-182 | whatever is queued has profile, source and request of one owner, who is the actor if there is one, all enabled, with the source named or preferred or the profile's, the due time, expiry and key asked for, a mode that fits the command and admitted timing |
| JobInvariants.CancellationCommits | internal/store/jobs.go:174-215 | accepted exactly for the owner's pending or cancelled job; ends a queued job, flags a leased one, touches no other row |
| JobInvariants.EnqueueKeeps | internal/store/job_queue.go:183-239 | pruning and inserting keep the tables well formed, and pruning frees no slot for the new row |
| JobInvariants.PruneFreesNoSlot | internal/store/migrations/0003_booking_reservations.sql:69-77 | retention never makes a reserved slot free |
| Retention.PruneKeepsTheNewest | internal/store/jobs.go:369-396 | exactly the newest 128 eligible rows of an account, by update time and then id, are kept, by its own pass and by the pass over all accounts |
| Retention.PruneSpares | internal/store/jobs.go:382-388 | pending, unknown and dedup-protected rows and other accounts are untouched |
| Retention.PruneIsIdempotent | internal/store/jobs.go:369-396 | pruning twice is pruning once, for one account and for the pass over all of them |
| Retention.GlobalPruneIsEachAccountsPrune | internal/store/jobs.go:375-391 | the global pass equals the per-account passes, in any order of the accounts |
| Retention.ReachableQuotas | internal/store/job_queue.go:183-203 | in every reachable state an account has at most 8 pending and 200 retained jobs |
| Otp.Deduper.Add | internal/otp/otp.go:210-228 | reports new exactly when unseen and not blank, and keeps the bounded FIFO |
| Otp.Deduper.constructor | internal/otp/otp.go:197-206 | at least one slot, seeded in order |
| Otp.Select | internal/otp/otp.go:166-188 | what comes back is received, recent, names a code and agrees with every field of the filter that is set; no such message seen for the first time is missed; newest first by time, cursor and id |
| Otp.Matches | internal/otp/otp.go:121-163 | the checks let through exactly the messages that are inbound, fresh, name a code and agree with every set field; pairing also needs chat, sender, service and the provider's word |
| Otp.SelectionIsExact | internal/otp/otp.go:166-188 | the selection is genuine, complete for first-seen messages, and in descending order |
| Otp.NewestFirstSorts | internal/otp/otp.go:177-186 | the order is total and the result a sorted permutation |
| Twilio.SnapshotIsNeverReturned | internal/otp/twilio/twilio.go:185-271 | for any number of polls over a growing inbox the bounded deduplicator answers as an unbounded one, and never with a message of the arm snapshot |
| Twilio.NothingIsMissed | internal/otp/twilio/twilio.go:220-271 | polling goes on only while no inbox seen so far holds a genuine message newer than the arm; the first that does answers with the newest of them, unless that inbox cannot be listed back to the cursor reached, and exactly then the window is exceeded |
| Twilio.BoundedIsUnbounded | internal/otp/otp.go:210-228 | from any reachable point polling with the bounded set equals polling with a set that forgets nothing |
| Twilio.ListingCovers | internal/otp/twilio/twilio.go:283-320 | a listing is the newest part of the inbox, holds everything needed, and is bounded |
| Twilio.OnlyACrowdedSecondIsStale | internal/otp/twilio/twilio.go:240-247 | a message older than the arm comes back only in the newest second of the arm, and only if a whole page shared it |
| Twilio.StaleExactly | internal/otp/twilio/twilio.go:185-271 | some polls of a growing inbox answer with a message that predates the arm if and only if a fitting message of the newest second was not on the first page and the inbox of the arm can be listed back to that second |
| Twilio.ListedExactly | internal/otp/twilio/twilio.go:283-320 | a listing succeeds exactly when the inbox fits the pages or the last message they reach is older than needed |
| Twilio.CrowdedSecondIsStale | internal/otp/twilio/twilio.go:240-247 | an input for which one does: two messages in one second, a page of one |
| Twilio.Arm | internal/otp/twilio/twilio.go:185-218 | the ids of the first page and the newest time in the inbox |
| Twilio.ListMessages | internal/otp/twilio/twilio.go:283-320 | the page loop returns the specified listing or gives up at the page bound |
| Twilio.WaitForCode | internal/otp/twilio/twilio.go:220-271 | the poll loop computes the specified answer, and a code it returns is genuine, not older than the arm, and was in a polled inbox |
| Twilio.FoundIsGenuine | internal/otp/twilio/twilio.go:220-271 | whatever is polled and whatever was forgotten, a returned code is genuine, not older than the cursor and was listed |
| BlueBubbles.FetchAfter | internal/otp/bluebubbles/bluebubbles.go:262-302 | all rows above the cursor of the log at the last page, in order, although rows arrive between pages; the last page is the first that reaches the end or finds the window exceeded, and the fetch is refused exactly then |
| BlueBubbles.FetchIsExact | internal/otp/bluebubbles/bluebubbles.go:282-293 | those are exactly the rows in (cursor, newCursor], and nothing is above newCursor |
| BlueBubbles.Wait | internal/otp/bluebubbles/bluebubbles.go:211-237 | for any polls over a growing log: every poll before the last one made read its log to the end and nothing genuine had arrived since the arm; the last one answers with exactly the genuine messages since the arm, newest first, or that the rows above the cursor reached exceed the window, exactly when they do; it is still waiting only after all polls |
| BlueBubbles.Poll | internal/otp/bluebubbles/bluebubbles.go:214-236 | one poll from the cursor reached: refused exactly past the window, otherwise all matches since the arm and the new cursor |
| BlueBubbles.CandidatesAreFresh | internal/otp/bluebubbles/bluebubbles.go:211-237 | of the logs the polls read, none before the last holds a genuine message that arrived after the arm, and what is returned is exactly those of the last; none of them was there at the arm |
| BlueBubbles.PollIsExact | internal/otp/bluebubbles/bluebubbles.go:221-232 | one poll picks exactly the matches above the arm, whatever the deduplicator forgot, and moves the cursor to the last row |
| BlueBubbles.Arm | internal/otp/bluebubbles/bluebubbles.go:155-189 | the highest ROWID at the arm |
| Accounts.EverySessionIsCurrent | internal/store/auth.go:35-48 | in every interleaving every session's owner is active and has the password hash the session was created under |
| Accounts.AtMostOneChangeWins | internal/store/auth.go:106-158 | of all changes that verified the same password of a user at most one is ever applied |
| Accounts.AppliedWasUninterrupted | internal/store/sessions.go:32-71 | a verified login, password change or rename is applied only if the verified password stayed the account's throughout and the account is active |
| Accounts.HashIsUninterrupted | internal/store/auth.go:133-148 | a hash a user has at two moments was theirs all the time between |
| Accounts.SessionsStayCurrent | internal/store/accounts.go:222-225 | every step keeps sessions current |
| Accounts.SessionsChangeExactly | internal/store/sessions.go:32-71 | for every step and session: it appears exactly on an open or a login whose verified password is still the active user's, and goes exactly on a drop, a new password, a disable or a deletion of its user |
| Accounts.PasswordsChangeExactly | internal/store/auth.go:74-158 | a user's password changes exactly on an applied change, a reset or an administrator's recovery, and to the hash the step brings |
| Accounts.VerificationsChangeExactly | internal/store/auth.go:106-158 | a verification is kept until finished or abandoned, and is used up then |
| Accounts.AccountStore.NewSessionInScope | internal/store/sessions.go:32-71 | a session is created exactly for a new id, an active user and, if one was verified, the hash still in force; every other session and every user is unchanged, and sessions stay current |
| Accounts.AccountStore.ApplyPasswordChange | internal/store/auth.go:128-158 | applied exactly while the verified hash is still the active account's; then no session of the user remains, all others do, the hash is the new one, and sessions stay current |
| Accounts.AccountStore.ResetUserPassword | internal/store/auth.go:74-102 | refused exactly for an unknown user; otherwise no session of the user remains, all others do, the hash is the new one, and other users are unchanged |
| Accounts.AccountStore.UpdateAccount | internal/store/accounts.go:190-243 | a disable leaves the user no session and everyone else theirs, and never hits an administrator; an enable or rename leaves every session, and the hash is kept |
| Accounts.AccountStore.VerifyPassword | internal/store/auth.go:50-70 | yields the current hash exactly for a fitting password of an active account |
| Timing.EnqueuedTimingIsAdmitted | internal/store/job_queue.go:83-100 | scheduled timing always passes the store's checks, immediate timing exactly within its 15 minutes |
| Timing.EnqueueChoice | internal/engine/lake_booking.go:25-39 | exactly which requests are accepted, immediate exactly from the release on, and the mode, due time and expiry chosen |
| Timing.CommandChoice | internal/engine/booking_queue.go:113-156 | for each command exactly when parameters are made, and their mode, due time and expiry |
| Timing.StartableAlwaysStarts | internal/engine/booking_queue.go:52-94 | a scheduled booking with due <= now < expiry starts, the worker accepts its timing, release and sign-in deadline are those of the window, and the poll budget is the lesser of configured and remaining, rounded up, at least 1 |
| Timing.ImmediateStartsExactly | internal/engine/booking_queue.go:36-48 | a startable immediate booking starts exactly while its visit day has not passed at the lake |
| Timing.RefusedAfterMidnightExactly | internal/engine/booking_queue.go:36-48 | some startable moment of an immediate booking is refused exactly when local midnight of its visit day falls within its lifetime |
| Timing.RefusedStart | internal/engine/booking_queue.go:36-48 | one that is: queued five minutes before midnight, claimed a minute after it |
| Timing.DeadlineIsNotBeforeExpiry | internal/engine/execution_budget.go:20-38 | the execution deadline is the expiry of an immediate booking and the checkout grace past it of a scheduled one, so never before it |
| Timing.DeadlineRefusedExactly | internal/engine/execution_budget.go:20-38 | exactly when there is no deadline, and that a check's is its start plus the interactive budget |
| Timing.MalformedImmediate | internal/model/jobs.go:107-119 | exactly what makes an immediate booking malformed |
| Timing.AdmittedVisitsAreAdmissible | internal/engine/lake_booking.go:25-39 | any admitted booking's visit day is no earlier than yesterday, also if its row is written hours later |
| Timing.EngineEnqueueIsAdmissible | internal/store/job_queue.go:60-239 | enqueueing what the engine sends for a request with the stored visit day meets the condition the whole-system runs place on an enqueue |
| Timing.CeilIsLeast | internal/engine/booking_queue.go:83-92 | remaining seconds are rounded up |
| Timestamp.TextOrderIsTimeOrder | internal/store/store.go:271-275 | stored timestamps compare as text exactly as the instants compare, years 0 to 9999 |
| Timestamp.ParseUndoesFormat | internal/store/store.go:277-283 | parsing a formatted timestamp gives the instant back |
| Timestamp.CivilIsValid | internal/store/store.go:271-275 | the calendar fields of an instant are valid and denote it |
| Timestamp.RenderOrder | internal/store/store.go:271-275 | fixed-width fields in text compare as the fields do (section 5.1 of RFC 3339) |
| Timestamp.ScanUndoesRender | internal/store/store.go:277-283 | reading fixed-width fields undoes writing them |

## Left out

- The page itself: Playwright, the cart, vehicles, the calendar and receipts are oracle results; only the control flow around them is modelled.
- Regular expressions that find a code or a sender in a message body, address normalization and identifier trimming: their results are fields of a message.
- Cryptography: password hashing, tokens and encryption of credentials are opaque values.
- Process supervision, pipes, file locks, artifact and profile storage budgets, SSE streaming, HTTP, the UI and the CLI.
- Login rate limiting, lake and account settings, and the pass-preference checks: not modelled.
- Calendar arithmetic of a release instant (zone rules): the release is a given instant; only offsets from it are modelled.
- The migrations' one-off repair of legacy rows; their tables, triggers and indexes are modelled.
- AccountEffects.ProfileIsDeleted: the lake settings that also keep a profile from being deleted are not modelled.
- Ordering of retention inside an update: the retention trigger is a separate step that may remove any prunable rows.
- Rows that read a job and then update it (the transition and the final write) are one step each; a row changed between the two would be refused by the expected-state condition.
- Timestamp.ParseUndoesFormat: the parser models the fixed-width UTC form the store writes, not every form section 5.6 of RFC 3339 allows.
- Timing.StartableAlwaysStarts: seconds are exact integers; floating-point rounding of the remaining time is not modelled.
- Link.NoProtocolError: a signal that interrupts the worker process outside a browser action is not modelled.
- Action.YodelAction.Process: a step budget bounds each run, so non-terminating polling is not modelled.
- BlueBubbles.FetchAfter: the server is taken to honour offset and limit; a short page before the end is not modelled.
- Twilio.ListMessages: pages of one listing are taken from one state of the inbox, as its page tokens fix it.
