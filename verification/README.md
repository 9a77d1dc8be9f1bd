# RecoveryOS verification model

RecoveryOS recovers a failed subscription payment as a distributed protocol. A durable workflow
decides and waits, a worker claims action rows and calls the payment provider, a separately owned
customer agent records authorizations, and an operator API changes cases, actions and money. This
project models those parts in Dafny as step systems over shared rows and proves what every
interleaving keeps.

| file | what it models |
|---|---|
| `Domain.dfy` | the persisted vocabulary |
| `ActionRecords.dfy` | one action row, and what each worker transaction reads and commits |
| `ActionProtocol.dfy`, `ActionSafety.dfy` | one durable action under concurrent deliveries, cancellations, operator commands and crashes |
| `ActivityServices.dfy` | the worker's transactions as methods over the case's rows |
| `Reconciliation.dfy` | what the worker may conclude about a payment |
| `Workflow.dfy`, `WorkflowTrace.dfy` | the durable workflow, run against an arbitrary world, and laws of the traces it can leave |
| `TaskStores.dfy` | the customer agent's two task stores over one abstract store |
| `CustomerAgent.dfy` | approve, reject, cancel and receipt calls racing on one task |
| `Safety.dfy` | safety policy and quiet-hours arithmetic |
| `CaseRecords.dfy`, `CaseLaws.dfy`, `CaseApprovals.dfy`, `CaseService.dfy` | the operator service: rows, laws of whole histories, recorded approvals, and its methods |
| `JointRuns.dfy` | the operator service and the worker's protocol on one action, in one system |
| `Decision.dfy` | candidate enumeration, ranking and the policy gate; the fallback scorer |
| `Paging.dfy` | keyset pagination and its cursor text |
| `Convergence.dfy` | webhook projection and failure scenarios |
| `Calibration.dfy` | rank-preserving calibration |

How the parts are modelled:

- In `ActionProtocol` a delivery stops at every await, where any other delivery, cancellation,
  operator command or crash may come; the provider is the number of links it holds. A create may
  land at any moment while its call is under way, and a lookup that answers is truthful.
- In `Workflow` the world is a script of arrivals: at each await it delivers any signals, lets
  time pass and answers or fails the activity. A run is cut where the script ends, so what `Run`
  ensures holds at every await of every run. `trace` is the ghost record of what the run did.
- The customer-agent calls appear twice: as a step system in which any number of calls wait for
  their saves, and as methods whose awaits let other store operations in.
- In `CaseRecords` one service call is one transaction, as is one commit of the worker.
- Money is unbounded integer paise, instants are integers, probabilities are reals.

Where the code does less than its documentation or a reader might expect, the model follows the
code and states the exact condition:

- At most one standard payment link exists per reference if and only if claiming an action and
  marking it in flight are one step (`AtMostOneLinkIffClaimMarksAtomically`); with the code's two
  steps, `RaceMakesTwoLinks` is the run that creates two.
- The in-memory task store agrees with the abstract store on a creation exactly when the key is
  known or the task id is new; the SQL store always does.
- A recommendation keeps closed cases quiet exactly when its policy blocked it, it is a terminal
  control, or its case is still open at the insert (`InsertKeepsQuietIff`); the service reads the
  case without a lock, and `RecommendationCanRaceAStop` is the history in which that matters, for
  every open case whose policy allows the action.
- The instant a quiet-hours delay names is quiet again if and only if the end of quiet hours falls
  into a clock gap and the minutes skipped to leave it span the whole non-quiet interval
  (`QuietAgainIff`); `AGapCanEndInQuietHours` is such a case, and more than three hours awake rule it
  out.
- A decision fails on quiet hours if and only if it is quiet and the end of quiet hours with the
  three hours after it falls into one clock gap, whatever the candidates: the feature snapshot
  computes quiet hours for every case (`Decision.Decide`, `QuietEndLost`). `ASkippedDayStopsDecisions`
  is such an instant, and `NoPolicyNeedsTheQuietEnd` shows a choice existed there all the same.
- Committing an approval keeps closed cases quiet exactly when its action is a terminal control or
  its case is still open (`ApprovalKeepsQuietIff`); `StaleApprovalRevivesAnAction` is an approval
  that did not see a stop.
- Calibration keeps different scores in [0, 1] apart for all fitted thresholds if and only if the
  isotonic weight is below one (`StrictExactlyBelowFullWeight`).
- Reconciliation is exact unless the mock provider is told of a capture of another amount
  (`ReconcileCaseIsExact`).
- A signal that is already queued is looked at before the deadline ends a run, as the comment at
  `services/worker/app/workflow.py:236-239` intends, except when a wait for a DELAY is entered at or
  past the deadline, and then never: `DeadlineComesAfterTheQueue` gives the first half, the contract
  of `WaitUntil` the second.
- The third attempt of a cancellation never has to save (`CancellationNeverGivesUp`), so the
  conflict after three attempts is unreachable while only the service writes tasks.
- The zero-width branch of the calibration is never reached: the segment found always has
  `x[k-1] < p <= x[k]` (`IsotonicInSegment`).

## Model

| member | source | states |
|---|---|---|
| ActionSafety.OneLinkPerReference | services/worker/app/runtime.py:336-376 | over every run of crashes, uncertain creates, redeliveries and cancellations at most one standard link is created per reference, if no delivery reads the row between a claim's commit and its in-flight mark |
| ActionSafety.AtomicClaimsHaveNoWindow | services/worker/app/runtime.py:839-841 | with claim and mark in one step every run is free of that window |
| ActionSafety.RaceMakesTwoLinks | services/worker/app/runtime.py:606-694 | for every claimable standard-link row, a concrete run through the window creates two links |
| ActionSafety.AtMostOneLinkIffClaimMarksAtomically | services/worker/app/runtime.py:336-376 | at most one link over all runs if and only if claim and mark are one step |
| ActionSafety.OneCallPerSubscriptionSurface | services/worker/app/runtime.py:742-845 | on card-update and invoice-link surfaces one durable action causes at most one provider call over every run |
| ActionSafety.AuthorizationFollowsAction | services/worker/app/runtime.py:938-1045 | on customer-agent actions an EXECUTING action has an EXECUTING authorization, and the authorization has SUCCEEDED exactly when the action has |
| ActionSafety.MarkIsHeldExactlyByItsDelivery | services/worker/app/runtime.py:349-376 | over every run the in-flight mark is set exactly while a delivery that will discard it runs; once nothing runs, whatever crashed, the row is unlocked and an EXECUTING standard link is sent to be looked up |
| ActionProtocol.StatusNeverRegresses | services/worker/app/runtime.py:559-604 | over every run the status never moves back, CANCELLED rows are final, and SUCCEEDED is final off the standard link |
| ActionProtocol.SubmissionsAreAuthorized | services/worker/app/runtime.py:761-841 | a provider call is made only for an action that was not blocked, whose two delays had both passed at the claim, and that was approved where approval is required; on a customer-agent action the claim had compared one scope everywhere, a signer and issue that match, a mandate unexpired at the claim and ending by the recovery deadline, an open balance of exactly its amount, and an open, uncaptured, unrecovered case under ALLOW or DELAY; the row's approval is the recorded event by CaseApprovals.ApprovalIsTheRecordedEvent |
| ActionRecords.FreshMandateIff | services/worker/app/runtime.py:870-1045 | a mandate-backed claim submits if and only if all four scopes are equal, task, signer, issue and expiry agree, now is before the expiry and the expiry within the one recovery deadline, the open balance is the exact amount, the case is open, uncaptured and unrecovered, policy, status and delays allow it, and the authorization is AUTHORIZED |
| CaseApprovals.ApprovalIsTheRecordedEvent | services/api/app/services/cases.py:416-438 | over every history a row is approved exactly when its ACTION_APPROVED event is recorded, and every manually gated action that is neither waiting nor cancelled has that event |
| CaseApprovals.ClaimsOfGatedActionsAreOnRecord | services/worker/app/runtime.py:761-841 | no manually gated action can be claimed, or is EXECUTING or SUCCEEDED, without its recorded ACTION_APPROVED event |
| JointRuns.EverySubmissionIsOnRecord | services/worker/app/runtime.py:761-841 | over every interleaving of service calls with deliveries, cleanups and crashes each provider call for an action was authorized, and a manually gated action has its recorded ACTION_APPROVED event |
| JointRuns.StepKeeps | services/api/app/services/cases.py:391-737 | service calls and worker steps keep the shared row, the money and the approval events in order together |
| CaseApprovals.DoKeepsAgreement | services/api/app/services/cases.py:284-438 | every service call and worker step keeps rows and approval events in agreement |
| ActionProtocol.RunKeeps | services/worker/app/runtime.py:696-845 | every run from a row in order keeps the row invariants and only advances the status |
| ActivityServices.RecoveryActivities.ReadClaim | services/worker/app/runtime.py:715-797 | the locked read of a claim, rejections in the code's order: which rows may be swapped, which are looked up first, which are unresolved, executed, blocked or cancelled, each as an if and only if on the row |
| ActivityServices.RecoveryActivities.CompareAndSwap | services/worker/app/runtime.py:798-845 | the conditional update wins exactly on the status it saw, when due, and changes that row alone |
| ActivityServices.RecoveryActivities.ClaimWithMandate | services/worker/app/runtime.py:846-1045 | a mandate-backed claim is fresh exactly under the conditions of FreshMandateIff, stated on its inputs, and then writes the action and its authorization together; otherwise it writes neither |
| ActivityServices.RecoveryActivities.PersistPaymentSurface | services/worker/app/runtime.py:559-604 | a late result leaves a cancelled or settled row and its authorization as they are, any other row becomes SUCCEEDED with the reference and its authorization with it, and the answer says which |
| ActivityServices.RecoveryActivities.ReconcileOrResume | services/worker/app/runtime.py:606-694 | resubmits only what a truthful lookup reports absent on a row still EXECUTING; rows change only into SUCCEEDED with the reference |
| ActivityServices.RecoveryActivities.CleanupStandardPaymentLinks | services/worker/app/runtime.py:1340-1420 | with link lifecycle it succeeds exactly when every selected link is confirmed absent, or has a reference of its own or a looked-up one and a revocation that cancelled it, found it inactive or found a payment; then CANCELLED is every link but those with a payment, which are SUCCEEDED under that reference; failure changes no row |
| ActivityServices.RecoveryActivities.RevokeAll | services/worker/app/runtime.py:1370-1420 | the loop settles every selected row from its own answer, or restores all of them: it succeeds exactly when each answer is one of those that resolve a link |
| ActivityServices.RecoveryActivities.CleanOne | services/worker/app/runtime.py:1372-1411 | which provider answers resolve one link, and the row each of them leaves; a failed lookup or revocation resolves nothing |
| ActivityServices.RecoveryActivities.CancelRecoveryAction | services/worker/app/runtime.py:1270-1338 | the answer is that of the cleanup; off the standard link exactly the nonterminal actions become CANCELLED, and what survives unsettled is exactly the unclaimed standard links and those whose cleanup failed |
| Reconciliation.RecoveredResultIsExact | services/worker/app/runtime.py:1050-1222 | with a live provider a recovered result is authoritative, captured, referenced and carries exactly the amount at risk, from a snapshot whatever the rows hold and from a recognition by the case row's accounts |
| Reconciliation.RecoveredIffSnapshotVouches | services/worker/app/runtime.py:1127-1222 | without a recorded recognition the provider is asked exactly when no entry answers a question without a success hint, or an entry is a captured payment of this invoice, subscription and case; the answer quotes its snapshot, recovers if and only if that shows this payment captured, with the invoice's and subscription's ids and currency, for the whole open amount, and reports a reactivation if and only if it recovers an ACTIVE subscription |
| Reconciliation.RecognitionAnswersForTheCase | services/worker/app/runtime.py:1079-1125 | with a recorded recognition the answer is the case row's own accounts |
| Reconciliation.MockBelievesItsCaller | services/worker/app/activities.py:224-236 | with the mock provider the answer is what the caller hinted |
| CaseLaws.RecoveredAnswersAreExact | services/worker/app/runtime.py:1050-1222 | over every history of the operator service the case rows have the accounts that make every recovered answer carry exactly the amount at risk; the service itself records no live recognition, so on that path this speaks of rows as the service leaves them |
| Reconciliation.AssertedSuccessIsNeverPaymentTruth | services/worker/app/runtime.py:1110-1180 | with a success hint nothing is authoritative without a recorded recognition or a correlated signed webhook confirmed by the provider |
| Reconciliation.PartialSnapshotCollectsNothing | services/worker/app/runtime.py:1182-1222 | a snapshot of any other amount recovers and reports nothing |
| Workflow.SignalQueue.Enqueue | services/worker/app/workflow.py:312-317 | a new id is queued at the end, a seen id is only counted, and processed plus queued stay the deduplicated log |
| Workflow.RecoveryCaseWorkflow.Run | services/worker/app/workflow.py:118-253 | wherever a run is cut, its trace is safe for the amount, deadline and scope it was started with, processed followed by queued signals is the delivery log without later repeats, the counters agree with it, and the reported money is that of the last authoritative reconciliation; a completed run is terminal, with its outcome on the trace and the policy activity's answer as its order |
| Workflow.RecoveryCaseWorkflow.CancelActiveAction | services/worker/app/workflow.py:783-800 | a cancellation is on the trace with what was still queued; the activity is asked unless the action is cancelled, failed or rejected, or absent without a payment, and a deadline seeks it only behind an empty queue, except where a wait for a DELAY started past it |
| Workflow.RecoveryCaseWorkflow.ExpireAtDeadline | services/worker/app/workflow.py:243-246 | at or past the deadline the run ends as STOPPED if outreach was suppressed and as EXPIRED otherwise, after the active action's cancellation was sought |
| Workflow.RecoveryCaseWorkflow.AwaitClearance | services/worker/app/workflow.py:203-219 | a run that goes on after a DELAY is at or past its instant and before the deadline, and one that needed approval got a yes |
| Workflow.RecoveryCaseWorkflow.PollA2aIfDue | services/worker/app/workflow.py:603-654 | a pending poll is asked again after the interval and changes nothing else |
| Workflow.ExecutionKeysTellActionsApart | services/worker/app/workflow.py:744-744 | two executions of a case share an idempotency key if and only if they are of the same action |
| Workflow.RecoveryCaseWorkflow.DrainSignals | services/worker/app/workflow.py:352-371 | handlers run in queue order until the queue is empty or the run is terminal, and decide no policy, start no delegation and execute nothing |
| Workflow.RecoveryCaseWorkflow.Handle | services/worker/app/workflow.py:352-371 | what each kind of signal may do to the run: approvals, payments, intents, opt-outs, cancellations, escalations, updates and mandates |
| Workflow.RecoveryCaseWorkflow.HandleCustomerIntent | services/worker/app/workflow.py:419-456 | a dispute ends the run, an opt-out or wrong person suppresses outreach and leaves it open, a claim of payment recovers only on proof, anything else changes nothing |
| Workflow.RecoveryCaseWorkflow.SuppressOutreach | services/worker/app/workflow.py:525-536 | outreach is suppressed while the run stays open for late payments |
| Workflow.RecoveryCaseWorkflow.HandleCancellation | services/worker/app/workflow.py:467-477 | a cancellation ends the run as STOPPED |
| Workflow.RecoveryCaseWorkflow.HandleOperatorEscalation | services/worker/app/workflow.py:479-489 | an operator escalation ends it as ESCALATED |
| Workflow.RecoveryCaseWorkflow.HandlePayment | services/worker/app/workflow.py:388-417 | a payment signal ends the run exactly when the activity's answer is authoritative and recovers the case |
| Workflow.RecoveryCaseWorkflow.StartA2aAuthorization | services/worker/app/workflow.py:538-601 | a delegation is on record exactly when the durable scope is known, even if its activity then fails; without the scope the run escalates |
| Workflow.RecoveryCaseWorkflow.ExecuteAction | services/worker/app/workflow.py:722-770 | an execution carries the run's key; a customer-agent action without a mandate only delegates |
| Workflow.RecoveryCaseWorkflow.HandleApproval | services/worker/app/workflow.py:373-387 | an approval counts only when awaited, and only the first |
| Workflow.RecoveryCaseWorkflow.ApplyReconciliation | services/worker/app/workflow.py:830-837 | an authoritative result sets the four financial fields, any other changes none of them |
| Workflow.RecoveryCaseWorkflow.RecoverOn | services/worker/app/workflow.py:388-417 | a proved recovery finishes the run as RECOVERED and captured |
| Workflow.RecoveryCaseWorkflow.HandleMandate | services/worker/app/workflow.py:513-523 | a bare MANDATE signal authorizes and executes nothing; it moves the next poll |
| Workflow.RecoveryCaseWorkflow.HandleA2aUpdate | services/worker/app/workflow.py:491-511 | an update for the delegated task stores its state and moves the next poll, any other changes nothing, and neither authorizes or executes anything |
| Workflow.RecoveryCaseWorkflow.SettlePoll | services/worker/app/workflow.py:603-676 | only a VERIFIED poll with mandate and artifact leads to an execution, under the accepted mandate; any other settled poll escalates |
| Workflow.RecoveryCaseWorkflow.SendReceiptIfApplicable | services/worker/app/workflow.py:678-720 | a receipt is sent whenever a delegated run with a mandate meets the exact-amount guard |
| Workflow.RecoveryCaseWorkflow.WaitForApprovalOrTerminal | services/worker/app/workflow.py:319-325 | ends with an approval or a terminal run |
| Workflow.RecoveryCaseWorkflow.WaitUntil | services/worker/app/workflow.py:327-338 | a run that goes on after a delay is at or past its target and before its deadline; a wait entered at or past the deadline ends the run at once and leaves its queue untouched |
| WorkflowTrace.DedupKeepsFirstDeliveries | services/worker/app/workflow.py:312-317 | the deduplicated log is the first deliveries in order |
| WorkflowTrace.FirstDeliveriesAreDedup | services/worker/app/workflow.py:312-317 | and nothing else is |
| WorkflowTrace.ManualApprovalGatesEveryAction | services/worker/app/workflow.py:209-227 | under REQUIRE_MANUAL_APPROVAL nothing is executed or delegated before a processed yes, and no other decision is ever recorded |
| WorkflowTrace.FirstApprovalWins | services/worker/app/workflow.py:373-387 | no run records a second approval decision |
| WorkflowTrace.BlockedRunsNeverAct | services/worker/app/workflow.py:199-201 | a BLOCK run never executes or delegates |
| WorkflowTrace.AgentExecutionsFollowVerifiedPolls | services/worker/app/workflow.py:603-676 | on a delegated run every execution carries an artifact and an accepted mandate, and the newest poll before it was VERIFIED |
| WorkflowTrace.ExecutionsShareOneKey | services/worker/app/workflow.py:722-751 | all executions of a run share one idempotency key |
| WorkflowTrace.NothingHappensAfterFinish | services/worker/app/workflow.py:352-371 | after a run finished no signal is taken and nothing is executed |
| WorkflowTrace.RecoveredOnlyOnProof | services/worker/app/workflow.py:388-417 | RECOVERED follows an authoritative, case-recovering reconciliation made for the signal being handled |
| WorkflowTrace.ReconcileCaseIsExact | services/worker/app/runtime.py:1047-1222 | an answer of reconcile_case, from the live or the mock provider, meets the receipt's guard whenever it recovers, if and only if the mock provider was not told of a capture of another amount |
| WorkflowTrace.RecoveredRunCollectsTheAmountAtRisk | services/worker/app/workflow.py:678-706 | a recovered run reports exactly the amount at risk, and one that held a mandate sent its receipt for that amount before it finished |
| WorkflowTrace.HintsNeverMoveMoney | services/worker/app/workflow.py:830-837 | over every trace the reported arrears and reactivation are those of its last authoritative reconciliation, and zero and false without one |
| WorkflowTrace.EveryEndingHasItsCause | services/worker/app/workflow.py:199-253 | over every run ESCALATED follows only an escalation in hand, a refused last poll, a failed or rejected execution or a missing durable scope; DISPUTED only a dispute in hand; STOPPED only BLOCK, STOP, a refused approval, a cancellation in hand or a deadline after suppression; EXPIRED only a deadline reached with outreach never suppressed; and where an action may be active its cancellation was sought first, for that reason |
| WorkflowTrace.DeadlineComesAfterTheQueue | services/worker/app/workflow.py:235-246 | unless a wait for a DELAY started at or past the deadline, the deadline is met only after every queued signal was taken, so a payment that arrived is looked at first |
| WorkflowTrace.DelayedActionsWait | services/worker/app/workflow.py:203-229 | nothing is executed or delegated before the policy's order was acted on, and that never before the instant to which a DELAY holds it back |
| WorkflowTrace.ReceiptsAreExact | services/worker/app/workflow.py:678-706 | every receipt reports the amount at risk, after an authoritative, captured, recovering, referenced reconciliation of that amount for the signal being handled, on a delegated run with a mandate |
| WorkflowTrace.CancellationsAndSuppressionsAreFounded | services/worker/app/workflow.py:783-800 | when the cancellation activity is asked, and that outreach is suppressed only on the customer's word |
| TaskStores.DoKeeps | services/customer-agent/app/store.py:66-93 | the store keeps one task per key, keys and tasks are never removed |
| TaskStores.RevisionCountsSaves | services/customer-agent/app/store.py:83-93 | a task's revision grows by exactly its successful saves, and without one the task is unchanged |
| TaskStores.SaveSucceedsIffNothingIntervened | services/customer-agent/app/store.py:186-204 | a save made from an earlier read succeeds exactly when no other save of the task came in between, and otherwise changes nothing |
| TaskStores.RepeatedCreation | services/customer-agent/app/store.py:66-76 | after any history that keeps requests a repeated creation returns the first task for an equal request and fails without change for another |
| CustomerAgent.ServiceKeepsRequests | services/customer-agent/app/service.py:211-463 | every history of the agent service's creations and of saves made from earlier reads keeps each task's request |
| CustomerAgent.AskingAgainReturnsTheTask | services/customer-agent/app/service.py:94-130 | so after any such history a repeated request returns the task its key opened, and a different one fails without change |
| TaskStores.InMemoryTaskStore.CreateOnce | services/customer-agent/app/store.py:66-76 | refines the abstract creation exactly when the key is known or the task id is new |
| TaskStores.InMemoryTaskStore.Save | services/customer-agent/app/store.py:83-93 | refines the abstract save |
| TaskStores.InMemoryTaskStore.Get | services/customer-agent/app/store.py:78-81 | reads the abstract store |
| TaskStores.SqlTaskStore.CreateOnce | services/customer-agent/app/store.py:150-179 | the unique constraints refine the abstract creation in every case |
| TaskStores.SqlTaskStore.Save | services/customer-agent/app/store.py:186-204 | the conditional update refines the abstract save and keeps the state column in step with the payload |
| TaskStores.SqlTaskStore.Get | services/customer-agent/app/store.py:181-184 | reads the abstract store |
| CustomerAgent.Decided | services/customer-agent/app/service.py:314-391 | a decision is admissible only awaiting authorization, before expiry, with the capability and the exact scope; approval leads to WORKING and rejection to CANCELED |
| CustomerAgent.DecisionIsAdmittedIff | services/customer-agent/app/service.py:314-391 | a decision is admitted if and only if the task awaits authorization, is unexpired, is named in full and, where required, under an unexpired capability; a rejection cancels, an approval issues one mandate for exactly the request that lives for its ttl but never longer than the request |
| CustomerAgent.OnlyLegalTransitions | services/customer-agent/app/service.py:211-235 | over every interleaving only AUTH_REQUIRED to WORKING or CANCELED and WORKING to COMPLETED or CANCELED occur, and the revision is one plus the saves, at most two |
| CustomerAgent.FinalStatesAbsorb | services/customer-agent/app/service.py:211-235 | COMPLETED and CANCELED absorb every later event |
| CustomerAgent.AtMostOneDecision | services/customer-agent/app/service.py:314-391 | at most one racing decision succeeds |
| CustomerAgent.OneMandateOneReceipt | services/customer-agent/app/service.py:346-480 | at most one mandate, scoped to the request and expiring no later, and at most one receipt, scoped to that mandate |
| CustomerAgent.RequestNeverChanges | services/customer-agent/app/service.py:314-391 | no event rewrites the request |
| CustomerAgent.CancellationNeverGivesUp | services/customer-agent/app/service.py:211-235 | a cancellation's third attempt always finds the task final, so a lost save is always followed by another read |
| CustomerAgent.RedeliveredReceiptIsADuplicate | services/customer-agent/app/service.py:472-480 | the receipt message that completed a task is recognized when it comes again |
| CustomerAgent.ReceiptCompletesIff | services/customer-agent/app/service.py:393-463 | a receipt completes a task if and only if its message is new and named after it, the task is WORKING under a mandate, and receipt, mandate and request agree on task, mandate, merchant, case, action, invoice, amount and currency |
| CustomerAgent.SeenIsTheFirstUnderTheId | services/customer-agent/app/service.py:472-480 | a message is a repeat exactly when the first one under its id is equal to it, and new exactly when there is none |
| CustomerAgent.CustomerAgentService.CreateAuthorizationTask | services/customer-agent/app/service.py:94-130 | an unexpired request opens a task awaiting authorization, or returns the one its key already opened |
| CustomerAgent.CustomerAgentService.Decide | services/customer-agent/app/service.py:314-391 | succeeds exactly when the decision is admissible and no other save intervened; otherwise this call changes nothing |
| CustomerAgent.CustomerAgentService.CancelTask | services/customer-agent/app/service.py:211-235 | the retry loop against any interference between its awaits; an accepted cancellation leaves the task final |
| CustomerAgent.CustomerAgentService.CompleteWithReceipt | services/customer-agent/app/service.py:393-463 | completes when nothing intervened; after a lost save answers a repeat with the task as it is and anything else with a conflict |
| Safety.ValidLocalCandidates | services/api/app/safety/policy.py:125-132 | finds every instant that shows a wall time, in order: none in a gap, two in an overlap |
| Safety.LatestAt | services/api/app/safety/policy.py:141-142 | the latest instant that shows a wall time, or none exactly when none does |
| Safety.ResolveQuietEnd | services/api/app/safety/policy.py:135-143 | the minute-by-minute search returns what its specification resolves |
| Safety.ResolvedFromMeaning | services/api/app/safety/policy.py:135-143 | the search fails exactly when the whole window lies in one gap, and otherwise finds the first minute of it that exists |
| Safety.GapResolvesTo | services/api/app/safety/policy.py:135-143 | a quiet end in a gap moves to the first minute past the gap |
| Safety.ComputeQuietHoursDelayUntil | services/api/app/safety/policy.py:146-170 | nothing is delayed exactly outside the quiet interval, and inside it the branches compute its end for same-day and overnight hours |
| Safety.QuietIsFromStartToEnd | services/api/app/safety/policy.py:158-169 | on the clock face a time of day is quiet if and only if it lies from the start up to, but not at, the end, over midnight or not |
| Safety.QuietEndIsAfterNow | services/api/app/safety/policy.py:146-170 | across any single offset change the quiet end lies strictly after now |
| Safety.FixedOffsetQuietEnd | services/api/app/safety/policy.py:146-170 | without an offset change it is the earliest non-quiet instant and is never quiet again |
| Safety.ExistingQuietEndIsNotQuiet | services/api/app/safety/policy.py:146-170 | whenever the wanted wall time exists the instant found is not quiet again |
| Safety.QuietEndFailsExactlyInLongGaps | services/api/app/safety/policy.py:135-143 | the computation fails exactly inside a gap of more than three hours |
| Safety.PolicyFailsOnlyInLongGaps | services/api/app/safety/policy.py:315-347 | a policy evaluation fails only for outreach and only where the quiet end is lost |
| Safety.QuietAgainIff | services/api/app/safety/policy.py:135-170 | the instant a delay names is quiet again exactly when the quiet end falls into a gap and the minutes skipped span the whole non-quiet interval |
| Safety.LongAwakeSpansAreNeverSkipped | services/api/app/safety/policy.py:135-170 | a non-quiet interval of more than three hours is never skipped |
| Safety.AGapCanEndInQuietHours | services/api/app/safety/policy.py:135-143 | a concrete gap that meets that condition |
| Safety.EvaluateSafetyPolicy | services/api/app/safety/policy.py:173-389 | the early returns in their precedence |
| Safety.EvaluationGateByGate | services/api/app/safety/policy.py:173-389 | what an evaluation comes to at each gate: which contexts are blocked, which are delayed and to which instant, and that what passes needs approval if and only if its action is on the manual list or it contacts the customer about at least the manual amount |
| Safety.DelayIsInsideTheWindow | services/api/app/safety/policy.py:254-347 | every DELAY names an instant strictly after now and no later than the deadline, and no other decision names one |
| Safety.TerminalControlsAreAlwaysAllowed | services/api/app/safety/policy.py:180-209 | STOP and ESCALATE are always allowed |
| Safety.ClosedCasesAdmitOnlyTerminalControls | services/api/app/safety/policy.py:183-255 | exactly which contexts are blocked outright: kill switches, closed or captured cases, passed deadlines, suppressed contacts |
| Safety.OneQuietDelayIsEnough | services/api/app/safety/policy.py:315-347 | re-evaluated at the instant it named, a quiet-hours delay becomes ALLOW or REQUIRE_MANUAL_APPROVAL if and only if no gap skipped into the next quiet hours |
| CaseLaws.HistoriesStartInOrder | services/api/app/models/entities.py:254-327 | newly opened cases satisfy what every history keeps |
| CaseLaws.DoKeepsMoney | services/api/app/services/cases.py:627-770 | every service call and worker step keeps the money invariant |
| CaseLaws.CollectedIsTheSumOfRecognitions | services/api/app/services/cases.py:627-737 | over every history collected arrears equal the sum of the case's recognitions, stay within the amount at risk, and validate_state holds |
| CaseLaws.RecoveredIffPaidInFull | services/api/app/services/cases.py:698-712 | over every history a case is recovered, and RECOVERED, if and only if its recognitions add up to the whole amount at risk, and with less than that it is PARTIALLY_RECOVERED |
| CaseLaws.ReconciliationFindsAccountsInOrder | services/api/app/domain/models.py:72-90 | every case row the worker can read has the accounts its reconciliation relies on |
| CaseLaws.CasesOnlyAdvance | services/api/app/services/cases.py:483-770 | CAPTURED is never left, a case that left OPEN never returns, a recovered case stays recovered, arrears only grow |
| CaseLaws.InvoiceGrowsByTheRecognitions | services/api/app/repositories/cases.py:337-346 | the invoice's paid amount grows by exactly the recognitions if and only if they fit its open balance, which they do when it covers the risk |
| CaseLaws.ReplayedSuccessChangesNothing | services/api/app/services/cases.py:642-654 | a replayed success event changes nothing after any history and is answered with the amount first recognized |
| CaseLaws.SeenEventFailsNothing | services/api/app/services/cases.py:739-770 | a late failure whose event the case has seen changes nothing |
| CaseLaws.InsertKeepsQuietIff | services/api/app/services/cases.py:300-349 | exactly when an insert keeps closed cases free of runnable actions |
| CaseLaws.RecommendationCanRaceAStop | services/api/app/services/cases.py:185-349 | for every open case whose policy allows an invoice link, a recommendation that read it before a stop and inserts after leaves a claimable action on a closed case |
| CaseLaws.ApprovalKeepsQuietIff | services/api/app/services/cases.py:416-438 | exactly when committing an approval keeps closed cases free of runnable actions |
| CaseLaws.StaleApprovalRevivesAnAction | services/api/app/services/cases.py:399-438 | for every open case with a waiting payment action, an approval that saw it wait and commits after a stop without seeing the cancellation schedules it on a closed case; one that sees it is refused |
| CaseLaws.ClosedCasesStayQuiet | services/api/app/repositories/cases.py:522-541 | over every history no closed case has a nonterminal action other than STOP and ESCALATE |
| CaseLaws.NothingToClaimOnAClosedCase | services/worker/app/runtime.py:742-845 | so no payment action of a closed case can be claimed, with or without a mandate |
| CaseLaws.GrantedClaimsNeedAnOpenCase | services/worker/app/runtime.py:964-1040 | a mandate-backed claim changes a row only on an open case and only from PROPOSED or SCHEDULED to EXECUTING |
| CaseLaws.RecommendationsFitTheCase | services/api/app/services/cases.py:254-284 | a recommended row that may ever run fits the case it was made for: open, unpaid, before its deadline, not suppressed, and awaiting approval exactly for its action or the amount at risk |
| CaseLaws.RecommendedRowsStartTheProtocol | services/api/app/services/cases.py:284-349 | a recommended payment action enters the worker's protocol in one of its start rows |
| CaseLaws.ServiceCallsAreOperatorSteps | services/api/app/services/cases.py:391-737 | every service call acts on every action row as nothing or as one operator step of the worker's protocol |
| CaseService.RecoveryCaseService.RecommendAction | services/api/app/services/cases.py:176-349 | single assignment, the engine's failure on a lost quiet end, scope check, policy, one action per idempotency key, status from the disposition |
| CaseService.RecoveryCaseService.ApproveAction | services/api/app/services/cases.py:391-438 | only an approval-pending action of the case is scheduled, together with its approval event |
| CaseService.RecoveryCaseService.RejectAction | services/api/app/services/cases.py:440-481 | only an unclaimed action is cancelled; a cancelled one stays as it is |
| CaseService.RecoveryCaseService.Stop | services/api/app/services/cases.py:483-512 | closes an open case as STOPPED with one version step and no action left to run, is idempotent, and refuses any other outcome |
| CaseService.RecoveryCaseService.EscalateCase | services/api/app/services/cases.py:514-559 | the same for an escalation, which leaves its own succeeded action |
| CaseService.RecoveryCaseService.RecordSafetyDisposition | services/api/app/services/cases.py:561-625 | a dispute ends an open case as DISPUTED, an opt-out or wrong person as STOPPED, a claim of payment as ESCALATED; repeats succeed, other calls on a closed case and other dispositions fail, without a change |
| CaseService.RecoveryCaseService.ApplyMockPaymentSuccess | services/api/app/services/cases.py:627-737 | a success is newly recognized exactly for an unseen event on a case with arrears, a fitting amount and a linked invoice; then it collects that amount, recovers the case if and only if the whole amount at risk is collected, and moves case, invoice, ledger, actions and events together; anything else leaves all tables alone |
| CaseService.RecoveryCaseService.RecognizedSuccess | services/api/app/services/cases.py:699-716 | the case row after a recognition, field by field, with no action left to run |
| CaseService.RecoveryCaseService.ApplyLateFailureEvent | services/api/app/services/cases.py:739-770 | a late failure is audited once and never regresses a captured payment |
| CaseService.CaseRepository.FindRevenueRecognition | services/api/app/repositories/cases.py:319-331 | finds the amount of the first recognition of an event, and nothing exactly when there is none |
| CaseService.CaseRepository.RecognizeRevenueOnce | services/api/app/repositories/cases.py:301-317 | appends a recognition only under a new event id |
| CaseService.CaseRepository.AddInvoiceCollection | services/api/app/repositories/cases.py:337-346 | caps the paid amount at the invoice and settles it when full |
| CaseService.CaseRepository.CancelNonterminalActions | services/api/app/repositories/cases.py:522-541 | cancels exactly the case's nonterminal actions |
| Decision.SurfaceOrder | services/api/app/services/decision_engine.py:299-308 | the preferred surface first, the others by name, each once |
| Decision.SurfaceCandidates | services/api/app/services/decision_engine.py:288-320 | surfaces are offered exactly for a remediable failed invoice outside an active transient retry, each with its own tie priority |
| Decision.GenerateTechnicallyEligibleActions | services/api/app/services/decision_engine.py:323-386 | each action is enumerated exactly when the case and the deployment allow it, surfaces included, with distinct tie priorities and both terminal controls |
| Decision.EligibleIsExactlyWhatIsPossible | services/api/app/services/decision_engine.py:288-386 | the same of the candidates the decision ranks |
| Decision.EligibleIsWellFormed | services/api/app/services/decision_engine.py:323-386 | no two candidates tie on priority, surfaces go with surface actions, STOP and ESCALATE are always there |
| Decision.BeforeIsAStrictOrder | services/api/app/services/decision_engine.py:429-438 | the ranking key is a strict order, total on distinct tie priorities |
| Decision.OrderedIsUnique | services/api/app/services/decision_engine.py:429-438 | there is one ordered arrangement of the same candidates |
| Decision.SomethingIsAlwaysUnblocked | services/api/app/services/decision_engine.py:460-464 | among the ranked candidates an unblocked one exists for every context, policy and score |
| Safety.QuietHoursFeature | services/api/app/services/decision_engine.py:538-555 | the quiet-hours feature is computed for every case and fails exactly where the quiet end is lost in a long gap |
| Decision.Decide | services/api/app/services/decision_engine.py:395-536 | fails on quiet hours exactly where the quiet end is lost, otherwise on an overstated score exactly if there is one, and otherwise audits a ranking of all candidates: ranks 1 to n, the first unblocked one selected and only it, a reason for every other |
| Decision.NoPolicyNeedsTheQuietEnd | services/api/app/services/decision_engine.py:439-457 | without an outreach candidate no policy evaluation fails, whatever the clock does |
| Decision.ASkippedDayStopsDecisions | services/api/app/services/decision_engine.py:538-555 | a concrete zone, quiet interval and instant at which every decision fails |
| Decision.SelectedIsTheLeastUnblocked | services/api/app/services/decision_engine.py:460-510 | among the unblocked candidates the selected one has the highest utility, then the highest recovery, then the highest probability, then the lowest tie priority, and every reported utility gap is positive |
| Decision.SelectionFitsTheCase | services/api/app/services/decision_engine.py:395-536 | the selected action fits the case: only STOP or ESCALATE where everything else is shut, no contact after a suppression, no standard link beside an active retry, approval exactly for its action or amount |
| Decision.SelectionIgnoresEnumeration | services/api/app/services/decision_engine.py:429-465 | ranking, audit and selection are the same for every enumeration order |
| Decision.RoundHalfEven | ml/recoverybench/baseline.py:47-47 | rounds to the nearest integer, halves to the even one |
| Decision.DeterministicProbability | ml/recoverybench/baseline.py:19-39 | stays between 0.01 and 0.95 |
| Decision.ExpectedStaysWithinTheAmount | ml/recoverybench/baseline.py:45-60 | an expected recovery is rounded to the nearest paisa and never leaves the amount, for any probability |
| Decision.FallbackStaysWithinTheAmount | ml/recoverybench/baseline.py:45-60 | the fallback scorer never breaks the engine's amount bound |
| Decision.FallbackScoreIsNetOfCost | ml/recoverybench/baseline.py:45-60 | the fallback's utility is its expected recovery less the action's cost |
| Decision.BetterHistoryNeverHurts | ml/recoverybench/baseline.py:37-39 | more prior successes never lower the fallback's probability, and past 24 they no longer raise it |
| Decision.DecideByFallback | services/api/app/services/decision_engine.py:395-536 | with the fallback scorer a decision succeeds exactly where the quiet end is not lost |
| Paging.ListCases | services/api/app/repositories/cases.py:107-147 | one page of the ordered matching rows behind the cursor, with a next cursor exactly when rows are left |
| Paging.Listing | services/api/app/repositories/cases.py:116-141 | exactly the matching rows behind the cursor, strictly descending by (opened_at, id) |
| Paging.ListingHoldsTheMatchingRows | services/api/app/repositories/cases.py:107-141 | the same of every filter and of the order, on the columns themselves |
| Paging.PageIsTheBeginning | services/api/app/repositories/cases.py:139-147 | a page is full unless the listing ends in it, and points to its last row exactly when rows remain |
| Paging.ResumesBehind | services/api/app/repositories/cases.py:131-138 | asking behind the k-th row gives the rest of the same listing |
| Paging.Walk | services/api/app/repositories/cases.py:107-147 | following next_cursor ends after PageCount pages, all but the last full, whose concatenation is exactly the listing |
| Paging.PageCountIsCeiling | services/api/app/repositories/cases.py:142-146 | PageCount is max(1, ceil(n / limit)) |
| Paging.InsertsNeverRepeat | services/api/app/repositories/cases.py:131-138 | whatever changes between requests, a walk is strictly descending and repeats no row |
| Paging.StableRowsAreListed | services/api/app/repositories/cases.py:131-146 | a finished walk shows every row that matched throughout it |
| Paging.DecodeInvertsEncode | services/api/app/repositories/cases.py:70-89 | base64url decoding inverts encoding for every byte string |
| Paging.CursorTextRoundTrips | services/api/app/repositories/cases.py:70-89 | the stripped padding is restored exactly and the payload comes back |
| Convergence.PaymentEventProjection.Apply | services/api/app/reliability/payment_projection.py:31-69 | one delivery's effect on the projection and the effect it reports |
| Convergence.DeliveryOrderDoesNotMatter | services/api/app/reliability/payment_projection.py:31-69 | every reordering and duplication recognizes the same payments, collects the sum of their amounts, and agrees on being captured and on the newest instant seen |
| Convergence.AnyCaptureIsFinal | services/api/app/reliability/payment_projection.py:47-49 | a captured delivery anywhere forces a final CAPTURED |
| Convergence.OneRecordingPerPayment | services/api/app/reliability/payment_projection.py:51-62 | exactly one delivery records revenue for each recognized payment |
| Convergence.ScenariosConverge | services/api/app/simulator/failure_scenarios.py:138-269 | every scenario reaches its declared final state, revenue count and arrears under every reordering and duplication |
| Calibration.ApplyCalibration | ml/recoverybench/training.py:48-79 | the loop computes the piecewise-linear calibration |
| Calibration.IsotonicInSegment | ml/recoverybench/training.py:66-76 | an interpolated value lies in the segment it came from, whose width is never zero |
| Calibration.IsotonicIsPiecewiseLinear | ml/recoverybench/training.py:58-76 | between two thresholds the isotonic estimate lies on the straight line through them, and outside all of them it is the nearest end's value |
| Calibration.CalibratedIsTheWeightedMean | ml/recoverybench/training.py:48-79 | the result is the mean of estimate and score at the isotonic weight, and the score itself without usable thresholds |
| Calibration.CalibratedIsAProbability | ml/recoverybench/training.py:48-79 | the result stays in [0, 1] |
| Calibration.CalibrationPreservesRank | ml/recoverybench/training.py:48-79 | calibration is nondecreasing, and strictly increasing on [0, 1] when the isotonic weight is below one |
| Calibration.FullWeightCanTie | ml/recoverybench/training.py:77-79 | at full weight scores below the first threshold tie |
| Calibration.StrictExactlyBelowFullWeight | ml/recoverybench/training.py:77-79 | all fitted thresholds of a weight preserve rank strictly on [0, 1] if and only if the weight is below one |

## Left out

- HTTP routing, authentication, cookies, configuration, migrations, the web application and deployment: plumbing.
- Signatures, HMAC capabilities, hashes and JSON encodings: a capability check is a boolean, derived ids are injective values, and the cursor's JSON payload is a byte string.
- The webhook processor, the Razorpay client, the mandate verifier and the workflow commander: they write the same rows, but are not part of this model. Consuming a mandate's nonce is one step that gives an action one AUTHORIZED row.
- Voice actions: their claim and finalization are not modelled, and with them CANCELLED is not final.
- Customer-agent authorizations for surfaces other than invoice links, the only one the agent runtime admits.
- The in-flight set of more than one worker process: the protocol has one process, whose crash forgets every mark and delivery. A second process would have the same window as `RaceMakesTwoLinks`.
- A live link left behind by a cancellation while its create is under way: CANCELLED speaks of the row alone.
- ActivityServices.RecoveryActivities.CancelRecoveryAction: standard-link actions that were never claimed stay as they are, because the code skips them.
- ActionProtocol.StatusNeverRegresses: SUCCEEDED standard links may still become CANCELLED, which is what their cleanup is for.
- Workflow.RecoveryCaseWorkflow.WaitForApprovalOrTerminal: does not promise that an outcome set by a handler survives, because the deadline check in the approval wait may finish the run again.
- Workflow: executions after outreach was suppressed, or after the deadline on the ALLOW path, are possible in the code and are not excluded.
- Workflow: diagnosis, score, phase, reason and audit payloads are display data and are not kept; activity retries are one answer or one failure.
- Reconciliation.RecoveredResultIsExact: on the recorded-recognition path it relies on the case row's accounts, which hold of rows the operator service wrote (`CaseLaws.RecoveredAnswersAreExact`); recognitions of the live provider and the rows that come with them are written by the webhook processor, which is not part of this model.
- TaskStores: a reused task id replaces a task in the in-memory store; ids are random in the service.
- CustomerAgent: status messages, context ids and the language interpreter, which never writes.
- CaseLaws.ClosedCasesStayQuiet: takes each service call as one transaction; `RecommendationCanRaceAStop` says what a recommendation's unlocked read can do.
- CaseRecords: one merchant at a time, so that a provider event id is its own key; customer rows (`opted_out_at`), payment-attempt rows and commit failures are not kept; audit source ids are tagged values, so ids of different kinds never collide.
- The mock services: only their reconciliation and link cleanup are modelled.
- CaseService.RecoveryCaseService.ApproveAction: takes the status it checks from the locked row; the code has loaded the latest action before it locks, and whether the locked read refreshes it is up to the session. The same holds of RejectAction and of the operator steps in `ActionProtocol`.
- CaseService.RecoveryCaseService.RecommendAction: the ranked choice is an input; a scorer that overstates a recovery is covered by `Decision.Decide`.
- Case expiry: nothing in the operator service sets EXPIRED.
- Safety: a zone has at most one offset change, which covers the day or so a decision spans.
- Decision: the trained model and its scores are arbitrary inputs; explanations and feature snapshots are not kept. The name at the end of the ranking key is never reached.
- Paging: ids are their places in the collation, and malformed cursor text is not classified as the decoder's leniency would.
- Floating-point rounding in probabilities and calibration: reals are exact.
- Dashboards, distributions, the circuit breaker and the voice projection.
