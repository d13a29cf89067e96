# Middleware state machines

A Dafny model of the stateful core of the operations middleware, with proofs of what it guarantees over
whole runs. Six components are modelled:

- the **command ledger** (`app/commands.py`, memory store): submission, the operation state machine, audit
  log, attempts, outbox, operator mutations;
- the **Odoo campaign saga** (`app/odoo_campaign_saga.py`): workers with stale copies of one leased row;
- the **automation job store** (`app/automation_v2.py`, memory store): delivery tokens, leases, retries,
  dead letters, approved replay, reconciliation;
- the **incident projection** (`app/observability_incidents.py`, memory store): webhooks, status snapshots,
  operator actions, and the notification commands they submit to and cancel in the ledger;
- the **calling facade** (`app/calling_ledger.py`, memory branch) over the ledger;
- **email production control** (`app/email_production_control.py`, memory store): policy lifecycle, send
  guard, quota.

Each component comes in up to three layers:

1. a *value model* (`CommandLedger`, `CampaignSaga`, `AutomationJobs`, `Incidents`, `CallingLedger`,
   `EmailControl`): datatypes, one function per operation returning the state it leaves behind together with
   its result, a `Step` datatype and `Run` over any sequence of steps. A refusal is a result that carries the
   post-state, so a step that fails half way (a cancellation that stops at its third notification) is a step
   like any other;
2. *theorems*, in two kinds. `LedgerInvariants`, `LedgerTheorems`, `SagaTheorems`, `AutomationTheorems`,
   `NotificationCancel`, `IncidentInvariants`, `IncidentTheorems`, `CallingTheorems` and `EmailTheorems` hold
   an inductive invariant that every step keeps and the guarantees that follow from it. `LedgerOutcomes`,
   `SagaOutcomes`, `AutomationOutcomes`, `IncidentOutcomes`, `IncidentAcceptance`, `IncidentHistory`,
   `CallingOutcomes`, `PolicyTheorems`, `PolicyAcceptance` and `EmailHistory` tell from outside what the
   operations mean: exactly when a call is accepted in a reachable state, what it leaves behind, how long it
   holds and how its repetition is answered. Their rules and tables are written out and do not refer to the
   functions that carry them out. The modules `AutomationCases`, `CallingCases` and `NotificationRefusals`
   hold the runs that show where a guarantee ends;
3. the *stores in place* (`CommandStore`, `AutomationStore`, `IncidentStore`, `CallingStore`, `EmailStore`,
   and `CampaignSaga.SagaRow`): classes with the dictionaries, lists, counters and columns that the
   middleware updates. Their methods go through the checks and loops and set the columns one after the other
   (pure rules are shared with the value model), and are proved to act on the gathered view exactly as the
   value model does. The theorems therefore speak about the classes as well.

Conventions. SHA-256, HMAC and uuid5 identities are injective constructors of `Identities.Name`; uuid4 values
and `secrets` tokens are numbered `Random` values, so each is new. The clock is an argument of every step and
is not assumed to advance unless a theorem says so; one call reads it once. A method body under its asyncio
lock is one atomic step. Components that share the command ledger admit arbitrary ledger steps in between
their own (`LedgerStep`), so their theorems hold under every interleaving with the execution bus and with
other clients.

Where the code is weaker than one would expect, the model follows the code:

- `transition` to `cancelled` does not stop the outbox: `TransitionCancelLeavesLiveIntent` exhibits a
  cancelled command with a live intent, and `TransitionCancelQuietIff` says exactly when none is left. The
  operator's cancel does stop it (`CancelStaysQuiet`).
- The step relation of commands is wider than the transition table (`StepFollowsEdges` lists the extra edges).
- A job's attempts can exceed `max_attempts`, by one per accepted replay (`AttemptBudget`). `BudgetIsReached`
  is a run from the empty store that does; `ClaimExceedsIff` and `SpentMeansReplayed` say exactly when a claim
  does.
- An approval request parks a job even before its first claim, and a parked job is stuck: no claim and no
  operation under a lease ever takes effect on it (`ParkedIsStuck`). `RequestParksIff` says exactly when a
  request does this, `ParkedIsReachable` is a run of two steps.
- A replay approval is not used up: the same request is accepted again whenever the job is dead-lettered again
  with the same error, until the approval expires (`ApprovalIsReusable`).
- A cancellation of pending notifications can be refused. `RefusalIsReachable` is a run from the empty
  projection: after the first grouped alert its command is dispatched, the operator cancels the command itself
  under the notification's own cancel key, the command is queued again, and the operator's resolve then
  conflicts. `SweepFailsIff` and `ResolveCancelsNotifications` give the exact condition. While nobody else
  uses these keys, the bus leases adapter intents only and notification commands keep to their route, it never
  happens (`OrderlyRunsAreNeverBlocked`, `OrderlySweepsGoThrough`); `AdapterRouteCanBlock` shows what the route
  has to do with it.
- An originate that ends without authoritative evidence of a finished call blocks its agent for good
  (`UnknownOutcomeBlocksAgent`); `DeadLetterBlocksAgent` and `LiveEvidenceBlocksAgent` are runs from the empty
  ledger that end so.
- A cancelled originate counts as over even when it had been dispatched, although the code expects
  cancellation before dispatch only: `CancelledAfterDispatchFreesAgent` is a run after which the agent's next
  originate is accepted. It is known to be undialled exactly when it has no attempts
  (`CancelledUndialledIff`).
- A saga worker sends its readback without a guard, so one can leave for Odoo after its claim has ended and
  even after the saga is completed (`ReadbackAfterCompletion`); `SentUnderOpenClaimIff` says exactly when it
  belongs to an open claim.
- A repeated activation of an email policy is never answered from the record, because its version is compared
  before its key is looked up: it always conflicts (`RepeatedActivationConflicts`), unlike a repeated
  authorization or revocation. A repeated opening of the switch is answered only while the policy could be
  activated (`RepeatedSwitch`).
- A quota check on a clock that ran backwards also counts reservations of later windows: it refuses more than
  it has to (`BackwardClockOverRefuses`) and never less (`QuotaIsSafe`). It is exact if and only if nothing is
  held from the end of the current window on (`CheckIsExactIff`), which an advancing clock guarantees
  (`AdvancingClockIsExact`).
- The quota counts a message in the window of its reservation. Counted by the moment of queueing, a window can
  exceed its limit (`QueueTimeCanExceed`), by no more than the messages reserved in another window
  (`QueueTimeIsBounded`).

## Model

| member | source | states |
|---|---|---|
| LedgerTheorems.SubmitRefinesSingleMap | app/commands.py:542-604 | in every reachable ledger, submit behaves as on a single map without an index: a repeated submission returns the current operation although the idempotency index may be stale, and any mismatch of identity, key, content or client is a conflict that changes nothing |
| LedgerTheorems.AcceptedSubmission | app/commands.py:542-604 | an accepted submission returns the operation of the submitted command and leaves exactly that content on record; no other record changes, a refusal changes nothing |
| LedgerTheorems.ClashIff | app/commands.py:555-570 | the two lookups hit exactly when some stored command of the tenant has that identity or that idempotency key |
| LedgerInvariants.StepKeeps | app/commands.py:529-839 | submit, transition, reconcile, operator mutations and bus updates keep the ledger invariant: audit chains, attempt numbers, index identity, recorded mutations, outbox ownership |
| LedgerInvariants.RunKeeps | app/commands.py:529-839 | the ledger invariant holds along every run |
| LedgerTheorems.HistoryIsFinal | app/commands.py:75-86 | over any run, completed, dead-lettered and cancelled commands keep operation, events and attempts unchanged; otherwise events are only appended, attempts before the newest never change and versions never go back |
| LedgerTheorems.StepFollowsEdges | app/commands.py:721-755 | every state change follows the transition table or one of the operator and readback edges beside it |
| LedgerTheorems.AuditLog | app/commands.py:802-839 | events are numbered 1..n and chain unbroken to the current state; attempts are numbered 1..m with m the number of dispatching events; stamps, evidence digest, newest event and newest attempt agree with the operation |
| LedgerTheorems.FencedTransition | app/commands.py:802-804 | a fenced transition other than a dispatch succeeds only with the number of dispatching events as its token |
| LedgerTheorems.UndispatchedIff | app/commands.py:834-838 | a command has no attempts exactly when its audit log shows no dispatch |
| LedgerTheorems.PersistedIsUndispatched | app/commands.py:75-86 | a command that is still persisted was never dispatched |
| LedgerTheorems.OneMutationPerVersion | app/commands.py:703-774 | two different recorded mutations of a command never spent the same resource version |
| LedgerTheorems.RecordedMutationIsStale | app/commands.py:703-719 | a recorded mutation expects a version below the current one |
| LedgerTheorems.OutboxConserved | app/commands.py:593-603 | a command has one intent plus one per accepted retry, all with its content and its first destination |
| LedgerTheorems.CancelStaysQuiet | app/commands.py:721-736 | after an operator cancel that yields cancelled, no run makes an intent of the command live again |
| LedgerTheorems.TransitionCancelQuietIff | app/commands.py:779-839 | after a transition to cancelled the command has no live intent exactly when it had none before |
| LedgerTheorems.TransitionCancelLeavesLiveIntent | app/commands.py:779-839 | a freshly submitted command that a transition cancels keeps a live intent |
| LedgerOutcomes.AuditIsLawful | app/commands.py:75-86 | in every reachable ledger each audit event is a submission, one of the seventeen listed moves, a readback of a command awaiting reconciliation, or an operator action allowed in its state with the state it leads to |
| LedgerOutcomes.SubmissionOutcome | app/commands.py:571-604 | a new submission leaves a persisted command of version 1 without attempts, errors or evidence, and one live, unleased intent with its content on its route |
| LedgerOutcomes.TransitionOutcome | app/commands.py:779-839 | accepted exactly for a listed move of a known command, with evidence only for completed and reconciliation_required, and with the attempt count as fencing token; provider, evidence, error, newest attempt and new attempts as the move demands, nothing else changed |
| LedgerOutcomes.ReadbackOutcome | app/commands.py:621-664 | accepted exactly for a command awaiting reconciliation under its version; a match completes the command and its newest attempt, a mismatch leaves both awaiting with the reason; evidence kept and a version spent either way |
| LedgerOutcomes.MutationOutcome | app/commands.py:703-774 | a new cancel, reconcile or retry is accepted exactly in its states under the current version; a cancel takes effect at once only when persisted or queued without a lease, otherwise the command awaits reconciliation |
| LedgerOutcomes.MutationOutbox | app/commands.py:730-767 | an effective cancel stamps every open intent of the command, a reconcile quarantines its unfinished ones, a retry appends one live intent with the recorded content on the earlier route; no other intent changes |
| LedgerOutcomes.RepeatedMutation | app/commands.py:703-719 | however a run goes on, a repeated mutation gets the first answer and changes nothing, and one with another version or reason conflicts |
| CommandStore.MemoryCommandStore.Submit | app/commands.py:542-604 | acts on the gathered dictionaries as the ledger's submission, with the same result |
| CommandStore.MemoryCommandStore.Transition | app/commands.py:779-839 | acts as the ledger's transition, refreshing both lookups |
| CommandStore.MemoryCommandStore.ReconcileReadback | app/commands.py:621-664 | acts as the ledger's readback reconciliation |
| CommandStore.MemoryCommandStore.MutateOperation | app/commands.py:703-774 | acts as the ledger's operator mutation, which refreshes only one lookup |
| CommandStore.MemoryCommandStore.HasActiveLease | app/commands.py:730 | finds whether some unfinished intent of the command is leased |
| CommandStore.MemoryCommandStore.CancelOwned | app/commands.py:733-736 | stamps exactly the unleased, unfinished, uncancelled intents of the command |
| CommandStore.MemoryCommandStore.QuarantineOwned | app/commands.py:746-751 | quarantines exactly the live intents of the command and takes away their leases |
| CommandStore.MemoryCommandStore.AppendRetry | app/commands.py:752-767 | appends one intent copied from the newest intent of the command |
| SagaTheorems.StepKeeps | app/odoo_campaign_saga.py:304-612 | claim, recovery and every piece of a dispatch keep the saga invariant in any interleaving of workers |
| SagaTheorems.OneEndingPerClaim | app/odoo_campaign_saga.py:537-612 | claims 1..n have ended once each and in order, and the outcome audit rows are exactly the committed terminations |
| SagaTheorems.EndedClaimIsFenced | app/odoo_campaign_saga.py:587-612 | once a claim has ended, no write by any worker holding a copy of that claim takes effect, however the run goes on |
| SagaTheorems.SameKeySameReadback | app/odoo_campaign_saga.py:441-483 | any two readbacks sent under one idempotency key, by whatever workers and retries, have identical contents |
| SagaTheorems.ResendAfterTransportFailure | app/odoo_campaign_saga.py:507-513 | after a transport-class failure with an observation on record, every readback sent under the next claim is that recorded readback |
| SagaTheorems.JudgedCurrentIff | app/odoo_campaign_saga.py:405-430 | a dispatch goes on exactly when the desired state names this campaign, configuration version and manifest hash |
| SagaTheorems.OnlyCurrentCommandsReport | app/odoo_campaign_saga.py:405-483 | every readback ever sent belongs to a claim under which the desired state was read and agreed with the command |
| SagaTheorems.CompletionWasReported | app/odoo_campaign_saga.py:472-488 | a saga is completed only by a claim under which a readback was sent, audited with that readback's effective state and the readback id the row keeps |
| SagaTheorems.GuardIsExact | app/odoo_campaign_saga.py:587-612 | the condition on every guarded write holds if and only if the claim the worker loaded has not ended |
| SagaTheorems.SentUnderOpenClaimIff | app/odoo_campaign_saga.py:456-488 | a readback is sent in any case, and belongs to an open claim exactly when the worker's claim still holds the row at that moment |
| SagaTheorems.ReadbackAfterCompletion | app/odoo_campaign_saga.py:456-488 | a run in which a readback leaves for Odoo after its claim was recovered and the saga completed by another worker |
| SagaTheorems.AttemptsWithinLimit | app/odoo_campaign_saga.py:304-358 | a saga is claimed at most limit times, and one waiting for a claim has attempts left |
| SagaTheorems.TerminalRowIsFinal | app/odoo_campaign_saga.py:202-216 | COMPLETED and DEAD_LETTER rows never change again |
| SagaTheorems.BackoffWithinBudget | app/odoo_campaign_saga.py:526-534 | the delays the row of a saga is kept from its next claim, from each ending to next_attempt_at, add up to at most 5 * (2^(limit-1) - 1) seconds |
| SagaOutcomes.ClaimTakesIff | app/odoo_campaign_saga.py:304-320 | in every reachable system a claim takes the row exactly when it is pending, or waits for a retry that is due 5 * 2^(attempts-1) seconds after the termination of its last claim, at once after a recovery; before that the row is untouched |
| SagaOutcomes.ReservationIsRecoverable | app/odoo_campaign_saga.py:323-358 | a reservation always has a lease, and from its end on, not before, recovery ends the claim: below the limit the row can be claimed at once, at the limit it is dead-lettered |
| SagaOutcomes.RenewalHolds | app/odoo_campaign_saga.py:431-439 | a renewal under an open claim keeps recovery away exactly until the new lease has run out |
| SagaOutcomes.VerdictCommitsIff | app/odoo_campaign_saga.py:537-584 | a worker's verdict is committed, with one audit row, exactly while its claim is open, and the row then carries its status and error |
| SagaOutcomes.EndingsHaveReasons | app/odoo_campaign_saga.py:398-534 | every committed termination follows a desired state or an answer received under its own claim for which the written-out table prescribes exactly its status, error and readback id; the three retryable faults retry below the limit |
| SagaOutcomes.SentWasMeasured | app/odoo_campaign_saga.py:441-483 | every readback sent reports, under its key and for this command, the state, evidence and time of an observation made under that claim or an earlier one |
| SagaOutcomes.NextClaimResendsIff | app/odoo_campaign_saga.py:507-513 | the claim after a failure sends the very readback on record if there is one and the failure was transport, upstream or route, and otherwise only readbacks of new observations under new keys |
| SagaOutcomes.OnlyAdmissibleCommandsRun | app/odoo_campaign_saga.py:219-266 | only valid events that name the bound organization, business unit and campaign are ever claimed; any other leaves a dead letter that no run changes |
| CampaignSaga.SagaRow.constructor | app/odoo_campaign_saga.py:219-266 | an invalid event is dead-lettered as INVALID_CONTROL_EVENT with what could be salvaged, a valid one in scope waits without an error, one out of scope is dead-lettered as SCOPE_NOT_ALLOWED; no attempts, no lease, and claimable at any time exactly when it waits |
| CampaignSaga.SagaRow.ClaimSaga | app/odoo_campaign_saga.py:304-320 | claims a due pending or retried row and leaves any other untouched |
| CampaignSaga.SagaRow.RecoverExpiredLeases | app/odoo_campaign_saga.py:323-358 | releases exactly an expired reservation, to retry or to dead letter by its attempts |
| CampaignSaga.SagaRow.GuardedRenew | app/odoo_campaign_saga.py:431-439 | renews the lease if and only if the caller's claim still holds the row |
| CampaignSaga.SagaRow.GuardedObserve | app/odoo_campaign_saga.py:441-454 | stores observation and key if and only if the caller's claim still holds the row |
| CampaignSaga.SagaRow.GuardedTerminate | app/odoo_campaign_saga.py:537-612 | writes outcome and audit row together, or neither when the claim was lost |
| AutomationTheorems.StepKeeps | app/automation_v2.py:607-1090 | every operation keeps dispatch, lease, terminal and dead-letter agreement of every job |
| AutomationTheorems.JobAgreement | app/automation_v2.py:880-922 | in every reachable store the dispatch carries the job's token and is claimed exactly when it was used; DEAD_LETTER exactly with an open dead letter; a terminal key exactly in the three terminal states |
| AutomationTheorems.OneExecutionPerToken | app/automation_v2.py:666-707 | two accepted claims with one delivery token are of one job and one execution |
| AutomationTheorems.ReissueBetweenExecutions | app/automation_v2.py:880-898 | between effective lease operations of two executions on a job lies an accepted retryable fail or an accepted replay of it |
| AutomationTheorems.OldGenerationIsLockedOut | app/automation_v2.py:576-599 | a lease token of an older generation never again passes as an active lease in any continuation |
| AutomationTheorems.ExpiredLeaseIsDead | app/automation_v2.py:576-599 | once a lease expired, no continuation on an advancing clock revives it or moves its job's token, execution or attempts |
| AutomationTheorems.FinalJobIsFinal | app/automation_v2.py:780-922 | COMPLETED and FAILED_TERMINAL jobs never change again |
| AutomationTheorems.AttemptBudget | app/automation_v2.py:858-866 | attempt_count is at most max_attempts plus the accepted replays |
| AutomationCases.BudgetIsReached | app/automation_v2.py:1056-1082 | a run from the empty store that ends with max_attempts plus one accepted replay attempts |
| AutomationCases.SpentMeansReplayed | app/automation_v2.py:689-701 | a claimable job with all its attempts spent has been replayed |
| AutomationCases.ClaimExceedsIff | app/automation_v2.py:689-701 | a claim that consumes the token goes above max_attempts exactly when they were spent before |
| AutomationOutcomes.TakesEffectIff | app/automation_v2.py:576-599 | in every reachable store a heartbeat, step, completion or failure takes effect exactly when the job carries its lease token, execution and client and the lease has not run out |
| AutomationOutcomes.ClaimAcceptedIff | app/automation_v2.py:666-707 | a claim is accepted exactly by the job's own client for its workflow with the current token, unused on a job that waits, or repeated by the same execution before expiry; a new one is counted and leases for sixty seconds, a repeated one changes nothing |
| AutomationOutcomes.GrantedUntilExpiry | app/automation_v2.py:689-707 | the granted lease is active exactly until the expiry it was granted with |
| AutomationOutcomes.HeartbeatExtends | app/automation_v2.py:713-734 | an accepted heartbeat leases the running job for exactly another sixty seconds |
| AutomationOutcomes.FailureDecides | app/automation_v2.py:860-922 | a failure that takes effect schedules a retry exactly when its outcome is known, it is retryable and attempts are left; it leaves an open dead letter with its fingerprint exactly when its outcome is unknown or the attempts are spent; otherwise the job failed for good |
| AutomationOutcomes.UnknownOutcomeWaitsForReplay | app/automation_v2.py:861-862 | after a failure with unknown outcome no claim and no operation under a lease takes effect on the job before an accepted replay |
| AutomationOutcomes.TerminalRequestIsRemembered | app/automation_v2.py:780-791 | however a run goes on without a replay, an ended job stays as it is, answers the same request of the same execution as a repetition and refuses every other completion and failure |
| AutomationOutcomes.RequestParksIff | app/automation_v2.py:924-973 | a new approval request sets any job that has not ended to waiting and changes nothing else of it; the job is then parked exactly when it was not claimed |
| AutomationOutcomes.ParkedIsStuck | app/automation_v2.py:689-701 | no continuation lets a claim or an operation under a lease take effect on a job that waits for an approval unclaimed |
| AutomationOutcomes.ParkedIsReachable | app/automation_v2.py:969-972 | two steps from the empty store lead to such a job |
| AutomationOutcomes.ApprovalOutcome | app/automation_v2.py:975-1022 | a request files a pending approval, a decision by anyone but the requester approves it, a read after expiry expires a pending one, and nothing else changes an approval |
| AutomationOutcomes.ReplayAcceptedIff | app/automation_v2.py:1024-1090 | in every reachable store a replay is accepted exactly for the operations client, a dead-lettered job, the open dead letter's version and fingerprint, and an unexpired replay approval, which is always a second person's; it reissues the job and closes the dead letter |
| AutomationOutcomes.ApprovalIsReusable | app/automation_v2.py:1037-1050 | an approval that backed a replay backs the same request again whenever the job is dead-lettered again with the same error before the approval expires |
| AutomationOutcomes.RecordOutcome | app/automation_v2.py:735-778 | a step record in effect files exactly its content under a new key and sets the job to running; under a known key nothing changes |
| AutomationOutcomes.EvidenceIsFinal | app/automation_v2.py:752-778 | step evidence is numbered without repetition and no continuation changes any of it |
| AutomationOutcomes.EnqueueOnce | app/automation_v2.py:607-664 | the first enqueueing of an event for a workflow version creates one pending job with a new unclaimed dispatch; any further one changes nothing |
| AutomationOutcomes.RefusalChangesNothing | app/automation_v2.py:576-599 | a claim, an operation under a lease, an approval request or a replay that is turned away changes nothing |
| AutomationStore.MemoryAutomationStore.EnqueueEvent | app/automation_v2.py:607-664 | files one job with its dispatch per routed event, and nothing for a known one |
| AutomationStore.MemoryAutomationStore.ClaimJob | app/automation_v2.py:666-707 | acts as the claim step, with its grant or refusal |
| AutomationStore.MemoryAutomationStore.HeartbeatJob | app/automation_v2.py:713-734 | acts as the heartbeat step |
| AutomationStore.MemoryAutomationStore.RecordStepEvidence | app/automation_v2.py:735-778 | files evidence once per key under an active lease, answers a repetition from the file and refuses changed content |
| AutomationStore.MemoryAutomationStore.CompleteJob | app/automation_v2.py:793-830 | acts as the completion step, replays included |
| AutomationStore.MemoryAutomationStore.FailJob | app/automation_v2.py:832-922 | acts as the failure step: retry with a new token, dead letter, or terminal failure |
| AutomationStore.MemoryAutomationStore.RequestApproval | app/automation_v2.py:924-973 | files one approval per key and parks the job unless it is settled |
| AutomationStore.MemoryAutomationStore.GetApproval | app/automation_v2.py:975-990 | reading an overdue pending approval expires it |
| AutomationStore.MemoryAutomationStore.Decide | app/automation_v2.py:999-1022 | approves unless the decider made the request |
| AutomationStore.MemoryAutomationStore.ReplayJob | app/automation_v2.py:1024-1090 | succeeds exactly for the operations client, with a non-self approval of the job and the open dead letter's version and fingerprint, and then reissues the job |
| AutomationStore.MemoryAutomationStore.Reconcile | app/automation_v2.py:1092-1146 | one run per idempotency key: a repetition is answered with the recorded report, another mode or other jobs conflict, and nothing but the record of runs changes |
| AutomationStore.MemoryAutomationStore.Inspect | app/automation_v2.py:1108-1131 | the counts are those of the selected jobs, no dispatch is missing, and the plan lists exactly the expired leases in PLAN mode and nothing in READ mode |
| AutomationStore.CountsAddUp | app/automation_v2.py:1118-1131 | the state counts of a report add up to the inspected jobs |
| AutomationStore.SelectedIff | app/automation_v2.py:1108-1112 | the inspected jobs are exactly the tenant's, restricted to the given ids if there are any |
| AutomationStore.PlanIff | app/automation_v2.py:1121-1124 | the plan names exactly the inspected jobs whose lease has run out |
| AutomationStore.CountIsCardinality | app/automation_v2.py:1118-1119 | the count of a state is the number of inspected positions holding a job in that state |
| Incidents.Latest | app/observability_incidents.py:636 | the greatest schedule among the notifications, attained by one of them |
| NotificationCancel.CancelOneEffect | app/observability_incidents.py:453-472 | one cancellation is refused exactly when the command is pending and this cancel is already recorded; otherwise the command is no longer pending, and nothing else changed |
| NotificationCancel.RecordedCancelConflicts | app/commands.py:709-716 | a cancel that meets a recorded mutation conflicts and changes nothing |
| NotificationCancel.SweepCancels | app/observability_incidents.py:444-472 | after a cancellation that went through, no waiting grouped notification is persisted or queued |
| NotificationCancel.SweepFailsIff | app/observability_incidents.py:444-472 | the cancellation is refused exactly when some notification is pending with this cancel on record |
| NotificationCancel.SweepOutcome | app/observability_incidents.py:444-472 | a sweep that goes through cancels exactly the grouped notifications scheduled in the future whose command is persisted or queued, quarantining a command with a leased intent, and leaves every other command alone |
| NotificationRefusals.OrderlyRunsAreNeverBlocked | app/platform/memory.py:45-62 | in a run whose bus leases adapter intents only, whose notification commands keep to the default route and whose other clients leave the cancel keys alone, no notification is ever pending with its cancel on record |
| NotificationRefusals.OrderlySweepsGoThrough | app/observability_incidents.py:444-472 | in such a run every permitted resolve succeeds, and no snapshot and no grouped resolution is refused by its cancellation |
| NotificationRefusals.RefusalIsReachable | app/observability_incidents.py:459-472 | a run from the empty projection after which an operator's resolve is refused because the operator spent the cancel key on the command itself |
| NotificationRefusals.AdapterRouteCanBlock | app/platform/memory.py:57-63 | on the adapter route a cancel can find the intent leased, leave its record without cancelling, and block the next one |
| IncidentInvariants.StepKeeps | app/observability_incidents.py:474-1096 | webhooks, snapshots, operator actions and ledger steps keep the projection invariant |
| IncidentTheorems.TimelineHolds | app/observability_incidents.py:414-442 | events chain from nothing to the stored state under increasing ids; the version counts the events other than notification_suppressed; resolved_at is set exactly while resolved and an acknowledged incident names who acknowledged it; there is one notification per announcing event, numbered upwards |
| IncidentTheorems.OccurrencesAdvance | app/observability_incidents.py:795-823 | over any run starts_at never decreases, first_seen_at and created_at never change, events and notifications are only appended, status observations never go back |
| IncidentTheorems.ObservationsIncrease | app/observability_incidents.py:909-925 | of two accepted snapshots of an incident, however far apart, the later one observed strictly later |
| IncidentTheorems.ResolvedOccurrenceRefusesFiring | app/observability_incidents.py:497-511 | after a webhook resolved an occurrence, every firing webhook with the same or an older start is refused and changes nothing until a firing snapshot or an operator's reopen |
| IncidentTheorems.StatusCancelsNotifications | app/observability_incidents.py:930-937 | after an accepted resolved, silenced or inhibited snapshot no notification of the incident that waits in the future is persisted or queued |
| IncidentTheorems.ResolveCancelsNotifications | app/observability_incidents.py:1062-1069 | an operator's resolve goes through exactly when no pending notification carries that operator's recorded cancel; then none is persisted or queued; a refusal leaves the incident as it was |
| IncidentTheorems.ResolutionCancelsNotifications | app/observability_incidents.py:765-776 | after a new grouped resolved webhook no earlier notification that waits in the future is persisted or queued |
| IncidentTheorems.NotificationsAreDistinct | app/observability_incidents.py:244-257 | the notification operations of an incident are pairwise distinct and all on record in the ledger |
| IncidentTheorems.RepetitionsArePaced | app/observability_incidents.py:628-706 | in every run each repeated notification is scheduled at least the repeat interval after every earlier notification of its incident |
| IncidentTheorems.ReplayFindsIncident | app/observability_incidents.py:708-722 | the replay path's unguarded dictionary access never fails |
| IncidentOutcomes.TimelineIsMeant | app/observability_incidents.py:293-305 | in every reachable projection the kind of each event determines, with the state before it, the state after it |
| IncidentOutcomes.StateReadsOff | app/observability_incidents.py:414-442 | in every reachable projection the stored state is the one that the kinds of the events read off to |
| IncidentAcceptance.WebhookOutcome | app/observability_incidents.py:765-867 | a new transition is accepted exactly when the occurrence on file is not newer, the sweep of a grouped resolution is not blocked and the ledger takes its command; the incident is then resolved now, or fires, reopened if it was resolved, still acknowledged if it was; one alert mail is on record, after the group wait if grouped |
| IncidentAcceptance.SnapshotOutcome | app/observability_incidents.py:874-976 | a new snapshot is accepted exactly when group and start are those on file, it was observed after every earlier one and after the end of a resolved incident, and its sweep is not blocked; the incident is then resolved, inhibited, silenced, firing or still acknowledged as the signal says |
| IncidentAcceptance.ActionOutcome | app/observability_incidents.py:1025-1096 | a new operator action is accepted exactly under the current version in the states listed for it, a resolution only if its sweep is not blocked; the incident is then acknowledged by the operator, resolved now, or firing with its occurrence open |
| IncidentHistory.RevisitOutcome | app/observability_incidents.py:542-763 | a known transition under a new request is turned away if old or different; otherwise it makes up for a missing notification, repeats a grouped one once the interval is over, notes one that is too early, or changes nothing |
| IncidentHistory.RepeatedWebhook | app/observability_incidents.py:512-541 | however a run goes on, the repeated request of an accepted webhook gets the first answer as a duplicate, or is turned away as old, and changes nothing |
| IncidentHistory.RepeatedSnapshot | app/observability_incidents.py:874-908 | however a run goes on, a repeated snapshot gets the first answer and changes nothing |
| IncidentHistory.RepeatedAction | app/observability_incidents.py:1025-1047 | however a run goes on, a repeated operator action gets the first answer and changes nothing; with another version or reason it conflicts |
| IncidentHistory.NotificationsSayWhatHappened | app/observability_incidents.py:777-793 | every notification is backed by a command on record whose content is an alert mail about that very incident and the moment it was first seen; a repetition is about a firing alert |
| IncidentStore.MemoryIncidentStore.CancelPendingNotifications | app/observability_incidents.py:444-472 | the loop acts on the ledger as the cancellation of the list, stopping at the first refusal and keeping earlier cancels |
| IncidentStore.MemoryIncidentStore.LatestSchedule | app/observability_incidents.py:636 | computes the greatest schedule |
| IncidentStore.MemoryIncidentStore.AppendEvent | app/observability_incidents.py:414-442 | draws the next event id and files the event from the stored state, or from nothing, to the new one |
| IncidentStore.MemoryIncidentStore.Renotify | app/observability_incidents.py:542-706 | acts as late activation or repetition |
| IncidentStore.MemoryIncidentStore.Suppress | app/observability_incidents.py:723-763 | notes a suppressed repetition without changing the incident |
| IncidentStore.MemoryIncidentStore.Occur | app/observability_incidents.py:765-867 | acts as a new transition: cancel, submit, file |
| IncidentStore.MemoryIncidentStore.Ingest | app/observability_incidents.py:474-867 | acts as the webhook operation on the projection, with its result |
| IncidentStore.MemoryIncidentStore.IngestStatus | app/observability_incidents.py:869-976 | acts as the snapshot operation, with its result |
| IncidentStore.MemoryIncidentStore.Mutate | app/observability_incidents.py:1025-1096 | acts as the operator operation, with its result |
| CallingTheorems.OneLiveCall | app/calling_ledger.py:37-49 | in every reachable state, of two originates of a tenant sharing an employee or an extension at least one is cancelled, or completed with recorded evidence of this command and tenant, internal and not dialled externally, in one of the nine listed call states, however ledger steps interleave |
| CallingTheorems.GrantSpentOnce | app/calling_ledger.py:168-172 | no authorization reference backs two originates of a tenant |
| CallingTheorems.DocumentsAreFinal | app/calling_ledger.py:177-179 | a calling document never changes and is always the recorded content of its command |
| CallingTheorems.UnknownOutcomeBlocksAgent | app/calling_ledger.py:37-49 | an originate that is dead-lettered, or completed without that evidence, keeps every later originate of that employee or extension from changing anything |
| CallingTheorems.OverIff | app/calling_ledger.py:37-49 | the terminal test holds exactly for what the ledger shows to be over |
| CallingOutcomes.DocumentsAreProper | app/calling_ledger.py:149-163 | every originate on file is within destination, caller id, lead, class and agent of the grant it carries, and every hangup repeats actor, request, grant and correlation of an originate on file |
| CallingOutcomes.LookupFindsOwn | app/calling_ledger.py:79-135 | a lookup finds exactly the principal's own originates and the hangups of them whose call id is still the provider's |
| CallingOutcomes.OriginateAcceptedIff | app/calling_ledger.py:149-179 | a new originate is accepted exactly when it is valid, covered by a grant in force that no originate has used, every call of the same employee or extension is over by what the ledger shows, and the ledger takes it |
| CallingOutcomes.RepeatedOriginate | app/calling_ledger.py:137-147 | however a run goes on, a repeated originate gets the current operation and one with another request or correlation conflicts; neither changes anything |
| CallingOutcomes.HangupAcceptedIff | app/calling_ledger.py:242-275 | a new hangup is accepted exactly from the agent of the originate, with a known call id, for a call that is not over, under the current version, when the ledger takes it |
| CallingCases.DeadLetterBlocksAgent | app/calling_ledger.py:168-176 | a run from the empty ledger to a dead-lettered originate after which no continuation lets an originate of that employee or extension change anything |
| CallingCases.LiveEvidenceBlocksAgent | app/calling_ledger.py:168-176 | a run to an originate completed on evidence of a call in progress, after which the agent's next originate under another key and grant conflicts |
| CallingCases.CancelledAfterDispatchFreesAgent | app/calling_ledger.py:37-49 | a run after which a once dispatched, then cancelled originate counts as terminal and the agent's next originate is accepted |
| CallingCases.CancelledUndialledIff | app/calling_ledger.py:37-49 | a cancelled originate shows no dispatch in its audit log exactly when it has no attempts |
| CallingStore.MemoryCalling.Get | app/calling_ledger.py:79-135 | acts as the lookup with its ownership and provenance rules |
| CallingStore.MemoryCalling.IsBlocked | app/calling_ledger.py:168-176 | finds whether a recorded originate spent the grant or may still be a live call of the agent |
| CallingStore.MemoryCalling.Originate | app/calling_ledger.py:149-179 | acts as the originate operation, with its result |
| CallingStore.MemoryCalling.HangUp | app/calling_ledger.py:242-275 | acts as the hangup operation, with its result |
| EmailTheorems.ReachablePolicies | app/email_production_control.py:787-957 | in every reachable state an open kill switch implies ACTIVE, campaign mode never occurs, limits are ordered, and a policy is enabled exactly under a bounded transactional authorization |
| EmailTheorems.SwitchOpensOnlyWhenReady | app/email_production_control.py:707-785 | a kill switch opens only by an activation or an operator while delivery is enabled, the authorization is valid and complete, change, release and environment are the deployed ones, and every approved domain is ready |
| EmailTheorems.OnlyAuthorizationWidens | app/email_production_control.py:787-957 | no step but a new authorization changes senders, domains, recipients, categories, limits or validity, and a new authorization always starts closed and inactive |
| EmailTheorems.GuardIsSound | app/email_production_control.py:959-1020 | the guard admits only closed-vocabulary categories from approved senders of approved domains to listed recipients or domains, under an active, open and valid authorization |
| EmailTheorems.MarketingIsBlocked | app/email_production_control.py:988-992 | marketing mail never passes |
| EmailTheorems.AuditReplaysToPolicy | app/email_production_control.py:279-323 | the audit log is an unbroken chain that replays to the policy in force, and the version counts its entries |
| PolicyTheorems.AuditIsLegal | app/email_production_control.py:787-957 | every audit entry is legal for its action: authorizations start inactive and closed, activations follow an authorization and open the switch, revocations disable, make safe and close, switching moves nothing but the switch |
| PolicyTheorems.RevocationHolds | app/email_production_control.py:894-922 | an accepted revocation leaves the policy revoked, disabled, safe and switched off, and the guard passes nothing of the tenant before a later accepted authorization followed by an accepted activation |
| PolicyTheorems.ClosedSwitchHolds | app/email_production_control.py:924-957 | an accepted closing moves nothing but the switch, and the guard passes nothing before an accepted call opens it again |
| PolicyAcceptance.ReachableIsSound | app/email_production_control.py:75-151 | every policy in force is well-formed and enabled exactly while an authorization stands, with bounded recipients, transactional categories, senders of its own domains, ordered limits within the platform bounds, a bounded validity and a complete record |
| PolicyAcceptance.AuthorizationAcceptedIff | app/email_production_control.py:787-849 | a new authorization is accepted exactly on the current version when one written-out condition holds, in place of the checks of request, sender loop and policy; the policy then carries exactly its content, inactive and closed |
| PolicyAcceptance.ActivationAcceptedIff | app/email_production_control.py:851-892 | a new activation is accepted exactly on the current version of an authorization awaiting it when the deployment is ready to send; the other blockers cannot occur; the policy is then active and switched on |
| PolicyAcceptance.RevocationAcceptedIff | app/email_production_control.py:894-922 | a new revocation is accepted exactly on the current version |
| PolicyAcceptance.SwitchAcceptedIff | app/email_production_control.py:924-957 | a new switching call is accepted exactly on the current version and, to open, for an active policy with a deployment ready to send; it moves nothing but the switch |
| PolicyAcceptance.GuardPassesIff | app/email_production_control.py:959-1020 | the guard passes a message exactly when delivery is enabled, the switch open, the moment in the window, sender approved, category authorized, every recipient listed, and minute, hour and day have room; it then draws exactly the recipients |
| EmailHistory.RepeatedAuthorization | app/email_production_control.py:279-323 | however a run goes on, a repeated authorization gets the first answer and a reused key with other content is refused; neither changes anything |
| EmailHistory.RepeatedRevocation | app/email_production_control.py:894-922 | however a run goes on, a repeated revocation gets the first answer and changes nothing |
| EmailHistory.RepeatedActivationConflicts | app/email_production_control.py:859-869 | however a run goes on, a repeated activation conflicts |
| EmailHistory.RepeatedSwitch | app/email_production_control.py:924-957 | a repeated closing gets the first answer; a repeated opening does so exactly while the policy is active and could be activated, and is blocked otherwise |
| EmailTheorems.UsageIsOrdered | app/email_production_control.py:350-362 | usage of the minute is at most that of the hour, and that at most that of the day |
| EmailTheorems.HeldAppend | app/email_production_control.py:350-362 | held units are exactly those of the tenant's reservations that were not given back and lie between the instants, the first included |
| EmailTheorems.QuotaIsSafe | app/email_production_control.py:325-345 | on any clock, if no authorization of the tenant asked for more than m, the unreleased units of every calendar minute, hour and day stay within m |
| EmailTheorems.CheckIsExactIff | app/email_production_control.py:350-362 | the check takes as used exactly what the current window holds if and only if nothing is held from the end of that window on |
| EmailTheorems.AdvancingClockIsExact | app/email_production_control.py:667-673 | on a clock that has not gone back nothing is held from the end of the current window on |
| EmailTheorems.BackwardClockOverRefuses | app/email_production_control.py:325-345 | an input on which the check refuses although every window has room |
| EmailTheorems.QueuedMailIsBounded | app/email_production_control.py:1038-1108 | recipients of queued messages, counted in the window of their reservation, are bounded by the same limits, whatever becomes of the submissions |
| EmailHistory.ReservationsSettle | app/email_production_control.py:1098-1108 | units are given back exactly when the submission was a duplicate or suppressed, a message is queued exactly when it was accepted or failed after queueing, and a failure before queueing keeps its units charged |
| EmailTheorems.QueueTimeIsBounded | app/email_production_control.py:1038-1108 | counted by the moment of queueing, a window exceeds its limit by no more than the messages reserved in another window |
| EmailTheorems.QueueTimeCanExceed | app/email_production_control.py:1060-1108 | a run in which two recipients are queued within a minute whose limit is one |
| EmailStore.MemoryEmailProductionPolicyStore.Mutate | app/email_production_control.py:279-323 | acts as the versioned, replayable write with its audit entry |
| EmailStore.MemoryEmailProductionPolicyStore.CurrentUsage | app/email_production_control.py:350-362 | the loop adds up the unreleased units since the start of the current minute, hour and day |
| EmailStore.MemoryEmailProductionPolicyStore.ReserveQuota | app/email_production_control.py:325-345 | reserves exactly when no window would exceed its limit |
| EmailStore.MemoryEmailProductionPolicyStore.ReleaseQuota | app/email_production_control.py:347-348 | gives the units of the reservation back, as the settling step does |
| EmailStore.EmailProductionControlService.Authorize | app/email_production_control.py:787-849 | acts as the authorization step |
| EmailStore.EmailProductionControlService.Activate | app/email_production_control.py:851-892 | acts as the activation step |
| EmailStore.EmailProductionControlService.Revoke | app/email_production_control.py:894-922 | acts as the revocation step |
| EmailStore.EmailProductionControlService.SetKillSwitch | app/email_production_control.py:924-957 | acts as the kill-switch step |
| EmailStore.EmailProductionControlService.GuardRequest | app/email_production_control.py:959-1020 | admits a message and draws its quota, or changes nothing |

## Left out

- The Postgres stores, with their SQL, advisory locks and row-level security; they differ from the memory stores in places.
- Routers, authentication, header checks, metrics, logging, HTTP and NATS clients; their outcomes are inputs of steps.
- Command dead-letter and replay records, listing, backlog and envelope loading, policy resolution and metadata redaction.
- Event texts and metadata of audit entries, the truncation of reasons to 2048 characters, trace headers in outbox payloads.
- The fallback payload of a retry for a command without intents, which `OutboxConserved` shows cannot occur.
- Saga enrollment of many events and the choice among many claimable rows: the model follows one row. The row lock that a dispatch takes while it loads is not modelled, which only adds interleavings; session mechanics are replaced by the documented conditional write.
- The effect of the campaign adapter and of Odoo beyond the replies they return.
- The duplicate flags of automation responses.
- Aliasing of dictionary entries: a store method changes the columns of a record one after the other and stores the record back.
- The idempotency index of automation approvals, which the derived approval id makes redundant.
- Rejection of automation approvals, which the memory store does not offer; route loading and payload limits.
- Bodies, subjects and sanitised labels of alert mail; the payload keeps the alert, the policy fields and the incident they are built from.
- Incident listing, cursors, notification attempt views, and the metadata of timeline events.
- The calling facade's own reconcile, which is a lookup followed by a ledger mutation that the interleaved ledger steps already include.
- The response document of a calling operation.
- Policy checks of a calling command before submission (`_validate`) are an input; phone-number, alias and key syntax are not modelled.
- Trimming, case folding and the length and pattern limits of email requests; addresses, domains and categories enter normalised.
- EmailStore.EmailProductionControlService.SetKillSwitch: the read of the policy and the write are one step, as in the memory store, whose coroutines do not suspend in between.
- The message store behind a gated submission: whether it queues, suppresses, repeats or fails is an input of the settling step.
- Instants compare as integers, so two renderings of one instant in different time zones are one identity.
