/**
 What each accepted operation on an automation job leaves behind, when an operation takes effect, and
 what waits for whom: dead letters for a replay, replays for a second person, parked jobs for ever.
 The rules are written out here and do not refer to the functions that carry them out.
 */
module AutomationOutcomes {
  import opened Identities
  import opened AutomationJobs
  import opened AutomationTheorems

  // ---------------------------------------------------------------- leases

  /** The lease is the one the job carries, and it has not run out. */
  predicate Carries(job: Job, lease: Lease, now: Time) {
    && job.leaseDigest == Some(TokenDigest(lease.token))
    && job.execution == Some(lease.execution) && job.leaseClient == Some(lease.client)
    && job.leaseExpiresAt.Some? && now < job.leaseExpiresAt.value
  }

  predicate UnderLease(step: Step) {
    step.HeartbeatStep? || step.RecordStep? || step.CompleteStep? || step.FailStep?
  }

  /** In every reachable store the lease that the job carries is active, whatever the state of the job. */
  lemma CarriedIsActive(y: System, k: Key, lease: Lease, now: Time)
    requires Inv(y) && k in y.store.records
    ensures ActiveLease(y.store.records[k].job, lease, now) <==> Carries(y.store.records[k].job, lease, now)
  {
    assert RecordOk(k, y.store.records[k]);
  }

  /**
   In every reachable store a heartbeat, a step record, a completion and a failure take effect exactly
   when the job carries their lease and it has not run out.
   */
  lemma TakesEffectIff(y: System, step: Step)
    requires Inv(y) && UnderLease(step)
    ensures LeaseOperation(y.store, step, step.key).Some? <==>
              step.key in y.store.records && Carries(y.store.records[step.key].job, step.lease, step.at)
  {
    hide Inv, Carries, ActiveLease, FailState, Reissued, Closed, DeadLetterFor, NewRecord;
    if step.key in y.store.records {
      InvAt(y, step.key);
      CarriedIsActive(y, step.key, step.lease, step.at);
      if ActiveLease(y.store.records[step.key].job, step.lease, step.at) {
        LeasedIsOpen(y.store.records[step.key], step.key, step.lease, step.at);
      }
    }
  }

  lemma LeasedIsOpen(r: Record, key: Key, lease: Lease, now: Time)
    requires RecordOk(key, r) && ActiveLease(r.job, lease, now)
    ensures r.job.terminalKey.None?
  {
  }

  /**
   A claim is accepted exactly by the job's own client for its own workflow with the token of its
   current dispatch, and either the token is unused and the job waits for a claim, or the same execution
   repeats its claim under a lease that has not run out.  A new claim is counted as an attempt and leases
   the job for sixty seconds; a repeated one changes nothing and returns the same lease.
   */
  lemma ClaimAcceptedIff(y: System, k: Key, c: Claiming, now: Time)
    requires Inv(y) && k in y.store.records
    ensures var r := y.store.records[k];
            var (r', result) := Claim(r, k, c, now);
            && (result.Ok? <==>
                  && r.job.workflowKey == c.workflowKey && r.job.workflowVersion == c.workflowVersion
                  && r.job.expectedClient == c.client && r.dispatch.token == c.delivery
                  && (if r.dispatch.claimed
                      then && r.job.execution == Some(c.execution)
                           && r.job.leaseExpiresAt.Some? && now < r.job.leaseExpiresAt.value
                      else r.job.state.Pending? || r.job.state.RetryScheduled?))
            && (result.Ok? ==>
                  && result.value.duplicate == r.dispatch.claimed
                  && result.value.leaseToken == LeaseToken(c.delivery, k.id, c.execution, c.client)
                  && r'.job.leaseExpiresAt == Some(result.value.expiresAt))
            && (result.Ok? && !r.dispatch.claimed ==>
                  && result.value.expiresAt == now + 60 && r'.job.state.Claimed? && r'.dispatch.claimed
                  && r'.job.attemptCount == r.job.attemptCount + 1 && r'.dead == r.dead)
            && (!(result.Ok? && !r.dispatch.claimed) ==> r' == r)
  {
    assert RecordOk(k, y.store.records[k]);
  }

  /** The lease that a claim grants is active up to its expiry and no longer. */
  lemma GrantedUntilExpiry(y: System, k: Key, c: Claiming, now: Time, t: Time)
    requires Inv(y) && k in y.store.records && Claim(y.store.records[k], k, c, now).1.Ok?
    ensures var (r', result) := Claim(y.store.records[k], k, c, now);
            ActiveLease(r'.job, Lease(result.value.leaseToken, c.execution, c.client), t)
            <==> t < result.value.expiresAt
  {
    assert RecordOk(k, y.store.records[k]);
  }

  /** An accepted heartbeat leases the job for another sixty seconds to the same holder. */
  lemma HeartbeatExtends(r: Record, lease: Lease, now: Time, t: Time)
    requires Heartbeat(r, lease, now).Ok?
    ensures var r' := Heartbeat(r, lease, now).value;
            && r'.job.state.Running? && r'.dispatch == r.dispatch && r'.dead == r.dead
            && r'.job.attemptCount == r.job.attemptCount
            && (ActiveLease(r'.job, lease, t) <==> t < now + 60)
  {
  }

  // ---------------------------------------------------------------- how a job ends

  /** The request is remembered as the terminal one, and the lease is over. */
  predicate EndedBy(job: Job, key: Name, request: TerminalRequest) {
    job.terminalKey == Some(key) && job.terminalRequest == Some(request) && job.leaseDigest.None?
  }

  /** An accepted completion completes the job with its result and remembers the request. */
  lemma CompletionOutcome(r: Record, lease: Lease, k: Name, result: Name, safeResult: Name, now: Time)
    requires Complete(r, lease, k, result, safeResult, now).Changed?
    ensures var r' := Complete(r, lease, k, result, safeResult, now).record;
            && r'.job.state.Completed? && r'.job.resultCode == Some(result) && r'.job.errorCode.None?
            && EndedBy(r'.job, k, CompleteRequest(lease.execution, result, safeResult))
            && r'.job.attemptCount == r.job.attemptCount && r'.dispatch == r.dispatch && r'.dead == r.dead
  {
  }

  /** What an accepted failure makes of a job. */
  predicate FailedAs(k: Key, r: Record, lease: Lease, key: Name, f: Failing, token: Name, now: Time, r': Record) {
    var request := FailRequest(lease.execution, f.error, f.retryable, f.unknownOutcome, f.safeError);
    var spent := r.job.attemptCount >= r.job.maxAttempts;
    && r'.job.errorCode == Some(f.error) && r'.job.resultCode.None? && r'.job.attemptCount == r.job.attemptCount
    && (r'.job.state.RetryScheduled? <==> !f.unknownOutcome && f.retryable && !spent)
    && (r'.job.state.DeadLettered? <==> f.unknownOutcome || spent)
    && (r'.job.state.FailedTerminal? <==> !f.unknownOutcome && !f.retryable && !spent)
    && (r'.job.state.RetryScheduled? ==>
          && r'.dispatch.token == token && !r'.dispatch.claimed && r'.job.deliveryUsedAt.None?
          && r'.job.execution.None? && r'.job.leaseDigest.None? && r'.job.terminalKey.None?)
    && (!r'.job.state.RetryScheduled? ==> r'.dispatch == r.dispatch && EndedBy(r'.job, key, request))
    && (r'.job.state.DeadLettered? ==>
          r'.dead == Some(DeadLetter(DeadLetterId(k.tenant, k.id), k.tenant, k.id,
                                     Fingerprint(k.tenant, k.id, r.job.workflowKey, f.error), f.unknownOutcome, true,
                                     1, now, now)))
    && (!r'.job.state.DeadLettered? ==> r'.dead == r.dead)
  }

  lemma FailureOutcome(r: Record, k: Key, lease: Lease, key: Name, f: Failing, token: Name, now: Time)
    requires Fail(r, k, lease, key, f, token, now).Changed?
    ensures FailedAs(k, r, lease, key, f, token, now, Fail(r, k, lease, key, f, token, now).record)
  {
  }

  /** The token drawn for a failure decides nothing but the new dispatch. */
  lemma FailureAccepted(r: Record, k: Key, lease: Lease, key: Name, f: Failing, token: Name, other: Name, now: Time)
    ensures Fail(r, k, lease, key, f, token, now).Changed? == Fail(r, k, lease, key, f, other, now).Changed?
  {
    hide FailState, Reissued, Closed, DeadLetterFor, ActiveLease;
  }

  /**
   A failure that takes effect schedules a retry exactly when its outcome is known, it is retryable and
   attempts are left; it leaves an open dead letter exactly when its outcome is unknown or the attempts
   are spent; otherwise the job has failed for good.
   */
  lemma FailureDecides(y: System, step: Step)
    requires Inv(y) && step.FailStep? && LeaseOperation(y.store, step, step.key).Some?
    ensures var y' := Advance(y, step);
            && step.key in y.store.records && step.key in y'.store.records
            && FailedAs(step.key, y.store.records[step.key], step.lease, step.idempotencyKey, step.failing,
                        Random(|y.issued|), step.at, y'.store.records[step.key])
  {
    hide Fail, FailedAs, Inv, StepsAfter, ApprovalsAfter;
    var r, token := y.store.records[step.key], Random(|y.issued|);
    FailureAccepted(r, step.key, step.lease, step.idempotencyKey, step.failing, token, Random(0), step.at);
    FailureOutcome(r, step.key, step.lease, step.idempotencyKey, step.failing, token, step.at);
  }

  // ---------------------------------------------------------------- dead letters wait for a replay

  lemma DeadChange(s: Store, step: Step, token: Name)
    requires Target(step) in s.records && Changes(s, step, token).Some? && !step.ReplayStep?
    requires RecordOk(Target(step), s.records[Target(step)]) && s.records[Target(step)].job.state.DeadLettered?
    ensures Changes(s, step, token).value == s.records[Target(step)]
  {
    hide DeadLetterFor, NewRecord, Reissued, Closed, FailState;
  }

  lemma DeadStep(y: System, step: Step, k: Key)
    requires Inv(y) && k in y.store.records && y.store.records[k].job.state.DeadLettered?
    requires !ReplayAccepted(y, step, k)
    ensures k in Advance(y, step).store.records && Advance(y, step).store.records[k] == y.store.records[k]
  {
    hide Changes, RecordOk, StepsAfter, ApprovalsAfter, Target, Inv;
    if Target(step) == k && Changes(y.store, step, Random(|y.issued|)).Some? {
      InvAt(y, k);
      DeadChange(y.store, step, Random(|y.issued|));
    }
  }

  lemma DeadIsIdle(y: System, step: Step, k: Key)
    requires Inv(y) && k in y.store.records && y.store.records[k].job.state.DeadLettered?
    ensures LeaseOperation(y.store, step, k).None?
  {
    hide DeadLetterFor, NewRecord, Reissued, Closed, FailState;
    assert RecordOk(k, y.store.records[k]);
  }

  ghost predicate ReplayedAt(steps: seq<Step>, m: int, k: Key) requires 0 <= m < |steps| {
    ReplayAccepted(Before(steps, m), steps[m], k)
  }

  lemma {:induction false} StaysDead(steps: seq<Step>, i: int, j: int, k: Key)
    requires 0 <= i <= j <= |steps|
    requires k in Before(steps, i).store.records && Before(steps, i).store.records[k].job.state.DeadLettered?
    requires forall m :: i <= m < j ==> !ReplayedAt(steps, m, k)
    ensures k in Before(steps, j).store.records
    ensures Before(steps, j).store.records[k] == Before(steps, i).store.records[k]
    decreases j
  {
    hide Before, Advance, Inv, ReplayAccepted;
    if i < j {
      StaysDead(steps, i, j - 1, k);
      Reachable(steps, j - 1);
      BeforeNext(steps, j - 1);
      assert !ReplayedAt(steps, j - 1, k);
      DeadStep(Before(steps, j - 1), steps[j - 1], k);
    }
  }

  /**
   An effect whose outcome is unknown is never repeated on its own: after a failure with unknown outcome
   took effect, no claim, heartbeat, step, completion or failure takes effect on the job before an
   accepted dead-letter replay of it.
   */
  lemma UnknownOutcomeWaitsForReplay(steps: seq<Step>, i: int, j: int, k: Key)
    requires 0 <= i < j < |steps|
    requires steps[i].FailStep? && steps[i].key == k && steps[i].failing.unknownOutcome
    requires LeaseOperation(Before(steps, i).store, steps[i], k).Some?
    requires LeaseOperation(Before(steps, j).store, steps[j], k).Some?
    ensures exists m :: i < m < j && ReplayedAt(steps, m, k)
  {
    hide Before, Advance, Inv, LeaseOperation, ReplayAccepted;
    Reachable(steps, i);
    FailureDecides(Before(steps, i), steps[i]);
    BeforeNext(steps, i);
    if forall m :: i + 1 <= m < j ==> !ReplayedAt(steps, m, k) {
      StaysDead(steps, i + 1, j, k);
      Reachable(steps, j);
      DeadIsIdle(Before(steps, j), steps[j], k);
    }
  }

  // ---------------------------------------------------------------- terminal requests are remembered

  /** No accepted replay of the job along a run from `y`. */
  ghost predicate NoReplay(y: System, later: seq<Step>, k: Key) {
    forall m :: 0 <= m < |later| ==> !ReplayAccepted(Run(y, later[..m]), later[m], k)
  }

  lemma {:induction false} EndedStays(y: System, later: seq<Step>, k: Key)
    requires Inv(y) && k in y.store.records && Ended(y.store.records[k].job.state) && NoReplay(y, later, k)
    ensures k in Run(y, later).store.records && Run(y, later).store.records[k] == y.store.records[k]
  {
    hide Inv, Advance, ReplayAccepted;
    if later != [] {
      var n := |later| - 1;
      var z := Run(y, later[..n]);
      assert NoReplay(y, later[..n], k) by {
        forall m | 0 <= m < n ensures !ReplayAccepted(Run(y, later[..n][..m]), later[..n][m], k) {
          assert later[..n][..m] == later[..m];
        }
      }
      EndedStays(y, later[..n], k);
      RunKeeps(y, later[..n]);
      assert !ReplayAccepted(z, later[n], k);
      if y.store.records[k].job.state.DeadLettered? { DeadStep(z, later[n], k); } else { FinalAdvance(z, later[n], k); }
    }
  }

  /** What a job that ended by a request answers to any completion and any failure. */
  ghost predicate AnswersOnly(r: Record, k: Key, step: Step)
    requires step.CompleteStep? || step.FailStep?
  {
    && (forall lease: Lease, key: Name, result: Name, safeResult: Name, now: Time ::
          Complete(r, lease, key, result, safeResult, now)
          == if && step.CompleteStep? && key == step.idempotencyKey && lease.execution == step.lease.execution
                && result == step.result && safeResult == step.safeResult
             then Replayed else Refused(Conflict))
    && (forall lease: Lease, key: Name, f: Failing, token: Name, now: Time ::
          Fail(r, k, lease, key, f, token, now)
          == if && step.FailStep? && key == step.idempotencyKey && lease.execution == step.lease.execution
                && f == step.failing
             then Replayed else Refused(Conflict))
  }

  lemma EndedAnswers(r: Record, k: Key, step: Step)
    requires step.CompleteStep? || step.FailStep?
    requires step.CompleteStep? ==>
               EndedBy(r.job, step.idempotencyKey, CompleteRequest(step.lease.execution, step.result, step.safeResult))
    requires step.FailStep? ==>
               EndedBy(r.job, step.idempotencyKey,
                       FailRequest(step.lease.execution, step.failing.error, step.failing.retryable,
                                   step.failing.unknownOutcome, step.failing.safeError))
    ensures AnswersOnly(r, k, step)
  {
    hide FailState, Reissued, Closed, DeadLetterFor, ActiveLease;
  }

  /**
   However a run goes on without a replay, a job that a completion or a failure ended stays as it is:
   the same request of the same execution is answered as a repetition, with or without a lease, and any
   other completion or failure is refused.
   */
  lemma TerminalRequestIsRemembered(y: System, step: Step, later: seq<Step>)
    requires Inv(y) && (step.CompleteStep? || step.FailStep?) && LeaseOperation(y.store, step, step.key).Some?
    requires step.key in Advance(y, step).store.records
    requires Ended(Advance(y, step).store.records[step.key].job.state) && NoReplay(Advance(y, step), later, step.key)
    ensures var z, y' := Run(Advance(y, step), later), Advance(y, step);
            && step.key in z.store.records && z.store.records[step.key] == y'.store.records[step.key]
            && AnswersOnly(z.store.records[step.key], step.key, step)
  {
    hide Inv, Run, NoReplay, Fail, Complete, AnswersOnly, StepsAfter, ApprovalsAfter;
    var y' := Advance(y, step);
    StepKeeps(y, step);
    EndedStays(y', later, step.key);
    if step.FailStep? {
      FailureDecides(y, step);
    } else {
      CompletionOutcome(y.store.records[step.key], step.lease, step.idempotencyKey, step.result, step.safeResult,
                        step.at);
    }
    EndedAnswers(y'.store.records[step.key], step.key, step);
  }

  // ---------------------------------------------------------------- jobs parked before their claim

  /** The job waits for an approval although nobody has claimed it. */
  predicate Parked(r: Record) { r.job.state.WaitingApproval? && !r.dispatch.claimed }

  /** The step newly requests an approval for the job. */
  predicate RequestsApproval(s: Store, step: Step) {
    && step.ApprovalStep? && step.key in s.records && s.records[step.key].job.expectedClient == step.client
    && Key(step.key.tenant, ApprovalId(step.key.tenant, step.key.id, step.idempotencyKey)) !in s.approvals
  }

  /**
   A new approval request sets every job that has not ended to waiting and changes nothing else of it, so
   it parks a job exactly when the job was not claimed.  A job that has ended is left alone.
   */
  lemma RequestParksIff(y: System, step: Step)
    requires Inv(y) && RequestsApproval(y.store, step)
    ensures var r, y' := y.store.records[step.key], Advance(y, step);
            && step.key in y'.store.records
            && var r' := y'.store.records[step.key];
               && (Parked(r') <==> !r.dispatch.claimed)
               && (if Ended(r.job.state) then r' == r
                   else r' == r.(job := r.job.(state := WaitingApproval, updatedAt := step.at,
                                               resourceVersion := r.job.resourceVersion + 1)))
  {
    hide StepsAfter, ApprovalsAfter;
    assert RecordOk(step.key, y.store.records[step.key]);
  }

  lemma ParkedChange(s: Store, step: Step, token: Name)
    requires Target(step) in s.records && Changes(s, step, token).Some?
    requires RecordOk(Target(step), s.records[Target(step)]) && Parked(s.records[Target(step)])
    ensures Parked(Changes(s, step, token).value)
  {
    hide DeadLetterFor, NewRecord, Reissued, Closed, FailState;
    if step.ReplayStep? { AllowedHasDead(s, step); }
  }

  lemma ParkedIsIdle(y: System, step: Step, k: Key)
    requires Inv(y) && k in y.store.records && Parked(y.store.records[k])
    ensures LeaseOperation(y.store, step, k).None?
  {
    hide DeadLetterFor, NewRecord, Reissued, Closed, FailState;
    assert RecordOk(k, y.store.records[k]);
  }

  lemma ParkedStep(y: System, step: Step, k: Key)
    requires Inv(y) && k in y.store.records && Parked(y.store.records[k])
    ensures k in Advance(y, step).store.records && Parked(Advance(y, step).store.records[k])
    ensures LeaseOperation(y.store, step, k).None?
  {
    hide Changes, RecordOk, StepsAfter, ApprovalsAfter, Target, Inv, LeaseOperation;
    ParkedIsIdle(y, step, k);
    if Target(step) == k && Changes(y.store, step, Random(|y.issued|)).Some? {
      InvAt(y, k);
      ParkedChange(y.store, step, Random(|y.issued|));
    }
  }

  /** A parked job is stuck: in no continuation does any operation under a lease, or any claim, take effect on it. */
  lemma {:induction false} ParkedIsStuck(y: System, later: seq<Step>, k: Key, step: Step)
    requires Inv(y) && k in y.store.records && Parked(y.store.records[k])
    ensures k in Run(y, later).store.records && Parked(Run(y, later).store.records[k])
    ensures LeaseOperation(Run(y, later).store, step, k).None?
  {
    hide Inv, Advance, LeaseOperation, Parked;
    RunKeeps(y, later);
    if later != [] {
      var n := |later| - 1;
      RunKeeps(y, later[..n]);
      ParkedIsStuck(y, later[..n], k, step);
      ParkedStep(Run(y, later[..n]), later[n], k);
    }
    ParkedStep(Run(y, later), step, k);
  }

  /** Two steps from the empty store: an approval is requested for a job before its first claim. */
  lemma ParkedIsReachable(tenant: Name, event: Name, correlationId: Name, route: Route, key: Name, kind: Name,
                          summary: Name, requester: Name)
    ensures var k := JobKey(tenant, event, route);
            var y := Run(START, [EnqueueStep(tenant, event, correlationId, route, 0),
                                 ApprovalStep(k, route.client, key, kind, summary, 10, requester, 1)]);
            k in y.store.records && Parked(y.store.records[k])
  {
    var k := JobKey(tenant, event, route);
    var first, second := EnqueueStep(tenant, event, correlationId, route, 0),
                         ApprovalStep(k, route.client, key, kind, summary, 10, requester, 1);
    assert [first, second][..1] == [first] && [first][..0] == [];
    var y1 := Run(START, [first]);
    assert y1 == Advance(START, first) by { assert Run(START, [first][..0]) == START; }
    assert k in y1.store.records && y1.store.approvals == map[];
    assert Run(START, [first, second]) == Advance(y1, second);
  }

  // ---------------------------------------------------------------- replays need a second person

  /** An approval is decided exactly when it is approved, by somebody other than its requester. */
  predicate Decided(a: Approval) {
    && (a.state.Approved? <==> a.decidedBy.Some?)
    && (a.decidedBy.Some? ==> a.decidedBy.value != a.requestedBy)
  }

  ghost predicate ApprovalsInv(s: Store) { forall k :: k in s.approvals ==> Decided(s.approvals[k]) }

  lemma {:induction false} ApprovalsAreDecided(steps: seq<Step>)
    ensures ApprovalsInv(Run(START, steps).store)
  {
    if steps != [] {
      hide Changes;
      ApprovalsAreDecided(steps[..|steps| - 1]);
    }
  }

  /**
   A new request puts a pending approval on file, a decision by anyone but the requester approves it, and
   reading a pending approval after its expiry marks it expired; nothing else changes an approval.
   */
  lemma ApprovalOutcome(y: System, step: Step, id: Key)
    requires RequestsApproval(y.store, step) || step.DecideStep? || step.ReadApprovalStep?
    ensures var before, after := y.store.approvals, Advance(y, step).store.approvals;
            && (step.ApprovalStep? ==>
                  after == before[Key(step.key.tenant, ApprovalId(step.key.tenant, step.key.id, step.idempotencyKey))
                                  := Approval(ApprovalRequest(step.key.id, step.kind, step.summary, step.expiresAt),
                                              ApprovalPending, step.requestedBy, None, 1)])
            && (!step.ApprovalStep? && (id !in before || id != Key(step.tenant, step.approval)) ==>
                  (id in after <==> id in before) && (id in before ==> after[id] == before[id]))
            && (!step.ApprovalStep? && id in before && id == Key(step.tenant, step.approval) ==>
                  && id in after && after[id].request == before[id].request
                  && after[id].requestedBy == before[id].requestedBy
                  && (step.DecideStep? && step.decidedBy != before[id].requestedBy ==>
                        after[id].state.Approved? && after[id].decidedBy == Some(step.decidedBy))
                  && (step.DecideStep? && step.decidedBy == before[id].requestedBy ==> after[id] == before[id])
                  && (step.ReadApprovalStep? ==>
                        if before[id].state.ApprovalPending? && step.at >= before[id].request.expiresAt
                        then after[id].state.ApprovalExpired? && after[id].decidedBy == before[id].decidedBy
                        else after[id] == before[id]))
  {
    hide Changes, StepsAfter;
  }

  /** A replay of the job's dead letter under this approval meets every condition. */
  predicate MayReplay(s: Store, step: Step, k: Key) requires step.ReplayStep? {
    && step.client == Text("n8n-operations-automation") && step.tenant == k.tenant
    && step.deadLetter == DeadLetterId(k.tenant, k.id)
    && k in s.records && s.records[k].job.state.DeadLettered? && s.records[k].dead.Some?
    && step.body.expectedVersion == 1 && step.body.fingerprint == s.records[k].dead.value.fingerprint
    && Key(k.tenant, step.approval) in s.approvals
    && var a := s.approvals[Key(k.tenant, step.approval)];
       && a.state.Approved? && a.request.kind == Text("REPLAY") && a.request.job == k.id
       && step.at < a.request.expiresAt
  }

  /**
   In every reachable store a replay is accepted exactly when the operations client asks for it, the job
   is dead-lettered, version and fingerprint are those of its open dead letter, and an unexpired replay
   approval of that job was given, which is always one by a second person.  It then schedules the job
   under a new token, closes the dead letter and leaves the attempts as they were.
   */
  lemma ReplayAcceptedIff(steps: seq<Step>, step: Step, k: Key)
    requires step.ReplayStep?
    ensures var y := Run(START, steps);
            && (ReplayAccepted(y, step, k) <==> MayReplay(y.store, step, k))
            && (MayReplay(y.store, step, k) ==>
                  var a := y.store.approvals[Key(k.tenant, step.approval)];
                  a.decidedBy.Some? && a.decidedBy.value != a.requestedBy)
            && (ReplayAccepted(y, step, k) ==>
                  && k in Advance(y, step).store.records && k in y.store.records
                  && var r, r' := y.store.records[k], Advance(y, step).store.records[k];
                     && r'.job.state.RetryScheduled? && r'.dispatch.token == Random(|y.issued|)
                     && !r'.dispatch.claimed && r'.job.deliveryUsedAt.None? && r'.job.execution.None?
                     && r'.job.terminalKey.None? && r'.job.attemptCount == r.job.attemptCount
                     && r'.dead.Some? && !r'.dead.value.open && r'.dead.value.resourceVersion == 2)
  {
    hide Run, StepsAfter, ApprovalsAfter, Inv;
    var y := Run(START, steps);
    StartInv();
    RunKeeps(START, steps);
    ApprovalsAreDecided(steps);
    if k in y.store.records { InvAt(y, k); }
  }

  lemma ApprovalStays(y: System, step: Step, id: Key)
    requires id in y.store.approvals && y.store.approvals[id].state.Approved?
    ensures id in Advance(y, step).store.approvals
    ensures Advance(y, step).store.approvals[id].state.Approved?
    ensures Advance(y, step).store.approvals[id].request == y.store.approvals[id].request
  {
    hide Changes, StepsAfter;
  }

  lemma {:induction false} ApprovedStays(steps: seq<Step>, i: int, j: int, id: Key)
    requires 0 <= i <= j <= |steps|
    requires id in Before(steps, i).store.approvals && Before(steps, i).store.approvals[id].state.Approved?
    ensures id in Before(steps, j).store.approvals && Before(steps, j).store.approvals[id].state.Approved?
    ensures Before(steps, j).store.approvals[id].request == Before(steps, i).store.approvals[id].request
    decreases j
  {
    hide Before, Advance;
    if i < j {
      ApprovedStays(steps, i, j - 1, id);
      BeforeNext(steps, j - 1);
      ApprovalStays(Before(steps, j - 1), steps[j - 1], id);
    }
  }

  /** The same replay request at another time. */
  function Again(step: Step, at: Time): Step requires step.ReplayStep? {
    ReplayStep(step.tenant, step.deadLetter, step.approval, step.body, step.client, at)
  }

  /**
   An approval is not used up: once it has backed a replay, the same request is accepted again whenever
   the job is dead-lettered again with the same error, until the approval expires.
   */
  lemma ApprovalIsReusable(steps: seq<Step>, i: int, j: int, k: Key, at: Time)
    requires 0 <= i < j <= |steps| && ReplayedAt(steps, i, k)
    requires at < Before(steps, i).store.approvals[Key(k.tenant, steps[i].approval)].request.expiresAt
    requires var s := Before(steps, j).store;
             && k in s.records && s.records[k].job.state.DeadLettered? && s.records[k].dead.Some?
             && s.records[k].dead.value.fingerprint == steps[i].body.fingerprint
    ensures ReplayAccepted(Before(steps, j), Again(steps[i], at), k)
  {
    hide Run, Advance, Changes;
    ReplayAcceptedIff(steps[..i], steps[i], k);
    ApprovedStays(steps, i, j, Key(k.tenant, steps[i].approval));
    ReplayAcceptedIff(steps[..j], Again(steps[i], at), k);
  }

  // ---------------------------------------------------------------- evidence and enqueueing

  /** Step evidence is numbered from 1 without repetition. */
  ghost predicate EvidenceInv(s: Store) {
    && (forall k :: k in s.steps ==> 1 <= s.steps[k].id <= |s.steps|)
    && (forall k, l :: k in s.steps && l in s.steps && s.steps[k].id == s.steps[l].id ==> k == l)
  }

  lemma EvidenceStep(y: System, step: Step)
    requires EvidenceInv(y.store)
    ensures EvidenceInv(Advance(y, step).store)
    ensures forall k :: k in y.store.steps ==>
              k in Advance(y, step).store.steps && Advance(y, step).store.steps[k] == y.store.steps[k]
  {
    hide Changes, ApprovalsAfter, ActiveLease;
  }

  /** In every reachable store step evidence is numbered without repetition, and no continuation changes any of it. */
  lemma {:induction false} EvidenceIsFinal(steps: seq<Step>, later: seq<Step>, k: StepKey)
    ensures EvidenceInv(Run(START, steps).store) && EvidenceInv(Run(Run(START, steps), later).store)
    ensures k in Run(START, steps).store.steps ==>
              && k in Run(Run(START, steps), later).store.steps
              && Run(Run(START, steps), later).store.steps[k] == Run(START, steps).store.steps[k]
    decreases |steps| + |later|
  {
    hide Advance, EvidenceInv;
    if later != [] {
      EvidenceIsFinal(steps, later[..|later| - 1], k);
      EvidenceStep(Run(Run(START, steps), later[..|later| - 1]), later[|later| - 1]);
    } else if steps != [] {
      EvidenceIsFinal(steps[..|steps| - 1], [], k);
      EvidenceStep(Run(START, steps[..|steps| - 1]), steps[|steps| - 1]);
    } else {
      assert EvidenceInv(START.store) by { NoEvidence(); }
    }
  }

  lemma NoEvidence()
    ensures EvidenceInv(START.store)
  {
  }

  /**
   A step record that takes effect is on file afterwards with exactly its content if its key was new, and
   puts the job to running; under a known key it changes nothing.
   */
  lemma RecordOutcome(y: System, step: Step)
    requires Inv(y) && step.RecordStep? && LeaseOperation(y.store, step, step.key).Some?
    ensures var y', k := Advance(y, step), StepKey(step.key.tenant, step.key.id, step.idempotencyKey);
            && k in y'.store.steps && step.key in y'.store.records
            && (k !in y.store.steps ==>
                  && y'.store.steps[k] == StepEvidence(|y.store.steps| + 1, step.content)
                  && y'.store.records[step.key].job.state.Running?)
            && (k in y.store.steps ==> y'.store == y.store)
  {
    hide Inv;
  }

  /**
   The first enqueueing of an event for a workflow version creates one pending job with a new, unclaimed
   dispatch and all attempts ahead; any further one changes nothing.
   */
  lemma EnqueueOnce(y: System, tenant: Name, event: Name, correlationId: Name, route: Route, now: Time)
    ensures var k := Key(tenant, JobId(tenant, event, route.workflowKey, route.workflowVersion));
            var y' := Advance(y, EnqueueStep(tenant, event, correlationId, route, now));
            && k in y'.store.records && y'.store.steps == y.store.steps && y'.store.approvals == y.store.approvals
            && (k in y.store.records ==> y'.store == y.store)
            && (k !in y.store.records ==>
                  var r := y'.store.records[k];
                  && y'.store.records == y.store.records[k := r] && r.dead.None?
                  && r.job.state.Pending? && r.job.attemptCount == 0 && r.job.maxAttempts == route.maxAttempts
                  && r.job.expectedClient == route.client && r.job.workflowKey == route.workflowKey
                  && r.job.workflowVersion == route.workflowVersion && r.job.event == event
                  && r.dispatch.token == Random(|y.issued|) && !r.dispatch.claimed && r.job.deliveryUsedAt.None?)
  {
  }

  /** The step is a claim, an operation under a lease, an approval request or a replay that is not accepted. */
  predicate TurnedAway(y: System, step: Step) {
    || (step.ClaimStep? && !ClaimAccepted(y.store, step))
    || (UnderLease(step) && LeaseOperation(y.store, step, step.key).None?)
    || (step.ApprovalStep? && !RequestsApproval(y.store, step))
    || (step.ReplayStep? && !ReplayAccepted(y, step, Target(step)))
  }

  /** Whatever is turned away changes nothing. */
  lemma RefusalChangesNothing(y: System, step: Step)
    requires TurnedAway(y, step)
    ensures Advance(y, step).store == y.store
  {
    hide DeadLetterFor, NewRecord, Reissued, Closed, FailState, RepeatsClaim, ActiveLease;
    if step.FailStep? && step.key in y.store.records {
      FailureAccepted(y.store.records[step.key], step.key, step.lease, step.idempotencyKey, step.failing,
                      Random(|y.issued|), Random(0), step.at);
    }
    if step.ClaimStep? && step.key in y.store.records {
      RefusedClaim(y.store.records[step.key], step.key, step.claiming, step.at);
    }
    assert Apply(y.store, step, Random(|y.issued|)).records == y.store.records;
  }

  lemma RefusedClaim(r: Record, k: Key, c: Claiming, now: Time)
    requires Claim(r, k, c, now).1.Err?
    ensures Claim(r, k, c, now).0 == r
  {
  }
}
