/**
 How far a job's attempts can go: the budget of `max_attempts` plus accepted replays is reached.
 */
module AutomationCases {
  import opened Identities
  import opened AutomationJobs
  import opened AutomationTheorems
  import AutomationStore

  /** A claim that consumes the delivery token goes above `max_attempts` exactly when they were spent before. */
  lemma ClaimExceedsIff(r: Record, key: Key, c: Claiming, now: Time)
    requires Claim(r, key, c, now).1.Ok? && !Claim(r, key, c, now).1.value.duplicate
    ensures Claim(r, key, c, now).0.job.maxAttempts == r.job.maxAttempts
    ensures Claim(r, key, c, now).0.job.attemptCount > r.job.maxAttempts <==> r.job.attemptCount >= r.job.maxAttempts
  {
  }

  /** In a reachable store a job that can be claimed with all its attempts spent has been replayed. */
  lemma SpentMeansReplayed(steps: seq<Step>, k: Key)
    requires forall i :: 0 <= i < |steps| && steps[i].EnqueueStep? ==> steps[i].route.maxAttempts >= 1
    requires k in Run(START, steps).store.records
    requires var job := Run(START, steps).store.records[k].job;
             job.deliveryUsedAt.None? && job.attemptCount >= job.maxAttempts
    ensures Replays(steps, k) >= 1
  {
    hide Run;
    AttemptBudget(steps, k);
  }

  // ---------------------------------------------------------------- one run that spends the budget

  /** The names that occur in the run. */
  datatype Case = Case(
    tenant: Name, event: Name, correlationId: Name, route: Route, first: Name, second: Name, error: Name,
    summary: Name, key: Name, requester: Name, decider: Name)

  /** One attempt is allowed, and the approval is decided by somebody else. */
  predicate Single(c: Case) { c.route.maxAttempts == 1 && c.requester != c.decider }

  function KeyOf(c: Case): Key { JobKey(c.tenant, c.event, c.route) }

  function ApprovalOf(c: Case): Name { ApprovalId(c.tenant, KeyOf(c).id, c.key) }

  function Claims(c: Case, token: Name, execution: Name): Claiming {
    Claiming(c.route.workflowKey, c.route.workflowVersion, token, execution, c.route.client)
  }

  function LeaseOf(c: Case): Lease {
    Lease(LeaseToken(Random(0), KeyOf(c).id, c.first, c.route.client), c.first, c.route.client)
  }

  function Failure(c: Case): Failing { Failing(c.error, true, false, c.summary) }

  function ReplayBody(c: Case): Replaying {
    Replaying(1, Fingerprint(c.tenant, KeyOf(c).id, c.route.workflowKey, c.error))
  }

  /** Enqueue, claim, fail, request and give an approval, replay, claim again. */
  function Steps(c: Case): seq<Step> {
    var k := KeyOf(c);
    [EnqueueStep(c.tenant, c.event, c.correlationId, c.route, 0),
     ClaimStep(k, Claims(c, Random(0), c.first), 0),
     FailStep(k, LeaseOf(c), c.key, Failure(c), 1),
     ApprovalStep(k, c.route.client, c.key, REPLAY, c.summary, 10, c.requester, 1),
     DecideStep(c.tenant, ApprovalOf(c), c.decider, 1),
     ReplayStep(c.tenant, DeadLetterId(c.tenant, k.id), ApprovalOf(c), ReplayBody(c), OPERATIONS_CLIENT, 1),
     ClaimStep(k, Claims(c, Random(5), c.second), 1)]
  }

  // The record of the job after each of these steps.

  function AfterEnqueue(c: Case): Record { NewRecord(KeyOf(c), c.event, c.correlationId, c.route, Random(0), 0) }

  function AfterClaim(c: Case): Record { Claim(AfterEnqueue(c), KeyOf(c), Claims(c, Random(0), c.first), 0).0 }

  function AfterFailure(c: Case): Terminal<Record> {
    Fail(AfterClaim(c), KeyOf(c), LeaseOf(c), c.key, Failure(c), Random(2), 1)
  }

  lemma FirstClaim(c: Case)
    requires Single(c)
    ensures AfterClaim(c).job.attemptCount == 1 && AfterClaim(c).job.state.Claimed? && AfterClaim(c).dead.None?
    ensures ActiveLease(AfterClaim(c).job, LeaseOf(c), 1) && AfterClaim(c).job.terminalKey.None?
    ensures AfterClaim(c).job.maxAttempts == 1 && AfterClaim(c).job.workflowKey == c.route.workflowKey
    ensures AfterClaim(c).job.workflowVersion == c.route.workflowVersion
    ensures AfterClaim(c).job.expectedClient == c.route.client
  {
  }

  lemma FirstFailure(c: Case)
    requires Single(c)
    ensures AfterFailure(c).Changed?
    ensures var r := AfterFailure(c).record;
            && r.job.state.DeadLettered? && r.job.attemptCount == 1 && r.job.maxAttempts == 1
            && r.job.workflowKey == c.route.workflowKey && r.job.workflowVersion == c.route.workflowVersion
            && r.job.expectedClient == c.route.client
            && r.dead == Some(DeadLetterFor(KeyOf(c), AfterClaim(c).job, c.error, false, 1))
  {
    FirstClaim(c);
    hide AfterClaim, ActiveLease, LeaseOf, KeyOf;
  }

  function AfterDeadLetter(c: Case): Record requires Single(c) {
    FirstFailure(c);
    AfterFailure(c).record
  }

  lemma FirstReplay(c: Case)
    requires Single(c)
    ensures ReplayDeadLetter(AfterDeadLetter(c), ReplayBody(c), Random(5), 1).Ok?
    ensures var r := ReplayDeadLetter(AfterDeadLetter(c), ReplayBody(c), Random(5), 1).value;
            && r.job.state.RetryScheduled? && r.job.attemptCount == 1 && r.job.maxAttempts == 1
            && r.job.deliveryUsedAt.None? && r.job.deliveryDigest == TokenDigest(Random(5))
            && r.job.workflowKey == c.route.workflowKey && r.job.workflowVersion == c.route.workflowVersion
            && r.job.expectedClient == c.route.client
  {
    FirstFailure(c);
    FirstClaim(c);
    hide AfterClaim, AfterFailure;
  }

  function AfterReplay(c: Case): Record requires Single(c) {
    FirstReplay(c);
    ReplayDeadLetter(AfterDeadLetter(c), ReplayBody(c), Random(5), 1).value
  }

  lemma SecondClaim(c: Case)
    requires Single(c)
    ensures var r := Claim(AfterReplay(c), KeyOf(c), Claims(c, Random(5), c.second), 1);
            r.1.Ok? && r.0.job.attemptCount == 2 && r.0.job.maxAttempts == 1
  {
    FirstReplay(c);
    hide ReplayDeadLetter, AfterDeadLetter;
  }

  // ---------------------------------------------------------------- the store along the run

  function ApprovalRecord(c: Case, state: ApprovalState, decidedBy: Option<Name>, version: int): Approval {
    Approval(ApprovalRequest(KeyOf(c).id, REPLAY, c.summary, 10), state, c.requester, decidedBy, version)
  }

  /** `n` tokens are drawn, the job is the only one, and these approvals are filed. */
  predicate At(y: System, c: Case, n: nat, r: Record, approvals: map<Key, Approval>) {
    |y.issued| == n && y.store.records == map[KeyOf(c) := r] && y.store.approvals == approvals
  }

  lemma EnqueueAt(c: Case)
    ensures At(Advance(START, Steps(c)[0]), c, 1, AfterEnqueue(c), map[])
  {
  }

  lemma ChangeAt(y: System, c: Case, n: nat, r: Record, approvals: map<Key, Approval>, step: Step, r': Record)
    requires At(y, c, n, r, approvals) && Target(step) == KeyOf(c)
    requires !step.RecordStep? && !step.ApprovalStep? && !step.DecideStep? && !step.ReadApprovalStep?
    requires Changes(y.store, step, Random(n)) == Some(r')
    ensures At(Advance(y, step), c, n + 1, r', approvals)
  {
    hide Changes, Apply;
    AutomationStore.ApplyChanged(y.store, step, Random(n), r');
  }

  lemma ApprovalAt(y: System, c: Case)
    requires Single(c) && At(y, c, 3, AfterDeadLetter(c), map[])
    ensures At(Advance(y, Steps(c)[3]), c, 4, AfterDeadLetter(c),
               map[Key(c.tenant, ApprovalOf(c)) := ApprovalRecord(c, ApprovalPending, None, 1)])
  {
    FirstFailure(c);
    hide AfterFailure, AfterClaim;
  }

  lemma DecideAt(y: System, c: Case, r: Record)
    requires Single(c)
    requires At(y, c, 4, r, map[Key(c.tenant, ApprovalOf(c)) := ApprovalRecord(c, ApprovalPending, None, 1)])
    ensures At(Advance(y, Steps(c)[4]), c, 5, r,
               map[Key(c.tenant, ApprovalOf(c)) := ApprovalRecord(c, AutomationJobs.Approved, Some(c.decider), 2)])
  {
    hide Changes;
    AutomationStore.ApplyToApprovals(y.store, Steps(c)[4], Random(4));
  }

  lemma ReplayAt(y: System, c: Case)
    requires Single(c)
    requires At(y, c, 5, AfterDeadLetter(c),
                map[Key(c.tenant, ApprovalOf(c)) := ApprovalRecord(c, AutomationJobs.Approved, Some(c.decider), 2)])
    ensures Changes(y.store, Steps(c)[5], Random(5)) == Some(AfterReplay(c))
  {
    FirstFailure(c);
    FirstReplay(c);
    hide AfterFailure, AfterClaim, ReplayDeadLetter;
  }

  lemma ClaimAt(y: System, c: Case, n: nat, r: Record, approvals: map<Key, Approval>, token: Name, execution: Name,
                at: Time)
    requires At(y, c, n, r, approvals)
    ensures At(Advance(y, ClaimStep(KeyOf(c), Claims(c, token, execution), at)), c, n + 1,
               Claim(r, KeyOf(c), Claims(c, token, execution), at).0, approvals)
  {
    hide Claim;
    ChangeAt(y, c, n, r, approvals, ClaimStep(KeyOf(c), Claims(c, token, execution), at),
             Claim(r, KeyOf(c), Claims(c, token, execution), at).0);
  }

  lemma FailAt(y: System, c: Case)
    requires Single(c) && At(y, c, 2, AfterClaim(c), map[])
    ensures At(Advance(y, Steps(c)[2]), c, 3, AfterDeadLetter(c), map[])
  {
    FirstFailure(c);
    hide Fail, AfterClaim;
    ChangeAt(y, c, 2, AfterClaim(c), map[], Steps(c)[2], AfterDeadLetter(c));
  }

  /** The system just before the replay. */
  lemma BeforeReplay(c: Case)
    requires Single(c)
    ensures At(Before(Steps(c), 5), c, 5, AfterDeadLetter(c),
               map[Key(c.tenant, ApprovalOf(c)) := ApprovalRecord(c, AutomationJobs.Approved, Some(c.decider), 2)])
  {
    hide Before, Advance, At, Run, AfterEnqueue, AfterDeadLetter, ApprovalRecord, ApprovalOf, KeyOf, LeaseOf, Claims,
      Failure, ReplayBody, Claim;
    var steps := Steps(c);
    BeforeFirst(steps);
    BeforeNext(steps, 0);
    BeforeNext(steps, 1);
    BeforeNext(steps, 2);
    BeforeNext(steps, 3);
    BeforeNext(steps, 4);
    EnqueueAt(c);
    ClaimAt(Before(steps, 1), c, 1, AfterEnqueue(c), map[], Random(0), c.first, 0);
    FailAt(Before(steps, 2), c);
    ApprovalAt(Before(steps, 3), c);
    DecideAt(Before(steps, 4), c, AfterDeadLetter(c));
  }

  lemma BeforeFirst(steps: seq<Step>)
    ensures Before(steps, 0) == START
  {
    assert steps[..0] == [];
  }

  lemma {:induction false} NoReplays(steps: seq<Step>, k: Key)
    requires forall i :: 0 <= i < |steps| ==> !steps[i].ReplayStep?
    ensures Replays(steps, k) == 0
  {
    hide Run;
    if steps != [] { NoReplays(steps[..|steps| - 1], k); }
  }

  lemma OneReplay(c: Case)
    requires Single(c)
    ensures Replays(Steps(c), KeyOf(c)) == 1
  {
    hide Run, Changes, AfterReplay, AfterDeadLetter, ApprovalRecord, ApprovalOf, LeaseOf, Claims, Failure, ReplayBody;
    var steps, k := Steps(c), KeyOf(c);
    BeforeReplay(c);
    ReplayAt(Before(steps, 5), c);
    NoReplays(steps[..5], k);
    assert steps[..6][..5] == steps[..5] && steps[..7] == steps && steps[..7][..6] == steps[..6];
    assert ReplayAccepted(Run(START, steps[..5]), steps[5], k);
    assert Replays(steps[..6], k) == 1;
  }

  /**
   The budget is reached: with one attempt allowed, a run that fails it, replays the dead letter and
   claims again ends with two attempts, which is the maximum plus the one accepted replay.
   */
  lemma BudgetIsReached(c: Case)
    requires Single(c)
    ensures var steps, k := Steps(c), KeyOf(c);
            && k in Run(START, steps).store.records && Replays(steps, k) == 1
            && var job := Run(START, steps).store.records[k].job;
               job.attemptCount == job.maxAttempts + Replays(steps, k) && job.attemptCount > job.maxAttempts
  {
    var steps, approvals := Steps(c), map[Key(c.tenant, ApprovalOf(c))
                                          := ApprovalRecord(c, AutomationJobs.Approved, Some(c.decider), 2)];
    OneReplay(c);
    BeforeReplay(c);
    BeforeNext(steps, 5);
    BeforeNext(steps, 6);
    assert steps[..7] == steps;
    ReplayAt(Before(steps, 5), c);
    SecondClaim(c);
    hide Advance, Run, Claim, Changes, AfterReplay, AfterDeadLetter, ApprovalRecord, Replays;
    ChangeAt(Before(steps, 5), c, 5, AfterDeadLetter(c), approvals, steps[5], AfterReplay(c));
    ClaimAt(Before(steps, 6), c, 6, AfterReplay(c), approvals, Random(5), c.second, 1);
  }
}
