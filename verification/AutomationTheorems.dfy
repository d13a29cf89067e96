/**
 What the automation job store keeps over whole runs: one execution per delivery token, lease
 generations, dead letters and the attempt budget.
 */
module AutomationTheorems {
  import opened Identities
  import opened AutomationJobs

  // ---------------------------------------------------------------- one job

  predicate Ended(s: JobState) { s.Completed? || s.FailedTerminal? || s.DeadLettered? }

  /** The dispatch carries the token the job expects, and is claimed exactly when the token was used. */
  predicate DispatchAgrees(r: Record) {
    && r.job.deliveryDigest == TokenDigest(r.dispatch.token)
    && (r.dispatch.claimed <==> r.job.deliveryUsedAt.Some?)
  }

  /** A lease exists only under the current token, for the execution that consumed it. */
  predicate LeaseAgrees(key: Key, r: Record) {
    && (r.job.leaseDigest.Some? <==> r.job.leaseExpiresAt.Some?)
    && (r.job.leaseDigest.Some? ==>
          && r.job.deliveryUsedAt.Some? && r.job.execution.Some? && r.job.leaseClient.Some?
          && r.job.leaseDigest.value
             == TokenDigest(LeaseToken(r.dispatch.token, key.id, r.job.execution.value, r.job.leaseClient.value)))
    && (r.job.deliveryUsedAt.Some? <==> r.job.execution.Some?)
    && (r.job.leaseClient.Some? ==> r.job.leaseClient.value == r.job.expectedClient)
    && (r.job.state.Pending? || r.job.state.RetryScheduled? ==> r.job.deliveryUsedAt.None?)
  }

  predicate TerminalAgrees(r: Record) {
    && (r.job.terminalKey.Some? <==> Ended(r.job.state))
    && (Ended(r.job.state) ==> r.job.leaseDigest.None? && r.job.deliveryUsedAt.Some?)
    && !r.job.state.Cancelled? && !r.job.state.Dispatching?
  }

  predicate DeadAgrees(key: Key, r: Record) {
    && (r.job.state.DeadLettered? <==> r.dead.Some? && r.dead.value.open)
    && (r.dead.Some? ==> r.dead.value.id == DeadLetterId(key.tenant, key.id) && r.dead.value.job == key.id)
    && (r.dead.Some? && r.dead.value.open ==> r.dead.value.resourceVersion == 1)
  }

  predicate RecordOk(key: Key, r: Record) {
    && r.job.id == key.id && r.job.tenant == key.tenant
    && DispatchAgrees(r) && LeaseAgrees(key, r) && TerminalAgrees(r) && DeadAgrees(key, r)
  }

  lemma NewRecordOk(key: Key, event: Name, correlationId: Name, route: Route, token: Name, now: Time)
    ensures RecordOk(key, NewRecord(key, event, correlationId, route, token, now))
  {
  }

  lemma ClaimOk(r: Record, key: Key, c: Claiming, now: Time)
    requires RecordOk(key, r)
    ensures RecordOk(key, Claim(r, key, c, now).0)
  {
  }

  lemma ReissuedOk(r: Record, key: Key, dead: Option<DeadLetter>, token: Name, now: Time)
    requires r.job.id == key.id && r.job.tenant == key.tenant
    requires dead.Some? ==>
               && dead.value.id == DeadLetterId(key.tenant, key.id) && dead.value.job == key.id && !dead.value.open
    ensures RecordOk(key, Reissued(r, token, now).(dead := dead))
  {
  }

  lemma FailOk(r: Record, key: Key, lease: Lease, k: Name, f: Failing, token: Name, now: Time)
    requires RecordOk(key, r) && Fail(r, key, lease, k, f, token, now).Changed?
    ensures RecordOk(key, Fail(r, key, lease, k, f, token, now).record)
  {
    hide FailState;
    var failed := r.(job := r.job.(resultCode := None, errorCode := Some(f.error)));
    if FailState(r.job, f.retryable, f.unknownOutcome).RetryScheduled? {
      ReissuedOk(failed, key, r.dead, token, now);
      assert Reissued(failed, token, now).(dead := r.dead) == Reissued(failed, token, now);
    } else {
      FailStateCases(r.job, f.retryable, f.unknownOutcome);
    }
  }

  lemma FailStateCases(job: Job, retryable: bool, unknownOutcome: bool)
    ensures var s := FailState(job, retryable, unknownOutcome);
            s.RetryScheduled? || s.DeadLettered? || s.FailedTerminal?
  {
  }

  lemma ReplayOk(r: Record, key: Key, body: Replaying, token: Name, now: Time)
    requires RecordOk(key, r) && r.dead.Some? && ReplayDeadLetter(r, body, token, now).Ok?
    ensures RecordOk(key, ReplayDeadLetter(r, body, token, now).value)
  {
    var dead := r.dead.value;
    ReissuedOk(r, key, Some(dead.(open := false, resourceVersion := dead.resourceVersion + 1, updatedAt := now)),
               token, now);
  }

  lemma ChangeOk(s: Store, step: Step, token: Name)
    requires Changes(s, step, token).Some?
    requires Target(step) in s.records ==> RecordOk(Target(step), s.records[Target(step)])
    ensures RecordOk(Target(step), Changes(s, step, token).value)
  {
    hide Claim, Fail, ReplayDeadLetter, NewRecord, ReplayAllowed;
    var key := Target(step);
    if key !in s.records {
      NewRecordOk(key, step.event, step.correlationId, step.route, token, step.at);
    } else {
      var r := s.records[key];
      match step
      case ClaimStep(_, c, at) => ClaimOk(r, key, c, at);
      case FailStep(_, lease, k, f, at) => FailOk(r, key, lease, k, f, token, at);
      case ReplayStep(_, _, _, body, _, at) =>
        AllowedHasDead(s, step);
        ReplayOk(r, key, body, token, at);
      case _ =>
    }
  }

  lemma AllowedHasDead(s: Store, step: Step)
    requires step.ReplayStep? && ReplayAllowed(s, step)
    ensures Target(step) in s.records && s.records[Target(step)].dead.Some?
  {
  }

  // ---------------------------------------------------------------- generations

  /** The generation of a job is the number of the delivery token it was last issued. */
  function Generation(r: Record): int { if r.dispatch.token.Random? then r.dispatch.token.n else -1 }

  predicate TokenOwned(issued: seq<Key>, key: Key, r: Record) {
    r.dispatch.token.Random? && 0 <= r.dispatch.token.n < |issued| && issued[r.dispatch.token.n] == key
  }

  ghost predicate Inv(y: System) {
    forall k :: k in y.store.records ==> RecordOk(k, y.store.records[k]) && TokenOwned(y.issued, k, y.store.records[k])
  }

  /** A step that gives the job a new delivery token: an accepted retryable fail or a replay. */
  predicate Reissues(s: Store, step: Step, token: Name) {
    var key := Target(step);
    && key in s.records
    && Changes(s, step, token).Some?
    && ((step.FailStep? && Changes(s, step, token).value.job.state.RetryScheduled?) || step.ReplayStep?)
  }

  /** What a step that is no reissue leaves as it was once the delivery token has been used. */
  predicate SameGeneration(r: Record, r': Record) {
    && r'.dispatch.token == r.dispatch.token
    && (r.job.deliveryUsedAt.Some? ==> r'.job.deliveryUsedAt.Some? && r'.job.execution == r.job.execution)
  }

  lemma ChangeGeneration(s: Store, step: Step, token: Name)
    requires Target(step) in s.records && Changes(s, step, token).Some?
    requires RecordOk(Target(step), s.records[Target(step)])
    ensures var r, r' := s.records[Target(step)], Changes(s, step, token).value;
            && (Reissues(s, step, token) ==> r'.dispatch.token == token)
            && (!Reissues(s, step, token) ==> SameGeneration(r, r'))
  {
    hide ReplayAllowed, DeadLetterFor, NewRecord;
    var r := s.records[Target(step)];
    if step.FailStep? { FailStateCases(r.job, step.failing.retryable, step.failing.unknownOutcome); }
    if step.ReplayStep? { AllowedHasDead(s, step); }
  }

  lemma StepKeeps(y: System, step: Step)
    requires Inv(y)
    ensures Inv(Advance(y, step))
  {
    hide Changes, RecordOk, Reissues, StepsAfter, ApprovalsAfter, Target, SameGeneration;
    var token := Random(|y.issued|);
    var key := Target(step);
    if Changes(y.store, step, token).Some? {
      ChangeOk(y.store, step, token);
      if key in y.store.records {
        ChangeGeneration(y.store, step, token);
        SameToken(y.store.records[key], Changes(y.store, step, token).value);
      } else {
        FirstToken(y.store, step, token);
      }
    }
  }

  lemma SameToken(r: Record, r': Record)
    ensures SameGeneration(r, r') ==> r'.dispatch.token == r.dispatch.token
  {
  }

  lemma FirstToken(s: Store, step: Step, token: Name)
    requires Target(step) !in s.records && Changes(s, step, token).Some?
    ensures Changes(s, step, token).value.dispatch.token == token
  {
  }

  lemma {:induction false} RunKeeps(y: System, steps: seq<Step>)
    requires Inv(y)
    ensures Inv(Run(y, steps))
  {
    hide Inv, Advance;
    if steps != [] {
      RunKeeps(y, steps[..|steps| - 1]);
      StepKeeps(Run(y, steps[..|steps| - 1]), steps[|steps| - 1]);
    }
  }

  /** Jobs are never removed and generations never go back. */
  lemma StepAdvances(y: System, step: Step, k: Key)
    requires Inv(y) && k in y.store.records
    ensures k in Advance(y, step).store.records
    ensures Generation(y.store.records[k]) <= Generation(Advance(y, step).store.records[k])
    ensures Generation(y.store.records[k]) == Generation(Advance(y, step).store.records[k])
            ==> SameGeneration(y.store.records[k], Advance(y, step).store.records[k])
    ensures y.issued <= Advance(y, step).issued
  {
    hide Changes, RecordOk, Reissues, StepsAfter, ApprovalsAfter, Target;
    var token := Random(|y.issued|);
    if Target(step) == k && Changes(y.store, step, token).Some? {
      ChangeGeneration(y.store, step, token);
    }
  }

  lemma {:induction false} RunAdvances(y: System, steps: seq<Step>, k: Key)
    requires Inv(y) && k in y.store.records
    ensures k in Run(y, steps).store.records
    ensures Generation(y.store.records[k]) <= Generation(Run(y, steps).store.records[k])
    ensures Generation(y.store.records[k]) == Generation(Run(y, steps).store.records[k])
            ==> SameGeneration(y.store.records[k], Run(y, steps).store.records[k])
    ensures y.issued <= Run(y, steps).issued
  {
    hide Inv, Advance, Generation;
    if steps != [] {
      RunKeeps(y, steps[..|steps| - 1]);
      RunAdvances(y, steps[..|steps| - 1], k);
      StepAdvances(Run(y, steps[..|steps| - 1]), steps[|steps| - 1], k);
    }
  }

  // ---------------------------------------------------------------- runs from the empty store

  /** The system just before the i-th step of a run. */
  function Before(steps: seq<Step>, i: int): System requires 0 <= i <= |steps| { Run(START, steps[..i]) }

  lemma Reachable(steps: seq<Step>, i: int)
    requires 0 <= i <= |steps|
    ensures Inv(Before(steps, i))
  {
    assert Inv(START);
    RunKeeps(START, steps[..i]);
  }

  lemma BeforeNext(steps: seq<Step>, i: int)
    requires 0 <= i < |steps|
    ensures Before(steps, i + 1) == Advance(Before(steps, i), steps[i])
  {
    assert steps[..i + 1][..i] == steps[..i];
  }

  lemma {:induction false} BeforeAdvances(steps: seq<Step>, i: int, j: int, k: Key)
    requires 0 <= i <= j <= |steps| && k in Before(steps, i).store.records
    ensures k in Before(steps, j).store.records
    ensures Generation(Before(steps, i).store.records[k]) <= Generation(Before(steps, j).store.records[k])
    ensures Generation(Before(steps, i).store.records[k]) == Generation(Before(steps, j).store.records[k])
            ==> SameGeneration(Before(steps, i).store.records[k], Before(steps, j).store.records[k])
    ensures Before(steps, i).issued <= Before(steps, j).issued
    decreases j - i
  {
    hide Before, Advance, Generation, Inv;
    if i < j {
      Reachable(steps, j - 1);
      BeforeAdvances(steps, i, j - 1, k);
      StepAdvances(Before(steps, j - 1), steps[j - 1], k);
      BeforeNext(steps, j - 1);
    }
  }

  /**
   In every reachable store: the dispatch of a job carries its token and is claimed exactly when the
   token was used; a job is dead-lettered exactly when its dead letter is open; a terminal key exists
   exactly in the three terminal states.
   */
  lemma JobAgreement(steps: seq<Step>, k: Key)
    requires k in Run(START, steps).store.records
    ensures var r := Run(START, steps).store.records[k];
            && r.job.deliveryDigest == TokenDigest(r.dispatch.token)
            && (r.dispatch.claimed <==> r.job.deliveryUsedAt.Some?)
            && (r.job.state.DeadLettered? <==> r.dead.Some? && r.dead.value.open)
            && (r.job.terminalKey.Some? <==>
                  (r.job.state.Completed? || r.job.state.FailedTerminal? || r.job.state.DeadLettered?))
  {
    assert Inv(START);
    RunKeeps(START, steps);
  }

  // ---------------------------------------------------------------- one execution per token

  predicate ClaimAccepted(s: Store, step: Step) {
    step.ClaimStep? && step.key in s.records && Claim(s.records[step.key], step.key, step.claiming, step.at).1.Ok?
  }

  lemma ClaimPins(y: System, step: Step)
    requires Inv(y) && ClaimAccepted(y.store, step)
    ensures y.store.records[step.key].dispatch.token == step.claiming.delivery
    ensures TokenOwned(y.issued, step.key, y.store.records[step.key])
    ensures y.store.records[step.key].job.deliveryUsedAt.Some? ==>
              y.store.records[step.key].job.execution == Some(step.claiming.execution)
    ensures var r := Claim(y.store.records[step.key], step.key, step.claiming, step.at).0;
            r.dispatch.token == step.claiming.delivery
            && r.job.deliveryUsedAt.Some? && r.job.execution == Some(step.claiming.execution)
  {
  }

  lemma ClaimAdvances(y: System, step: Step)
    requires ClaimAccepted(y.store, step)
    ensures step.key in Advance(y, step).store.records
    ensures Advance(y, step).store.records[step.key]
         == Claim(y.store.records[step.key], step.key, step.claiming, step.at).0
    ensures y.issued <= Advance(y, step).issued
  {
  }

  /** Two accepted claims with one delivery token are for one job and one execution. */
  lemma OneExecutionPerToken(steps: seq<Step>, i: int, j: int)
    requires 0 <= i < j < |steps|
    requires ClaimAccepted(Before(steps, i).store, steps[i]) && ClaimAccepted(Before(steps, j).store, steps[j])
    requires steps[i].claiming.delivery == steps[j].claiming.delivery
    ensures steps[i].key == steps[j].key && steps[i].claiming.execution == steps[j].claiming.execution
  {
    assert steps[i].ClaimStep? && steps[j].ClaimStep?;
    hide Before, Advance, Inv, ClaimAccepted, Claim;
    Reachable(steps, i);
    Reachable(steps, j);
    var y, z := Before(steps, i), Before(steps, j);
    ClaimPins(y, steps[i]);
    ClaimPins(z, steps[j]);
    ClaimAdvances(y, steps[i]);
    BeforeNext(steps, i);
    BeforeAdvances(steps, i + 1, j, steps[i].key);
    var n := steps[i].claiming.delivery.n;
    assert y.issued[n] == Before(steps, i + 1).issued[n] == z.issued[n];
  }

  // ---------------------------------------------------------------- lease generations

  /** The execution on whose behalf a step took effect on job `k` under a lease. */
  function LeaseOperation(s: Store, step: Step, k: Key): Option<Name> {
    if Target(step) != k || k !in s.records then None
    else
      var r := s.records[k];
      match step
      case ClaimStep(_, c, at) => if Claim(r, k, c, at).1.Ok? then Some(c.execution) else None
      case HeartbeatStep(_, lease, at) => if ActiveLease(r.job, lease, at) then Some(lease.execution) else None
      case RecordStep(_, lease, _, _, at) => if ActiveLease(r.job, lease, at) then Some(lease.execution) else None
      case CompleteStep(_, lease, key, result, safeResult, at) =>
        if Complete(r, lease, key, result, safeResult, at).Changed? then Some(lease.execution) else None
      case FailStep(_, lease, key, f, at) =>
        if Fail(r, k, lease, key, f, Random(0), at).Changed? then Some(lease.execution) else None
      case _ => None
  }

  predicate HeldBy(r: Record, execution: Name) {
    r.job.deliveryUsedAt.Some? && r.job.execution == Some(execution)
  }

  lemma HeldStep(y: System, step: Step, k: Key, execution: Name)
    requires Inv(y) && k in y.store.records && HeldBy(y.store.records[k], execution)
    requires !(Target(step) == k && Reissues(y.store, step, Random(|y.issued|)))
    ensures k in Advance(y, step).store.records && HeldBy(Advance(y, step).store.records[k], execution)
  {
    hide Changes, RecordOk, Reissues, StepsAfter, ApprovalsAfter, Target;
    if Target(step) == k && Changes(y.store, step, Random(|y.issued|)).Some? {
      ChangeGeneration(y.store, step, Random(|y.issued|));
    }
  }

  lemma OperationFromHolder(y: System, step: Step, k: Key)
    requires Inv(y) && LeaseOperation(y.store, step, k).Some? && !step.ClaimStep?
    ensures HeldBy(y.store.records[k], LeaseOperation(y.store, step, k).value)
  {
    hide DeadLetterFor, NewRecord, FailState, Closed, Reissued;
    assert RecordOk(k, y.store.records[k]);
  }

  lemma OperationHolds(y: System, step: Step, k: Key)
    requires Inv(y) && LeaseOperation(y.store, step, k).Some?
    requires !(Target(step) == k && Reissues(y.store, step, Random(|y.issued|)))
    ensures k in Advance(y, step).store.records
    ensures HeldBy(Advance(y, step).store.records[k], LeaseOperation(y.store, step, k).value)
  {
    hide Advance, Inv, Reissues, Claim;
    if step.ClaimStep? {
      ClaimPins(y, step);
      ClaimAdvances(y, step);
    } else {
      OperationFromHolder(y, step, k);
      HeldStep(y, step, k, LeaseOperation(y.store, step, k).value);
    }
  }

  lemma OperationByHolder(y: System, step: Step, k: Key, execution: Name)
    requires Inv(y) && LeaseOperation(y.store, step, k).Some?
    requires HeldBy(y.store.records[k], execution)
    ensures LeaseOperation(y.store, step, k) == Some(execution)
  {
    hide NewRecord, FailState, DeadLetterFor, Closed, Reissued;
    assert RecordOk(k, y.store.records[k]);
  }

  ghost predicate ReissuedAt(steps: seq<Step>, m: int, k: Key) requires 0 <= m < |steps| {
    Target(steps[m]) == k && Reissues(Before(steps, m).store, steps[m], Random(|Before(steps, m).issued|))
  }

  lemma {:induction false} StillHeld(steps: seq<Step>, i: int, j: int, k: Key, execution: Name)
    requires 0 <= i < j <= |steps|
    requires LeaseOperation(Before(steps, i).store, steps[i], k) == Some(execution)
    requires forall m :: i <= m < j ==> !ReissuedAt(steps, m, k)
    ensures k in Before(steps, j).store.records && HeldBy(Before(steps, j).store.records[k], execution)
    decreases j
  {
    hide Before, Advance, Inv, LeaseOperation, Reissues;
    Reachable(steps, j - 1);
    BeforeNext(steps, j - 1);
    assert !ReissuedAt(steps, j - 1, k);
    if j == i + 1 {
      OperationHolds(Before(steps, i), steps[i], k);
    } else {
      StillHeld(steps, i, j - 1, k, execution);
      HeldStep(Before(steps, j - 1), steps[j - 1], k, execution);
    }
  }

  /**
   Between lease operations that took effect on one job for two different executions there is an
   accepted retryable fail or an accepted dead-letter replay of that job.
   */
  lemma ReissueBetweenExecutions(steps: seq<Step>, i: int, j: int, k: Key)
    requires 0 <= i < j < |steps|
    requires LeaseOperation(Before(steps, i).store, steps[i], k).Some?
    requires LeaseOperation(Before(steps, j).store, steps[j], k).Some?
    requires LeaseOperation(Before(steps, i).store, steps[i], k) != LeaseOperation(Before(steps, j).store, steps[j], k)
    ensures exists m :: i <= m < j && ReissuedAt(steps, m, k)
  {
    hide Before, Advance, Inv, LeaseOperation, Reissues;
    if forall m :: i <= m < j ==> !ReissuedAt(steps, m, k) {
      var execution := LeaseOperation(Before(steps, i).store, steps[i], k).value;
      StillHeld(steps, i, j, k, execution);
      Reachable(steps, j);
      OperationByHolder(Before(steps, j), steps[j], k, execution);
    }
  }

  /**
   However the run goes on, a lease token derived from an older generation's delivery token never
   again passes for an active lease, so its holder cannot heartbeat, record, complete or fail.
   */
  lemma OldGenerationIsLockedOut(y: System, later: seq<Step>, k: Key, lease: Lease, now: Time)
    requires Inv(y) && k in y.store.records
    requires lease.token.LeaseToken? && lease.token.delivery.Random?
    requires lease.token.delivery.n < Generation(y.store.records[k])
    ensures k in Run(y, later).store.records
    ensures !ActiveLease(Run(y, later).store.records[k].job, lease, now)
  {
    hide Run, LeaseOperation;
    RunKeeps(y, later);
    RunAdvances(y, later, k);
    var r := Run(y, later).store.records[k];
    assert RecordOk(k, r);
  }

  // ---------------------------------------------------------------- expiry

  function TimeOf(step: Step): Time { step.at }

  /** Nothing about the lease, the token or the attempts has moved. */
  predicate Stuck(r: Record, r': Record) {
    && r'.dispatch == r.dispatch && r'.dead == r.dead
    && r'.job.leaseDigest == r.job.leaseDigest && r'.job.leaseExpiresAt == r.job.leaseExpiresAt
    && r'.job.execution == r.job.execution && r'.job.leaseClient == r.job.leaseClient
    && r'.job.deliveryUsedAt == r.job.deliveryUsedAt && r'.job.deliveryDigest == r.job.deliveryDigest
    && r'.job.attemptCount == r.job.attemptCount && r'.job.terminalKey == r.job.terminalKey
  }

  lemma ExpiredStep(s: Store, step: Step, token: Name, t: Time)
    requires Target(step) in s.records && Changes(s, step, token).Some?
    requires RecordOk(Target(step), s.records[Target(step)]) && LeaseExpired(s.records[Target(step)].job, t)
    requires TimeOf(step) >= t
    ensures Stuck(s.records[Target(step)], Changes(s, step, token).value)
  {
    hide DeadLetterFor, NewRecord, Reissued, Closed, FailState;
    if step.ReplayStep? { AllowedHasDead(s, step); }
  }

  /**
   Once a lease has expired it is never revived: in every continuation whose clock does not run
   backwards, the lease, token, execution and attempts of the job stay as they are and no lease of
   anyone on that job is active again.
   */
  lemma {:induction false} ExpiredLeaseIsDead(y: System, later: seq<Step>, k: Key, t: Time)
    requires Inv(y) && k in y.store.records && LeaseExpired(y.store.records[k].job, t)
    requires forall i :: 0 <= i < |later| ==> TimeOf(later[i]) >= t
    ensures k in Run(y, later).store.records && Stuck(y.store.records[k], Run(y, later).store.records[k])
    ensures forall lease, now :: now >= t ==> !ActiveLease(Run(y, later).store.records[k].job, lease, now)
  {
    hide Inv, Changes, RecordOk, StepsAfter, ApprovalsAfter, Target;
    if later != [] {
      var n := |later| - 1;
      ExpiredLeaseIsDead(y, later[..n], k, t);
      RunKeeps(y, later[..n]);
      var z := Run(y, later[..n]);
      ExpiredAdvance(z, later[n], k, t);
    }
  }

  lemma ExpiredAdvance(z: System, step: Step, k: Key, t: Time)
    requires Inv(z) && k in z.store.records && LeaseExpired(z.store.records[k].job, t) && TimeOf(step) >= t
    ensures k in Advance(z, step).store.records && Stuck(z.store.records[k], Advance(z, step).store.records[k])
  {
    hide Changes, RecordOk, StepsAfter, ApprovalsAfter, Target;
    if Target(step) == k && Changes(z.store, step, Random(|z.issued|)).Some? {
      ExpiredStep(z.store, step, Random(|z.issued|), t);
    }
  }

  // ---------------------------------------------------------------- finality and the attempt budget

  lemma FinalChange(s: Store, step: Step, token: Name)
    requires Target(step) in s.records && Changes(s, step, token).Some?
    requires RecordOk(Target(step), s.records[Target(step)])
    requires var st := s.records[Target(step)].job.state; st.Completed? || st.FailedTerminal?
    ensures Changes(s, step, token).value == s.records[Target(step)]
  {
    hide DeadLetterFor, NewRecord, Reissued, Closed, FailState;
    if step.ReplayStep? { AllowedHasDead(s, step); }
  }

  /** COMPLETED and FAILED_TERMINAL jobs, with their dispatch and dead letter, never change again. */
  lemma {:induction false} FinalJobIsFinal(y: System, later: seq<Step>, k: Key)
    requires Inv(y) && k in y.store.records
    requires var st := y.store.records[k].job.state; st.Completed? || st.FailedTerminal?
    ensures k in Run(y, later).store.records && Run(y, later).store.records[k] == y.store.records[k]
  {
    hide Inv, Changes, RecordOk, StepsAfter, ApprovalsAfter, Target;
    if later != [] {
      var n := |later| - 1;
      FinalJobIsFinal(y, later[..n], k);
      RunKeeps(y, later[..n]);
      var z := Run(y, later[..n]);
      FinalAdvance(z, later[n], k);
    }
  }

  lemma FinalAdvance(z: System, step: Step, k: Key)
    requires Inv(z) && k in z.store.records
    requires var st := z.store.records[k].job.state; st.Completed? || st.FailedTerminal?
    ensures k in Advance(z, step).store.records && Advance(z, step).store.records[k] == z.store.records[k]
  {
    hide Changes, RecordOk, StepsAfter, ApprovalsAfter, Target;
    if Target(step) == k && Changes(z.store, step, Random(|z.issued|)).Some? {
      FinalChange(z.store, step, Random(|z.issued|));
    }
  }

  predicate ReplayAccepted(y: System, step: Step, k: Key) {
    step.ReplayStep? && Target(step) == k && Changes(y.store, step, Random(|y.issued|)).Some?
  }

  /** Accepted dead-letter replays of job `k` along a run. */
  function Replays(steps: seq<Step>, k: Key): nat {
    if steps == [] then 0
    else
      var n := |steps| - 1;
      Replays(steps[..n], k) + if ReplayAccepted(Run(START, steps[..n]), steps[n], k) then 1 else 0
  }

  /** Attempts spent, and one still to spend while the delivery token is unused. */
  predicate WithinBudget(job: Job, replays: int) {
    job.attemptCount + (if job.deliveryUsedAt.None? then 1 else 0) <= job.maxAttempts + replays
  }

  lemma BudgetChange(s: Store, step: Step, token: Name, replays: int)
    requires Target(step) in s.records && Changes(s, step, token).Some?
    requires RecordOk(Target(step), s.records[Target(step)])
    requires replays >= 0 && WithinBudget(s.records[Target(step)].job, replays)
    ensures WithinBudget(Changes(s, step, token).value.job, replays + if step.ReplayStep? then 1 else 0)
  {
    hide DeadLetterFor, NewRecord;
    if step.ReplayStep? { AllowedHasDead(s, step); }
  }

  /** A job is attempted at most `max_attempts` times plus once per accepted replay. */
  lemma {:induction false} AttemptBudget(steps: seq<Step>, k: Key)
    requires forall i :: 0 <= i < |steps| && steps[i].EnqueueStep? ==> steps[i].route.maxAttempts >= 1
    requires k in Run(START, steps).store.records
    ensures var job := Run(START, steps).store.records[k].job;
            WithinBudget(job, Replays(steps, k)) && job.attemptCount <= job.maxAttempts + Replays(steps, k)
  {
    hide Changes, RecordOk, StepsAfter, ApprovalsAfter, Target, Inv;
    if steps != [] {
      var n := |steps| - 1;
      var y := Run(START, steps[..n]);
      var token := Random(|y.issued|);
      assert Inv(START) by { StartInv(); }
      RunKeeps(START, steps[..n]);
      if k in y.store.records {
        AttemptBudget(steps[..n], k);
        if Target(steps[n]) == k && Changes(y.store, steps[n], token).Some? {
          InvAt(y, k);
          BudgetChange(y.store, steps[n], token, Replays(steps[..n], k));
        }
      } else {
        NewBudget(y.store, steps[n], token);
      }
    }
  }

  lemma StartInv() ensures Inv(START) { }

  lemma InvAt(y: System, k: Key)
    requires Inv(y) && k in y.store.records
    ensures RecordOk(k, y.store.records[k])
  {
  }

  lemma NewBudget(s: Store, step: Step, token: Name)
    requires Target(step) !in s.records && Changes(s, step, token).Some?
    requires step.EnqueueStep? ==> step.route.maxAttempts >= 1
    ensures WithinBudget(Changes(s, step, token).value.job, 0)
  {
  }
}
