/**
 The automation job state machine (`MemoryAutomationStore` in app/automation_v2.py) as a value:
 single-use delivery tokens, leases, retries, dead letters, approved replay.
 */
module AutomationJobs {
  import opened Identities

  const LEASE_SECONDS := 60

  // ---------------------------------------------------------------- data

  datatype JobState =
    | Pending | Dispatching | Claimed | Running | WaitingApproval | WaitingTimer | WaitingCommand
    | RetryScheduled | Completed | FailedTerminal | DeadLettered | Cancelled

  /** The content digests that make a terminal request recognisable. */
  datatype TerminalRequest =
    | CompleteRequest(execution: Name, result: Name, safeResult: Name)
    | FailRequest(execution: Name, error: Name, retryable: bool, unknownOutcome: bool, safeError: Name)

  datatype Job = Job(
    id: Name, tenant: Name, event: Name, correlationId: Name,
    workflowKey: Name, workflowFamily: Name, workflowVersion: int, expectedClient: Name,
    state: JobState,
    deliveryDigest: Name, deliveryUsedAt: Option<Time>,
    leaseDigest: Option<Name>, leaseClient: Option<Name>, execution: Option<Name>, leaseExpiresAt: Option<Time>,
    attemptCount: int, maxAttempts: int,
    resultCode: Option<Name>, errorCode: Option<Name>,
    terminalKey: Option<Name>, terminalRequest: Option<TerminalRequest>,
    resourceVersion: int, createdAt: Time, updatedAt: Time)

  datatype Dispatch = Dispatch(token: Name, workflowKey: Name, workflowVersion: int, correlationId: Name, claimed: bool)

  datatype Fingerprint = Fingerprint(tenant: Name, job: Name, workflowKey: Name, error: Name)

  datatype DeadLetter = DeadLetter(
    id: Name, tenant: Name, job: Name, fingerprint: Fingerprint, unknownOutcome: bool,
    open: bool, resourceVersion: int, createdAt: Time, updatedAt: Time)

  datatype ApprovalState = ApprovalPending | Approved | ApprovalExpired

  datatype ApprovalRequest = ApprovalRequest(job: Name, kind: Name, summary: Name, expiresAt: Time)

  datatype Approval = Approval(
    request: ApprovalRequest, state: ApprovalState, requestedBy: Name, decidedBy: Option<Name>, resourceVersion: int)

  datatype Key = Key(tenant: Name, id: Name)

  datatype Route = Route(workflowKey: Name, workflowFamily: Name, workflowVersion: int, client: Name, maxAttempts: int)

  datatype Lease = Lease(token: Name, execution: Name, client: Name)

  datatype Refusal = NotFound | Conflict | Denied

  /** What the store keeps for one job. */
  datatype Record = Record(job: Job, dispatch: Dispatch, dead: Option<DeadLetter>)

  // ---------------------------------------------------------------- one job

  function NewDispatch(job: Job, token: Name): Dispatch {
    Dispatch(token, job.workflowKey, job.workflowVersion, job.correlationId, false)
  }

  function NewRecord(key: Key, event: Name, correlationId: Name, route: Route, token: Name, now: Time): Record {
    var job := Job(key.id, key.tenant, event, correlationId, route.workflowKey, route.workflowFamily,
                   route.workflowVersion, route.client, Pending, TokenDigest(token), None, None, None, None, None,
                   0, route.maxAttempts, None, None, None, None, 1, now, now);
    Record(job, NewDispatch(job, token), None)
  }

  predicate Leasable(s: JobState) {
    s.Claimed? || s.Running? || s.WaitingApproval? || s.WaitingTimer? || s.WaitingCommand?
  }

  predicate ActiveLease(job: Job, lease: Lease, now: Time) {
    && job.leaseDigest == Some(TokenDigest(lease.token))
    && job.execution == Some(lease.execution)
    && job.leaseClient == Some(lease.client)
    && job.leaseExpiresAt.Some? && job.leaseExpiresAt.value > now
    && Leasable(job.state)
  }

  /** The job holds a lease that has run out. */
  predicate LeaseExpired(job: Job, now: Time) { job.leaseExpiresAt.Some? && job.leaseExpiresAt.value <= now }

  datatype Claiming = Claiming(workflowKey: Name, workflowVersion: int, delivery: Name, execution: Name, client: Name)

  datatype Granted = Granted(leaseToken: Name, expiresAt: Time, duplicate: bool)

  function ClaimToken(key: Key, c: Claiming): Name { LeaseToken(c.delivery, key.id, c.execution, c.client) }

  predicate RepeatsClaim(job: Job, key: Key, c: Claiming, now: Time) {
    && job.execution == Some(c.execution) && job.leaseClient == Some(c.client)
    && job.leaseExpiresAt.Some? && job.leaseExpiresAt.value > now
    && job.leaseDigest == Some(TokenDigest(ClaimToken(key, c)))
  }

  function Claim(r: Record, key: Key, c: Claiming, now: Time): (Record, Result<Granted, Refusal>) {
    var job := r.job;
    if job.workflowKey != c.workflowKey || job.workflowVersion != c.workflowVersion then (r, Err(Conflict))
    else if job.expectedClient != c.client then (r, Err(Denied))
    else if job.deliveryDigest != TokenDigest(c.delivery) then (r, Err(Denied))
    else if job.deliveryUsedAt.Some? then
      if RepeatsClaim(job, key, c, now) then (r, Ok(Granted(ClaimToken(key, c), job.leaseExpiresAt.value, true)))
      else (r, Err(Conflict))
    else if !job.state.Pending? && !job.state.RetryScheduled? then (r, Err(Conflict))
    else
      (r.(job := job.(deliveryUsedAt := Some(now), leaseDigest := Some(TokenDigest(ClaimToken(key, c))),
                      leaseClient := Some(c.client), execution := Some(c.execution),
                      leaseExpiresAt := Some(now + LEASE_SECONDS), attemptCount := job.attemptCount + 1,
                      state := Claimed, resourceVersion := job.resourceVersion + 1, updatedAt := now),
          dispatch := r.dispatch.(claimed := true)),
       Ok(Granted(ClaimToken(key, c), now + LEASE_SECONDS, false)))
  }

  function Heartbeat(r: Record, lease: Lease, now: Time): Result<Record, Refusal> {
    if !ActiveLease(r.job, lease, now) then Err(Conflict)
    else Ok(r.(job := r.job.(leaseExpiresAt := Some(now + LEASE_SECONDS), state := Running,
                             resourceVersion := r.job.resourceVersion + 1, updatedAt := now)))
  }

  /** The job after a step was newly recorded under an active lease. */
  function Stepped(r: Record, now: Time): Record {
    r.(job := r.job.(state := Running, resourceVersion := r.job.resourceVersion + 1, updatedAt := now))
  }

  datatype Terminal<T> = Replayed | Changed(record: T) | Refused(refusal: Refusal)

  /** None: no terminal request is recorded yet. */
  function TerminalReplay(job: Job, idempotencyKey: Name, request: TerminalRequest): Option<Terminal<Record>> {
    if job.terminalKey.None? then None
    else if job.terminalKey == Some(idempotencyKey) && job.terminalRequest == Some(request) then Some(Replayed)
    else Some(Refused(Conflict))
  }

  function Closed(job: Job, state: JobState, idempotencyKey: Name, request: TerminalRequest, now: Time): Job {
    job.(state := state, terminalKey := Some(idempotencyKey), terminalRequest := Some(request),
         leaseExpiresAt := None, leaseDigest := None, resourceVersion := job.resourceVersion + 1, updatedAt := now)
  }

  function Complete(r: Record, lease: Lease, idempotencyKey: Name, result: Name, safeResult: Name, now: Time)
    : Terminal<Record>
  {
    var request := CompleteRequest(lease.execution, result, safeResult);
    var replay := TerminalReplay(r.job, idempotencyKey, request);
    if replay.Some? then replay.value
    else if !ActiveLease(r.job, lease, now) then Refused(Conflict)
    else Changed(r.(job := Closed(r.job, Completed, idempotencyKey, request, now)
                           .(resultCode := Some(result), errorCode := None)))
  }

  /** Reissue: a new delivery token, no lease, no execution, no terminal request. */
  function Reissued(r: Record, token: Name, now: Time): Record {
    var job := r.job.(state := RetryScheduled, deliveryDigest := TokenDigest(token), deliveryUsedAt := None,
                      leaseDigest := None, leaseClient := None, execution := None, leaseExpiresAt := None,
                      terminalKey := None, terminalRequest := None,
                      resourceVersion := r.job.resourceVersion + 1, updatedAt := now);
    r.(job := job, dispatch := NewDispatch(job, token))
  }

  function DeadLetterFor(key: Key, job: Job, error: Name, unknownOutcome: bool, now: Time): DeadLetter {
    DeadLetter(DeadLetterId(key.tenant, key.id), key.tenant, key.id,
               Fingerprint(key.tenant, key.id, job.workflowKey, error), unknownOutcome, true, 1, now, now)
  }

  function FailState(job: Job, retryable: bool, unknownOutcome: bool): JobState {
    if unknownOutcome then DeadLettered
    else if retryable && job.attemptCount < job.maxAttempts then RetryScheduled
    else if job.attemptCount >= job.maxAttempts then DeadLettered
    else FailedTerminal
  }

  datatype Failing = Failing(error: Name, retryable: bool, unknownOutcome: bool, safeError: Name)

  function Fail(r: Record, key: Key, lease: Lease, idempotencyKey: Name, f: Failing, token: Name, now: Time)
    : Terminal<Record>
  {
    var request := FailRequest(lease.execution, f.error, f.retryable, f.unknownOutcome, f.safeError);
    var replay := TerminalReplay(r.job, idempotencyKey, request);
    if replay.Some? then replay.value
    else if !ActiveLease(r.job, lease, now) then Refused(Conflict)
    else
      var state := FailState(r.job, f.retryable, f.unknownOutcome);
      var failed := r.(job := r.job.(resultCode := None, errorCode := Some(f.error)));
      if state.RetryScheduled? then Changed(Reissued(failed, token, now))
      else
        var closed := failed.(job := Closed(failed.job, state, idempotencyKey, request, now));
        Changed(if state.DeadLettered?
                then closed.(dead := Some(DeadLetterFor(key, r.job, f.error, f.unknownOutcome, now)))
                else closed)
  }

  predicate Settled(s: JobState) { s.Completed? || s.Cancelled? || s.FailedTerminal? || s.DeadLettered? }

  function AwaitApproval(r: Record, now: Time): Record {
    if Settled(r.job.state) then r
    else r.(job := r.job.(state := WaitingApproval, resourceVersion := r.job.resourceVersion + 1, updatedAt := now))
  }

  datatype Replaying = Replaying(expectedVersion: int, fingerprint: Fingerprint)

  predicate ApprovesReplay(a: Approval, job: Name, replayKind: Name, now: Time) {
    && a.request.job == job && a.request.kind == replayKind && a.state.Approved?
    && a.decidedBy.Some? && a.decidedBy.value != a.requestedBy && a.request.expiresAt > now
  }

  function ReplayDeadLetter(r: Record, body: Replaying, token: Name, now: Time): Result<Record, Refusal>
    requires r.dead.Some?
  {
    var dead := r.dead.value;
    if dead.resourceVersion != body.expectedVersion || dead.fingerprint != body.fingerprint || !dead.open
    then Err(Conflict)
    else Ok(Reissued(r, token, now).(dead := Some(dead.(open := false, resourceVersion := dead.resourceVersion + 1,
                                                        updatedAt := now))))
  }

  // ---------------------------------------------------------------- the store

  datatype StepKey = StepKey(tenant: Name, job: Name, key: Name)
  datatype StepContent = StepContent(execution: Name, stepKey: Name, stepState: Name, recordedAt: Time, metadata: Name)
  datatype StepEvidence = StepEvidence(id: int, content: StepContent)

  datatype Store = Store(
    records: map<Key, Record>,
    steps: map<StepKey, StepEvidence>,
    approvals: map<Key, Approval>)

  const EMPTY := Store(map[], map[], map[])

  const REPLAY := Text("REPLAY")
  const OPERATIONS_CLIENT := Text("n8n-operations-automation")

  datatype Step =
    | EnqueueStep(tenant: Name, event: Name, correlationId: Name, route: Route, at: Time)
    | ClaimStep(key: Key, claiming: Claiming, at: Time)
    | HeartbeatStep(key: Key, lease: Lease, at: Time)
    | RecordStep(key: Key, lease: Lease, idempotencyKey: Name, content: StepContent, at: Time)
    | CompleteStep(key: Key, lease: Lease, idempotencyKey: Name, result: Name, safeResult: Name, at: Time)
    | FailStep(key: Key, lease: Lease, idempotencyKey: Name, failing: Failing, at: Time)
    | ApprovalStep(key: Key, client: Name, idempotencyKey: Name, kind: Name, summary: Name, expiresAt: Time,
                   requestedBy: Name, at: Time)
    | DecideStep(tenant: Name, approval: Name, decidedBy: Name, at: Time)
    | ReadApprovalStep(tenant: Name, approval: Name, at: Time)
    | ReplayStep(tenant: Name, deadLetter: Name, approval: Name, body: Replaying, client: Name, at: Time)

  function JobKey(tenant: Name, event: Name, route: Route): Key {
    Key(tenant, JobId(tenant, event, route.workflowKey, route.workflowVersion))
  }

  /** The job a step is addressed to. */
  function Target(step: Step): Key {
    match step
    case EnqueueStep(tenant, event, _, route, _) => JobKey(tenant, event, route)
    case DecideStep(tenant, approval, _, _) => Key(tenant, approval)
    case ReadApprovalStep(tenant, approval, _) => Key(tenant, approval)
    case ReplayStep(tenant, deadLetter, _, _, _, _) =>
      Key(tenant, if deadLetter.DeadLetterId? then deadLetter.job else deadLetter)
    case _ => step.key
  }

  predicate ReplayAllowed(s: Store, step: Step) requires step.ReplayStep? {
    var key := Target(step);
    && step.client == OPERATIONS_CLIENT
    && step.deadLetter == DeadLetterId(step.tenant, key.id)
    && key in s.records && s.records[key].dead.Some?
    && Key(step.tenant, step.approval) in s.approvals
    && ApprovesReplay(s.approvals[Key(step.tenant, step.approval)], key.id, REPLAY, step.at)
  }

  /** The record of the addressed job after a step; `token` is the delivery token drawn for it. */
  function Changes(s: Store, step: Step, token: Name): Option<Record> {
    var key := Target(step);
    if key !in s.records then
      if step.EnqueueStep?
      then Some(NewRecord(key, step.event, step.correlationId, step.route, token, step.at)) else None
    else
      var r := s.records[key];
      match step
      case ClaimStep(_, c, at) => Some(Claim(r, key, c, at).0)
      case HeartbeatStep(_, lease, at) =>
        if Heartbeat(r, lease, at).Ok? then Some(Heartbeat(r, lease, at).value) else None
      case RecordStep(_, lease, k, content, at) =>
        if ActiveLease(r.job, lease, at) && StepKey(key.tenant, key.id, k) !in s.steps
        then Some(Stepped(r, at)) else None
      case CompleteStep(_, lease, k, result, safeResult, at) =>
        var t := Complete(r, lease, k, result, safeResult, at);
        if t.Changed? then Some(t.record) else None
      case FailStep(_, lease, k, f, at) =>
        var t := Fail(r, key, lease, k, f, token, at);
        if t.Changed? then Some(t.record) else None
      case ApprovalStep(_, client, k, _, _, _, _, at) =>
        if r.job.expectedClient == client && Key(key.tenant, ApprovalId(key.tenant, key.id, k)) !in s.approvals
        then Some(AwaitApproval(r, at)) else None
      case ReplayStep(_, _, _, body, _, at) =>
        if ReplayAllowed(s, step) && ReplayDeadLetter(r, body, token, at).Ok?
        then Some(ReplayDeadLetter(r, body, token, at).value) else None
      case _ => None
  }

  function StepsAfter(s: Store, step: Step): map<StepKey, StepEvidence> {
    var key := Target(step);
    if step.RecordStep? && key in s.records && ActiveLease(s.records[key].job, step.lease, step.at)
       && StepKey(key.tenant, key.id, step.idempotencyKey) !in s.steps
    then s.steps[StepKey(key.tenant, key.id, step.idempotencyKey) := StepEvidence(|s.steps| + 1, step.content)]
    else s.steps
  }

  function ApprovalsAfter(s: Store, step: Step): map<Key, Approval> {
    match step
    case ApprovalStep(key, client, k, kind, summary, expiresAt, requestedBy, at) =>
      var id := Key(key.tenant, ApprovalId(key.tenant, key.id, k));
      if key in s.records && s.records[key].job.expectedClient == client && id !in s.approvals
      then s.approvals[id := Approval(ApprovalRequest(key.id, kind, summary, expiresAt), ApprovalPending,
                                      requestedBy, None, 1)]
      else s.approvals
    case DecideStep(tenant, approval, decidedBy, at) =>
      var id := Key(tenant, approval);
      if id in s.approvals && s.approvals[id].requestedBy != decidedBy
      then s.approvals[id := s.approvals[id].(state := Approved, decidedBy := Some(decidedBy),
                                              resourceVersion := s.approvals[id].resourceVersion + 1)]
      else s.approvals
    case ReadApprovalStep(tenant, approval, at) =>
      var id := Key(tenant, approval);
      if id in s.approvals && s.approvals[id].state.ApprovalPending? && s.approvals[id].request.expiresAt <= at
      then s.approvals[id := s.approvals[id].(state := ApprovalExpired,
                                              resourceVersion := s.approvals[id].resourceVersion + 1)]
      else s.approvals
    case _ => s.approvals
  }

  function Apply(s: Store, step: Step, token: Name): Store {
    var change := Changes(s, step, token);
    Store(if change.Some? then s.records[Target(step) := change.value] else s.records,
          StepsAfter(s, step), ApprovalsAfter(s, step))
  }

  /** Tokens are drawn in order; `issued[n]` is the job that the n-th token was drawn for. */
  datatype System = System(store: Store, issued: seq<Key>)

  function Advance(y: System, step: Step): System {
    System(Apply(y.store, step, Random(|y.issued|)), y.issued + [Target(step)])
  }

  function Run(y: System, steps: seq<Step>): System {
    if steps == [] then y else Advance(Run(y, steps[..|steps| - 1]), steps[|steps| - 1])
  }

  const START := System(EMPTY, [])
}
