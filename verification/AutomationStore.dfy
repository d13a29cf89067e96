/**
 `MemoryAutomationStore` with its dictionaries.  Jobs, dispatches and dead letters are separate
 dictionaries; `Snapshot` gathers them per job, and each method acts on that view as one step of the
 job state machine.
 */
module AutomationStore {
  import opened Identities
  import opened AutomationJobs

  /** Where the dead letter of a job is filed. */
  function DeadKey(key: Key): Key { Key(key.tenant, DeadLetterId(key.tenant, key.id)) }

  function Lookup(deadLetters: map<Key, DeadLetter>, key: Key): Option<DeadLetter> {
    if DeadKey(key) in deadLetters then Some(deadLetters[DeadKey(key)]) else None
  }

  ghost function Gather(jobs: map<Key, Job>, dispatches: map<Key, Dispatch>, deadLetters: map<Key, DeadLetter>)
    : map<Key, Record>
    requires dispatches.Keys == jobs.Keys
  {
    map k | k in jobs :: Record(jobs[k], dispatches[k], Lookup(deadLetters, k))
  }

  lemma GatherUpdate(jobs: map<Key, Job>, dispatches: map<Key, Dispatch>, deadLetters: map<Key, DeadLetter>,
                     key: Key, r: Record)
    requires dispatches.Keys == jobs.Keys && (r.dead.None? ==> DeadKey(key) !in deadLetters)
    ensures Gather(jobs[key := r.job], dispatches[key := r.dispatch],
                   if r.dead.Some? then deadLetters[DeadKey(key) := r.dead.value] else deadLetters)
         == Gather(jobs, dispatches, deadLetters)[key := r]
  {
  }

  lemma GatherAt(jobs: map<Key, Job>, dispatches: map<Key, Dispatch>, deadLetters: map<Key, DeadLetter>, key: Key)
    requires dispatches.Keys == jobs.Keys
    ensures key in Gather(jobs, dispatches, deadLetters) <==> key in jobs
    ensures key in jobs ==> Gather(jobs, dispatches, deadLetters)[key]
                            == Record(jobs[key], dispatches[key], Lookup(deadLetters, key))
  {
  }

  /** `order` lists the known keys once each. */
  ghost predicate Listed(order: seq<Key>, known: set<Key>) {
    && (forall k :: k in known <==> k in order)
    && (forall i, j :: 0 <= i < j < |order| ==> order[i] != order[j])
  }

  /** Jobs and dead letters carry the identities they are filed under. */
  ghost predicate Filed(jobs: map<Key, Job>, deadLetters: map<Key, DeadLetter>) {
    && (forall k :: k in jobs ==> jobs[k].id == k.id)
    && (forall d :: d in deadLetters ==>
          d.id.DeadLetterId? && d.id.tenant == d.tenant && Key(d.tenant, d.id.job) in jobs
          && deadLetters[d].job == d.id.job)
  }

  /** `after` may be written back for the job that has `before` on record. */
  predicate Fits(key: Key, before: Option<DeadLetter>, after: Record) {
    && after.job.id == key.id
    && (after.dead == before || (after.dead.Some? && after.dead.value.job == key.id))
  }

  lemma LookupNone(deadLetters: map<Key, DeadLetter>, key: Key)
    ensures Lookup(deadLetters, key).None? <==> DeadKey(key) !in deadLetters
  {
  }

  lemma RewriteKeepsFiling(jobs: map<Key, Job>, deadLetters: map<Key, DeadLetter>, key: Key, r: Record)
    requires Filed(jobs, deadLetters) && Fits(key, Lookup(deadLetters, key), r)
    ensures Filed(jobs[key := r.job],
                  if r.dead.Some? then deadLetters[DeadKey(key) := r.dead.value] else deadLetters)
  {
  }

  lemma RewriteKeepsKeys(jobs: map<Key, Job>, dispatches: map<Key, Dispatch>, key: Key, r: Record)
    requires dispatches.Keys == jobs.Keys && key in jobs
    ensures jobs[key := r.job].Keys == jobs.Keys == dispatches[key := r.dispatch].Keys
  {
  }

  lemma NewKeys(jobs: map<Key, Job>, dispatches: map<Key, Dispatch>, key: Key, r: Record)
    requires dispatches.Keys == jobs.Keys
    ensures jobs[key := r.job].Keys == jobs.Keys + {key} == dispatches[key := r.dispatch].Keys
  {
  }

  lemma NewKeyListed(order: seq<Key>, known: set<Key>, key: Key)
    requires Listed(order, known) && key !in known
    ensures Listed(order + [key], known + {key})
  {
  }

  lemma NotDeadYet(jobs: map<Key, Job>, deadLetters: map<Key, DeadLetter>, key: Key)
    requires Filed(jobs, deadLetters) && key !in jobs
    ensures DeadKey(key) !in deadLetters
  {
  }

  lemma NewRecordFits(key: Key, event: Name, correlationId: Name, route: Route, token: Name, now: Time)
    ensures var r := NewRecord(key, event, correlationId, route, token, now);
            r.dead.None? && Fits(key, None, r)
  {
  }

  /** What a stored job carries. */
  lemma RecordFits(jobs: map<Key, Job>, dispatches: map<Key, Dispatch>, deadLetters: map<Key, DeadLetter>, key: Key)
    requires dispatches.Keys == jobs.Keys && Filed(jobs, deadLetters) && key in jobs
    ensures var r := Gather(jobs, dispatches, deadLetters)[key];
            Fits(key, r.dead, r) && (r.dead.Some? ==> r.dead.value.job == key.id)
  {
  }

  lemma ClaimFits(r: Record, key: Key, c: Claiming, now: Time)
    requires r.job.id == key.id
    ensures Fits(key, r.dead, Claim(r, key, c, now).0)
  {
  }

  lemma HeartbeatFits(r: Record, key: Key, lease: Lease, now: Time)
    requires r.job.id == key.id && Heartbeat(r, lease, now).Ok?
    ensures Fits(key, r.dead, Heartbeat(r, lease, now).value)
  {
  }

  lemma SteppedFits(r: Record, key: Key, now: Time)
    requires r.job.id == key.id
    ensures Fits(key, r.dead, Stepped(r, now))
  {
  }

  lemma CompleteFits(r: Record, key: Key, lease: Lease, idempotencyKey: Name, result: Name, safeResult: Name, now: Time)
    requires r.job.id == key.id && Complete(r, lease, idempotencyKey, result, safeResult, now).Changed?
    ensures Fits(key, r.dead, Complete(r, lease, idempotencyKey, result, safeResult, now).record)
  {
  }

  /** A failure case by case. */
  lemma FailCases(r: Record, key: Key, lease: Lease, idempotencyKey: Name, f: Failing, token: Name, now: Time)
    ensures var request := FailRequest(lease.execution, f.error, f.retryable, f.unknownOutcome, f.safeError);
            var replay := TerminalReplay(r.job, idempotencyKey, request);
            var state := FailState(r.job, f.retryable, f.unknownOutcome);
            var job := r.job.(resultCode := None, errorCode := Some(f.error));
            Fail(r, key, lease, idempotencyKey, f, token, now)
            == if replay.Some? then replay.value
               else if !ActiveLease(r.job, lease, now) then Refused(Conflict)
               else if state.RetryScheduled? then Changed(Reissued(r.(job := job), token, now))
               else Changed(Record(Closed(job, state, idempotencyKey, request, now), r.dispatch,
                                   if state.DeadLettered?
                                   then Some(DeadLetterFor(key, r.job, f.error, f.unknownOutcome, now)) else r.dead))
  {
    hide ActiveLease, TerminalReplay, FailState, Reissued, Closed, DeadLetterFor;
  }

  lemma FailFits(r: Record, key: Key, lease: Lease, idempotencyKey: Name, f: Failing, token: Name, now: Time)
    requires r.job.id == key.id && Fail(r, key, lease, idempotencyKey, f, token, now).Changed?
    ensures Fits(key, r.dead, Fail(r, key, lease, idempotencyKey, f, token, now).record)
  {
  }

  lemma AwaitFits(r: Record, key: Key, now: Time)
    requires r.job.id == key.id
    ensures Fits(key, r.dead, AwaitApproval(r, now))
  {
  }

  lemma ReplayFits(r: Record, key: Key, body: Replaying, token: Name, now: Time)
    requires r.job.id == key.id && r.dead.Some? && r.dead.value.job == key.id
    requires ReplayDeadLetter(r, body, token, now).Ok?
    ensures Fits(key, r.dead, ReplayDeadLetter(r, body, token, now).value)
  {
  }

  /** A step that changes only the record of its job. */
  lemma ApplyChanged(s: Store, step: Step, token: Name, r: Record)
    requires !step.RecordStep? && !step.ApprovalStep? && !step.DecideStep? && !step.ReadApprovalStep?
    requires Changes(s, step, token) == Some(r)
    ensures Apply(s, step, token) == s.(records := s.records[Target(step) := r])
  {
  }

  lemma ApplyNothing(s: Store, step: Step, token: Name)
    requires !step.RecordStep? && !step.ApprovalStep? && !step.DecideStep? && !step.ReadApprovalStep?
    requires Changes(s, step, token) == None
    ensures Apply(s, step, token) == s
  {
  }

  /** An approval request files its approval and parks the job, or changes nothing. */
  lemma ApprovalCases(s: Store, step: Step)
    requires step.ApprovalStep?
    ensures var id := Key(step.key.tenant, ApprovalId(step.key.tenant, step.key.id, step.idempotencyKey));
            var request := ApprovalRequest(step.key.id, step.kind, step.summary, step.expiresAt);
            Apply(s, step, NO_TOKEN)
            == if step.key in s.records && s.records[step.key].job.expectedClient == step.client && id !in s.approvals
               then s.(records := s.records[step.key := AwaitApproval(s.records[step.key], step.at)],
                       approvals := s.approvals[id := Approval(request, ApprovalPending, step.requestedBy, None, 1)])
               else s
  {
    hide AwaitApproval;
  }

  lemma ApplyToApprovals(s: Store, step: Step, token: Name)
    requires step.DecideStep? || step.ReadApprovalStep?
    ensures Apply(s, step, token) == s.(approvals := ApprovalsAfter(s, step))
  {
  }

  // ---------------------------------------------------------------- reconciliation reports

  datatype PlanItem = RequeueExpiredLease(job: Name) | RecreateDispatch(job: Name)

  datatype Report = Report(inspected: int, counts: map<JobState, int>, expired: int, missing: int, plan: seq<PlanItem>)

  datatype ReconcileRequest = ReconcileRequest(planning: bool, jobIds: seq<Name>)
  datatype ReconcileRun = ReconcileRun(request: ReconcileRequest, report: Report)

  predicate Selects(key: Key, tenant: Name, jobIds: seq<Name>) {
    key.tenant == tenant && (jobIds == [] || key.id in jobIds)
  }

  /** The keys a reconciliation inspects, in insertion order. */
  function Selected(order: seq<Key>, tenant: Name, jobIds: seq<Name>): seq<Key> {
    if order == [] then []
    else
      var n := |order| - 1;
      Selected(order[..n], tenant, jobIds) + if Selects(order[n], tenant, jobIds) then [order[n]] else []
  }

  function CountIn(keys: seq<Key>, jobs: map<Key, Job>, state: JobState): int
    requires forall i :: 0 <= i < |keys| ==> keys[i] in jobs
  {
    if keys == [] then 0
    else CountIn(keys[..|keys| - 1], jobs, state) + if jobs[keys[|keys| - 1]].state == state then 1 else 0
  }

  /** The inspected jobs whose lease has expired, in order. */
  function ExpiredIn(keys: seq<Key>, jobs: map<Key, Job>, now: Time): seq<PlanItem>
    requires forall i :: 0 <= i < |keys| ==> keys[i] in jobs
  {
    if keys == [] then []
    else
      var n := |keys| - 1;
      ExpiredIn(keys[..n], jobs, now)
      + if LeaseExpired(jobs[keys[n]], now) then [RequeueExpiredLease(keys[n].id)] else []
  }

  /** The inspected keys are those of the tenant and, if job ids are given, with one of these ids. */
  lemma {:induction false} SelectedIff(order: seq<Key>, tenant: Name, jobIds: seq<Name>, key: Key)
    ensures key in Selected(order, tenant, jobIds)
       <==> && key in order && key.tenant == tenant
            && (jobIds == [] || exists i :: 0 <= i < |jobIds| && jobIds[i] == key.id)
  {
    if order != [] {
      var n := |order| - 1;
      SelectedIff(order[..n], tenant, jobIds, key);
      assert order == order[..n] + [order[n]];
    }
  }

  /** The plan lists exactly the inspected jobs whose lease has run out. */
  lemma {:induction false} PlanIff(keys: seq<Key>, jobs: map<Key, Job>, now: Time, id: Name)
    requires forall i :: 0 <= i < |keys| ==> keys[i] in jobs
    ensures RequeueExpiredLease(id) in ExpiredIn(keys, jobs, now)
       <==> exists i :: && 0 <= i < |keys| && keys[i].id == id
                        && jobs[keys[i]].leaseExpiresAt.Some? && jobs[keys[i]].leaseExpiresAt.value <= now
  {
    if keys != [] { PlanIff(keys[..|keys| - 1], jobs, now, id); }
  }

  /** The inspected positions that hold a job in this state. */
  ghost function PositionsOf(keys: seq<Key>, jobs: map<Key, Job>, state: JobState): set<int>
    requires forall i :: 0 <= i < |keys| ==> keys[i] in jobs
  {
    set i: int | 0 <= i < |keys| && jobs[keys[i]].state == state
  }

  lemma PositionsGrow(keys: seq<Key>, jobs: map<Key, Job>, state: JobState)
    requires keys != [] && forall i :: 0 <= i < |keys| ==> keys[i] in jobs
    ensures var n := |keys| - 1;
            && n !in PositionsOf(keys[..n], jobs, state)
            && PositionsOf(keys, jobs, state)
               == PositionsOf(keys[..n], jobs, state) + if jobs[keys[n]].state == state then {n} else {}
  {
  }

  /** The count of a state is the number of inspected positions that hold a job in it. */
  lemma {:induction false} CountIsCardinality(keys: seq<Key>, jobs: map<Key, Job>, state: JobState)
    requires forall i :: 0 <= i < |keys| ==> keys[i] in jobs
    ensures CountIn(keys, jobs, state) == |PositionsOf(keys, jobs, state)|
  {
    if keys != [] {
      hide PositionsOf;
      CountIsCardinality(keys[..|keys| - 1], jobs, state);
      PositionsGrow(keys, jobs, state);
    }
  }

  function Tally(counts: map<JobState, int>, state: JobState): int { if state in counts then counts[state] else 0 }

  function TotalOf(counts: map<JobState, int>): int {
    Tally(counts, Pending) + Tally(counts, Dispatching) + Tally(counts, Claimed) + Tally(counts, Running)
    + Tally(counts, WaitingApproval) + Tally(counts, WaitingTimer) + Tally(counts, WaitingCommand)
    + Tally(counts, RetryScheduled) + Tally(counts, Completed) + Tally(counts, FailedTerminal)
    + Tally(counts, DeadLettered) + Tally(counts, Cancelled)
  }

  /** Passed where a step draws no delivery token. */
  const NO_TOKEN := Text("")

  class MemoryAutomationStore {
    var jobs: map<Key, Job>
    var order: seq<Key>
    var dispatches: map<Key, Dispatch>
    var deadLetters: map<Key, DeadLetter>
    var steps: map<StepKey, StepEvidence>
    var approvals: map<Key, Approval>
    var reconciliations: map<(Name, Name), ReconcileRun>

    ghost predicate Valid() reads this {
      dispatches.Keys == jobs.Keys && Listed(order, jobs.Keys) && Filed(jobs, deadLetters)
    }

    ghost function Snapshot(): Store
      reads this
      requires Valid()
    {
      Store(Gather(jobs, dispatches, deadLetters), steps, approvals)
    }

    constructor ()
      ensures Valid() && Snapshot() == EMPTY
    {
      jobs, order, dispatches, deadLetters, steps, approvals := map[], [], map[], map[], map[], map[];
      reconciliations := map[];
    }

    method Load(key: Key) returns (r: Option<Record>)
      requires Valid()
      ensures r == if key in Snapshot().records then Some(Snapshot().records[key]) else None
    {
      if key !in jobs { return None; }
      return Some(Record(jobs[key], dispatches[key], Lookup(deadLetters, key)));
    }

    /** Writes back the dictionaries of one known job. */
    method Save(key: Key, r: Record)
      requires Valid() && key in Snapshot().records && Fits(key, Snapshot().records[key].dead, r)
      modifies this`jobs, this`dispatches, this`deadLetters
      ensures Valid()
      ensures Snapshot() == old(Snapshot()).(records := old(Snapshot()).records[key := r])
    {
      hide Gather, Filed, Listed, Lookup;
      GatherAt(jobs, dispatches, deadLetters, key);
      RewriteKeepsFiling(jobs, deadLetters, key, r);
      RewriteKeepsKeys(jobs, dispatches, key, r);
      LookupNone(deadLetters, key);
      GatherUpdate(jobs, dispatches, deadLetters, key, r);
      jobs := jobs[key := r.job];
      dispatches := dispatches[key := r.dispatch];
      deadLetters := if r.dead.Some? then deadLetters[DeadKey(key) := r.dead.value] else deadLetters;
    }

    /** The record of a stored job carries its own identity. */
    lemma Own(key: Key)
      requires Valid() && key in Snapshot().records
      ensures Snapshot().records[key].job.id == key.id
      ensures Snapshot().records[key].dead.Some? ==> Snapshot().records[key].dead.value.job == key.id
    {
      GatherAt(jobs, dispatches, deadLetters, key);
      RecordFits(jobs, dispatches, deadLetters, key);
    }

    method EnqueueEvent(tenant: Name, event: Name, correlationId: Name, route: Route, token: Name, now: Time)
      requires Valid()
      modifies this
      ensures Valid()
      ensures Snapshot() == Apply(old(Snapshot()), EnqueueStep(tenant, event, correlationId, route, now), token)
    {
      hide Gather, Filed, Listed, Apply, NewRecord, Lookup;
      var key := JobKey(tenant, event, route);
      ghost var step := EnqueueStep(tenant, event, correlationId, route, now);
      GatherAt(jobs, dispatches, deadLetters, key);
      if key in jobs {
        ApplyNothing(Snapshot(), step, token);
        return;
      }
      var r := NewRecord(key, event, correlationId, route, token, now);
      ApplyChanged(Snapshot(), step, token, r);
      NotDeadYet(jobs, deadLetters, key);
      LookupNone(deadLetters, key);
      NewRecordFits(key, event, correlationId, route, token, now);
      RewriteKeepsFiling(jobs, deadLetters, key, r);
      GatherUpdate(jobs, dispatches, deadLetters, key, r);
      NewKeyListed(order, jobs.Keys, key);
      NewKeys(jobs, dispatches, key, r);
      jobs := jobs[key := r.job];
      order := order + [key];
      dispatches := dispatches[key := r.dispatch];
    }

    /** The checks of a claim in their order, and the columns it sets. */
    method ClaimColumns(r: Record, key: Key, c: Claiming, now: Time)
      returns (after: Record, result: Result<Granted, Refusal>)
      ensures after == Claim(r, key, c, now).0
      ensures result == Claim(r, key, c, now).1
    {
      var job, dispatch := r.job, r.dispatch;
      if job.workflowKey != c.workflowKey || job.workflowVersion != c.workflowVersion { return r, Err(Conflict); }
      if job.expectedClient != c.client { return r, Err(Denied); }
      if job.deliveryDigest != TokenDigest(c.delivery) { return r, Err(Denied); }
      var leaseToken := LeaseToken(c.delivery, key.id, c.execution, c.client);
      if job.deliveryUsedAt.Some? {
        if job.execution == Some(c.execution) && job.leaseClient == Some(c.client)
           && job.leaseExpiresAt.Some? && job.leaseExpiresAt.value > now
           && job.leaseDigest == Some(TokenDigest(leaseToken))
        {
          return r, Ok(Granted(leaseToken, job.leaseExpiresAt.value, true));
        }
        return r, Err(Conflict);
      }
      if !job.state.Pending? && !job.state.RetryScheduled? { return r, Err(Conflict); }
      job := job.(deliveryUsedAt := Some(now));
      job := job.(leaseDigest := Some(TokenDigest(leaseToken)), leaseClient := Some(c.client));
      job := job.(execution := Some(c.execution), leaseExpiresAt := Some(now + LEASE_SECONDS));
      job := job.(attemptCount := job.attemptCount + 1);
      job := job.(state := JobState.Claimed, resourceVersion := job.resourceVersion + 1, updatedAt := now);
      dispatch := dispatch.(claimed := true);
      return Record(job, dispatch, r.dead), Ok(Granted(leaseToken, now + LEASE_SECONDS, false));
    }

    method ClaimJob(key: Key, c: Claiming, now: Time) returns (r: Result<Granted, Refusal>)
      requires Valid()
      modifies this
      ensures Valid()
      ensures Snapshot() == Apply(old(Snapshot()), ClaimStep(key, c, now), NO_TOKEN)
      ensures key !in old(Snapshot()).records ==> r == Err(NotFound)
      ensures key in old(Snapshot()).records ==> r == Claim(old(Snapshot()).records[key], key, c, now).1
    {
      hide Gather, Filed, Listed, Claim, Apply, Fits;
      var stored := Load(key);
      if stored.None? {
        ApplyNothing(Snapshot(), ClaimStep(key, c, now), NO_TOKEN);
        return Err(NotFound);
      }
      Own(key);
      ClaimFits(stored.value, key, c, now);
      var after, result := ClaimColumns(stored.value, key, c, now);
      ApplyChanged(Snapshot(), ClaimStep(key, c, now), NO_TOKEN, after);
      Save(key, after);
      return result;
    }

    /** Whether the lease is the one the job is held under and has not run out. */
    method HoldsLease(job: Job, lease: Lease, now: Time) returns (active: bool)
      ensures active == ActiveLease(job, lease, now)
    {
      if job.leaseDigest != Some(TokenDigest(lease.token)) || job.execution != Some(lease.execution) { return false; }
      if job.leaseClient != Some(lease.client) { return false; }
      if job.leaseExpiresAt.None? || job.leaseExpiresAt.value <= now { return false; }
      return job.state.Claimed? || job.state.Running? || job.state.WaitingApproval? || job.state.WaitingTimer?
             || job.state.WaitingCommand?;
    }

    method HeartbeatColumns(r: Record, lease: Lease, now: Time) returns (after: Result<Record, Refusal>)
      ensures after == Heartbeat(r, lease, now)
    {
      hide ActiveLease;
      var active := HoldsLease(r.job, lease, now);
      if !active { return Err(Conflict); }
      var job := r.job;
      job := job.(leaseExpiresAt := Some(now + LEASE_SECONDS));
      job := job.(state := Running, resourceVersion := job.resourceVersion + 1, updatedAt := now);
      return Ok(r.(job := job));
    }

    method HeartbeatJob(key: Key, lease: Lease, now: Time) returns (r: Result<Record, Refusal>)
      requires Valid()
      modifies this
      ensures Valid()
      ensures key !in old(Snapshot()).records ==> r == Err(NotFound)
      ensures key in old(Snapshot()).records ==> r == Heartbeat(old(Snapshot()).records[key], lease, now)
      ensures Snapshot() == Apply(old(Snapshot()), HeartbeatStep(key, lease, now), NO_TOKEN)
    {
      hide Gather, Filed, Listed, Heartbeat, Apply, Fits;
      ghost var step := HeartbeatStep(key, lease, now);
      var stored := Load(key);
      if stored.None? {
        ApplyNothing(Snapshot(), step, NO_TOKEN);
        return Err(NotFound);
      }
      Own(key);
      r := HeartbeatColumns(stored.value, lease, now);
      if r.Ok? {
        HeartbeatFits(stored.value, key, lease, now);
        ApplyChanged(Snapshot(), step, NO_TOKEN, r.value);
        Save(key, r.value);
      } else {
        ApplyNothing(Snapshot(), step, NO_TOKEN);
      }
    }

    /** What a repeated or late terminal request is answered with; None when there is none on record. */
    method TerminalReplayOf(job: Job, idempotencyKey: Name, request: TerminalRequest)
      returns (replay: Option<Terminal<Record>>)
      ensures replay == TerminalReplay(job, idempotencyKey, request)
    {
      if job.terminalKey.None? { return None; }
      if job.terminalKey.value == idempotencyKey && job.terminalRequest == Some(request) { return Some(Replayed); }
      return Some(Refused(Conflict));
    }

    method FailStateOf(job: Job, retryable: bool, unknownOutcome: bool) returns (state: JobState)
      ensures state == FailState(job, retryable, unknownOutcome)
    {
      if unknownOutcome { return JobState.DeadLettered; }
      if retryable && job.attemptCount < job.maxAttempts { return RetryScheduled; }
      if job.attemptCount >= job.maxAttempts { return JobState.DeadLettered; }
      return JobState.FailedTerminal;
    }

    /** The columns every accepted failure sets. */
    method FailedColumns(before: Job, error: Name, state: JobState, idempotencyKey: Name, request: TerminalRequest,
                         now: Time)
      returns (job: Job)
      ensures job == Closed(before.(resultCode := None, errorCode := Some(error)), state, idempotencyKey, request, now)
    {
      job := before.(state := state, resultCode := None, errorCode := Some(error));
      job := job.(terminalKey := Some(idempotencyKey), terminalRequest := Some(request));
      job := job.(leaseExpiresAt := None, leaseDigest := None);
      job := job.(resourceVersion := job.resourceVersion + 1, updatedAt := now);
    }

    /** The columns a retry resets after the failure, and its new dispatch. */
    method RetryColumns(failed: Record, closed: Job, idempotencyKey: Name, request: TerminalRequest, token: Name,
                        now: Time)
      returns (after: Record)
      requires closed == Closed(failed.job, RetryScheduled, idempotencyKey, request, now)
      ensures after == Reissued(failed, token, now)
    {
      var job := closed.(deliveryDigest := TokenDigest(token), deliveryUsedAt := None, execution := None,
                         leaseClient := None);
      job := job.(terminalKey := None, terminalRequest := None);
      return Record(job, Dispatch(token, job.workflowKey, job.workflowVersion, job.correlationId, false), failed.dead);
    }

    /** A failure: a new token for a retry, or the end of the job with or without a dead letter. */
    method FailColumns(r: Record, key: Key, lease: Lease, idempotencyKey: Name, f: Failing, token: Name, now: Time)
      returns (t: Terminal<Record>)
      ensures t == Fail(r, key, lease, idempotencyKey, f, token, now)
    {
      hide Fail, ActiveLease, TerminalReplay, FailState, Closed, Reissued;
      FailCases(r, key, lease, idempotencyKey, f, token, now);
      var request := FailRequest(lease.execution, f.error, f.retryable, f.unknownOutcome, f.safeError);
      var replay := TerminalReplayOf(r.job, idempotencyKey, request);
      if replay.Some? { return replay.value; }
      var active := HoldsLease(r.job, lease, now);
      if !active { return Refused(Conflict); }
      var state := FailStateOf(r.job, f.retryable, f.unknownOutcome);
      var job := FailedColumns(r.job, f.error, state, idempotencyKey, request, now);
      if state.RetryScheduled? {
        var retried := RetryColumns(r.(job := r.job.(resultCode := None, errorCode := Some(f.error))), job,
                                    idempotencyKey,
                                    request, token, now);
        return Changed(retried);
      }
      if state.DeadLettered? {
        var fingerprint := Fingerprint(key.tenant, key.id, r.job.workflowKey, f.error);
        var dead := DeadLetter(DeadLetterId(key.tenant, key.id), key.tenant, key.id, fingerprint, f.unknownOutcome,
                               true,
                               1, now, now);
        return Changed(Record(job, r.dispatch, Some(dead)));
      }
      return Changed(Record(job, r.dispatch, r.dead));
    }

    method FailJob(key: Key, lease: Lease, idempotencyKey: Name, f: Failing, token: Name, now: Time)
      returns (t: Terminal<Record>)
      requires Valid()
      modifies this
      ensures Valid()
      ensures key !in old(Snapshot()).records ==> t == Refused(NotFound)
      ensures key in old(Snapshot()).records ==>
                t == Fail(old(Snapshot()).records[key], key, lease, idempotencyKey, f, token, now)
      ensures Snapshot() == Apply(old(Snapshot()), FailStep(key, lease, idempotencyKey, f, now), token)
    {
      hide Gather, Filed, Listed, Fail, Apply, Fits;
      ghost var step := FailStep(key, lease, idempotencyKey, f, now);
      var stored := Load(key);
      if stored.None? {
        ApplyNothing(Snapshot(), step, token);
        return Refused(NotFound);
      }
      Own(key);
      t := FailColumns(stored.value, key, lease, idempotencyKey, f, token, now);
      if t.Changed? {
        FailFits(stored.value, key, lease, idempotencyKey, f, token, now);
        ApplyChanged(Snapshot(), step, token, t.record);
        Save(key, t.record);
      } else {
        ApplyNothing(Snapshot(), step, token);
      }
    }

    method CompleteColumns(r: Record, lease: Lease, idempotencyKey: Name, result: Name, safeResult: Name, now: Time)
      returns (t: Terminal<Record>)
      ensures t == Complete(r, lease, idempotencyKey, result, safeResult, now)
    {
      hide ActiveLease, TerminalReplay;
      var request := CompleteRequest(lease.execution, result, safeResult);
      var replay := TerminalReplayOf(r.job, idempotencyKey, request);
      if replay.Some? { return replay.value; }
      var active := HoldsLease(r.job, lease, now);
      if !active { return Refused(Conflict); }
      var job := r.job;
      job := job.(state := JobState.Completed, resultCode := Some(result), errorCode := None);
      job := job.(terminalKey := Some(idempotencyKey), terminalRequest := Some(request));
      job := job.(leaseExpiresAt := None, leaseDigest := None);
      job := job.(resourceVersion := job.resourceVersion + 1, updatedAt := now);
      return Changed(r.(job := job));
    }

    method CompleteJob(key: Key, lease: Lease, idempotencyKey: Name, result: Name, safeResult: Name, now: Time)
      returns (t: Terminal<Record>)
      requires Valid()
      modifies this
      ensures Valid()
      ensures key !in old(Snapshot()).records ==> t == Refused(NotFound)
      ensures key in old(Snapshot()).records ==>
                t == Complete(old(Snapshot()).records[key], lease, idempotencyKey, result, safeResult, now)
      ensures Snapshot() == Apply(old(Snapshot()), CompleteStep(key, lease, idempotencyKey, result, safeResult, now),
                                  NO_TOKEN)
    {
      hide Gather, Filed, Listed, Complete, Apply, Fits;
      ghost var step := CompleteStep(key, lease, idempotencyKey, result, safeResult, now);
      var stored := Load(key);
      if stored.None? {
        ApplyNothing(Snapshot(), step, NO_TOKEN);
        return Refused(NotFound);
      }
      Own(key);
      t := CompleteColumns(stored.value, lease, idempotencyKey, result, safeResult, now);
      if t.Changed? {
        CompleteFits(stored.value, key, lease, idempotencyKey, result, safeResult, now);
        ApplyChanged(Snapshot(), step, NO_TOKEN, t.record);
        Save(key, t.record);
      } else {
        ApplyNothing(Snapshot(), step, NO_TOKEN);
      }
    }

    method StepColumns(r: Record, now: Time) returns (after: Record)
      ensures after == Stepped(r, now)
    {
      var job := r.job;
      job := job.(state := Running, resourceVersion := job.resourceVersion + 1, updatedAt := now);
      return r.(job := job);
    }

    /** Parks the job unless it is settled. */
    method AwaitColumns(r: Record, now: Time) returns (after: Record)
      ensures after == AwaitApproval(r, now)
    {
      var job := r.job;
      if !job.state.Completed? && !job.state.Cancelled? && !job.state.FailedTerminal? && !job.state.DeadLettered? {
        job := job.(state := WaitingApproval, resourceVersion := job.resourceVersion + 1, updatedAt := now);
      }
      return r.(job := job);
    }

    /** Files step evidence once per idempotency key, under an active lease. */
    method RecordStepEvidence(key: Key, lease: Lease, idempotencyKey: Name, content: StepContent, now: Time)
      returns (r: Result<StepEvidence, Refusal>)
      requires Valid()
      modifies this
      ensures Valid()
      ensures Snapshot() == Apply(old(Snapshot()), RecordStep(key, lease, idempotencyKey, content, now), NO_TOKEN)
      ensures var s := old(Snapshot());
              var file := StepKey(key.tenant, key.id, idempotencyKey);
              r == if key !in s.records then Err(NotFound)
                   else if !ActiveLease(s.records[key].job, lease, now) then Err(Conflict)
                   else if file !in s.steps then Ok(StepEvidence(|s.steps| + 1, content))
                   else if s.steps[file].content != content then Err(Conflict)
                   else Ok(s.steps[file])
    {
      hide Gather, Filed, Listed, Fits, ActiveLease, Stepped;
      var stored := Load(key);
      if stored.None? { return Err(NotFound); }
      Own(key);
      var active := HoldsLease(stored.value.job, lease, now);
      if !active { return Err(Conflict); }
      var file := StepKey(key.tenant, key.id, idempotencyKey);
      if file in steps {
        if steps[file].content != content { return Err(Conflict); }
        return Ok(steps[file]);
      }
      var evidence := StepEvidence(|steps| + 1, content);
      steps := steps[file := evidence];
      SteppedFits(stored.value, key, now);
      var after := StepColumns(stored.value, now);
      Save(key, after);
      return Ok(evidence);
    }

    /** Files an approval request once per idempotency key and parks an unsettled job. */
    method RequestApproval(key: Key, client: Name, idempotencyKey: Name, kind: Name, summary: Name, expiresAt: Time,
                           requestedBy: Name, now: Time)
      returns (r: Result<Approval, Refusal>)
      requires Valid()
      modifies this
      ensures Valid()
      ensures Snapshot() == Apply(old(Snapshot()), ApprovalStep(key, client, idempotencyKey, kind, summary, expiresAt,
                                                                requestedBy, now), NO_TOKEN)
      ensures var s := old(Snapshot());
              var id := Key(key.tenant, ApprovalId(key.tenant, key.id, idempotencyKey));
              r == if key !in s.records then Err(NotFound)
                   else if s.records[key].job.expectedClient != client then Err(Denied)
                   else if id in s.approvals
                           && s.approvals[id].request != ApprovalRequest(key.id, kind, summary, expiresAt)
                   then Err(Conflict)
                   else Ok(Snapshot().approvals[id])
    {
      hide Snapshot, Valid, Fits, Apply, AwaitApproval;
      ghost var step := ApprovalStep(key, client, idempotencyKey, kind, summary, expiresAt, requestedBy, now);
      ApprovalCases(Snapshot(), step);
      var stored := Load(key);
      if stored.None? { return Err(NotFound); }
      Own(key);
      if stored.value.job.expectedClient != client { return Err(Denied); }
      var request := ApprovalRequest(key.id, kind, summary, expiresAt);
      var id := Key(key.tenant, ApprovalId(key.tenant, key.id, idempotencyKey));
      var known := FindApproval(id);
      if known.Some? {
        if known.value.request != request { return Err(Conflict); }
        return Ok(known.value);
      }
      var approval := Approval(request, ApprovalPending, requestedBy, None, 1);
      FileApproval(id, approval);
      AwaitFits(stored.value, key, now);
      var after := AwaitColumns(stored.value, now);
      Save(key, after);
      return Ok(approval);
    }

    method FindApproval(id: Key) returns (known: Option<Approval>)
      requires Valid()
      ensures known == if id in Snapshot().approvals then Some(Snapshot().approvals[id]) else None
    {
      return if id in approvals then Some(approvals[id]) else None;
    }

    method FileApproval(id: Key, approval: Approval)
      requires Valid()
      modifies this`approvals
      ensures Valid() && Snapshot() == old(Snapshot()).(approvals := old(Snapshot()).approvals[id := approval])
    {
      hide Gather, Filed, Listed;
      approvals := approvals[id := approval];
    }

    method Decide(tenant: Name, approvalId: Name, decidedBy: Name, now: Time) returns (r: Result<Approval, Refusal>)
      requires Valid()
      modifies this`approvals
      ensures Valid()
      ensures Snapshot() == Apply(old(Snapshot()), DecideStep(tenant, approvalId, decidedBy, now), NO_TOKEN)
      ensures var id := Key(tenant, approvalId);
              r == if id !in old(approvals) then Err(NotFound)
                   else if old(approvals)[id].requestedBy == decidedBy then Err(Conflict)
                   else Ok(approvals[id])
    {
      hide Gather, Filed, Listed, Apply;
      ApplyToApprovals(Snapshot(), DecideStep(tenant, approvalId, decidedBy, now), NO_TOKEN);
      var id := Key(tenant, approvalId);
      if id !in approvals { return Err(NotFound); }
      if approvals[id].requestedBy == decidedBy { return Err(Conflict); }
      approvals := approvals[id := approvals[id].(state := Approved, decidedBy := Some(decidedBy),
                                                  resourceVersion := approvals[id].resourceVersion + 1)];
      return Ok(approvals[id]);
    }

    method GetApproval(tenant: Name, approvalId: Name, now: Time) returns (r: Result<Approval, Refusal>)
      requires Valid()
      modifies this`approvals
      ensures Valid()
      ensures Snapshot() == Apply(old(Snapshot()), ReadApprovalStep(tenant, approvalId, now), NO_TOKEN)
      ensures var id := Key(tenant, approvalId);
              r == if id in approvals then Ok(approvals[id]) else Err(NotFound)
    {
      hide Gather, Filed, Listed, Apply;
      ApplyToApprovals(Snapshot(), ReadApprovalStep(tenant, approvalId, now), NO_TOKEN);
      var id := Key(tenant, approvalId);
      if id !in approvals { return Err(NotFound); }
      if approvals[id].state.ApprovalPending? && approvals[id].request.expiresAt <= now {
        approvals := approvals[id := approvals[id].(state := ApprovalExpired,
                                                    resourceVersion := approvals[id].resourceVersion + 1)];
      }
      return Ok(approvals[id]);
    }

    /** The columns a replay resets, the new dispatch, and the dead letter it closes. */
    method ReplayColumns(r: Record, body: Replaying, token: Name, now: Time) returns (after: Result<Record, Refusal>)
      requires r.dead.Some?
      ensures after == ReplayDeadLetter(r, body, token, now)
    {
      var dead := r.dead.value;
      if dead.resourceVersion != body.expectedVersion { return Err(Conflict); }
      if dead.fingerprint != body.fingerprint { return Err(Conflict); }
      if !dead.open { return Err(Conflict); }
      var job := r.job;
      job := job.(state := RetryScheduled, deliveryDigest := TokenDigest(token), deliveryUsedAt := None);
      job := job.(leaseDigest := None, leaseClient := None, execution := None, leaseExpiresAt := None);
      job := job.(terminalKey := None, terminalRequest := None);
      job := job.(resourceVersion := job.resourceVersion + 1, updatedAt := now);
      var dispatch := Dispatch(token, job.workflowKey, job.workflowVersion, job.correlationId, false);
      dead := dead.(open := false, resourceVersion := dead.resourceVersion + 1, updatedAt := now);
      return Ok(Record(job, dispatch, Some(dead)));
    }

    /** Replays an open dead letter under an approval that somebody else decided. */
    method ReplayJob(tenant: Name, deadLetterId: Name, approvalId: Name, body: Replaying, client: Name, token: Name,
                     now: Time)
      returns (r: Result<Record, Refusal>)
      requires Valid()
      modifies this
      ensures Valid()
      ensures Snapshot() == Apply(old(Snapshot()), ReplayStep(tenant, deadLetterId, approvalId, body, client, now),
                                  token)
      ensures var s := old(Snapshot());
              var step := ReplayStep(tenant, deadLetterId, approvalId, body, client, now);
              r.Ok? <==> ReplayAllowed(s, step) && ReplayDeadLetter(s.records[Target(step)], body, token, now).Ok?
    {
      hide Gather, Filed, Listed, Fits, Apply, ReplayDeadLetter, ApprovesReplay;
      ghost var step := ReplayStep(tenant, deadLetterId, approvalId, body, client, now);
      ghost var s := Snapshot();
      if client != OPERATIONS_CLIENT {
        ApplyNothing(s, step, token);
        return Err(Denied);
      }
      if Key(tenant, deadLetterId) !in deadLetters {
        Unfiled(tenant, deadLetterId);
        ApplyNothing(s, step, token);
        return Err(NotFound);
      }
      OnFile(tenant, deadLetterId);
      var key := Key(tenant, deadLetterId.job);
      if Key(tenant, approvalId) !in approvals {
        ApplyNothing(s, step, token);
        return Err(NotFound);
      }
      if !ApprovesReplay(approvals[Key(tenant, approvalId)], key.id, REPLAY, now) {
        ApplyNothing(s, step, token);
        return Err(Denied);
      }
      var stored := Load(key);
      Own(key);
      r := ReplayColumns(stored.value, body, token, now);
      if r.Ok? {
        ReplayFits(stored.value, key, body, token, now);
        ApplyChanged(s, step, token, r.value);
        Save(key, r.value);
      } else {
        ApplyNothing(s, step, token);
      }
    }

    lemma Unfiled(tenant: Name, deadLetterId: Name)
      requires Valid() && Key(tenant, deadLetterId) !in deadLetters
      ensures deadLetterId.DeadLetterId? && deadLetterId == DeadLetterId(tenant, deadLetterId.job)
              && Key(tenant, deadLetterId.job) in Snapshot().records
              ==> Snapshot().records[Key(tenant, deadLetterId.job)].dead.None?
    {
    }

    lemma OnFile(tenant: Name, deadLetterId: Name)
      requires Valid() && Key(tenant, deadLetterId) in deadLetters
      ensures deadLetterId == DeadLetterId(tenant, deadLetterId.job)
      ensures Key(tenant, deadLetterId.job) in Snapshot().records
      ensures Snapshot().records[Key(tenant, deadLetterId.job)].dead.Some?
    {
    }

    /**
     Reconciles once per idempotency key: a repetition is answered with the recorded run, a key that
     was used for another mode or other jobs conflicts, and nothing but the record of runs changes.
     */
    method Reconcile(tenant: Name, key: Name, jobIds: seq<Name>, planning: bool, now: Time)
      returns (r: Result<Report, Refusal>)
      requires Valid()
      modifies this`reconciliations
      ensures Valid() && Snapshot() == old(Snapshot())
      ensures var id, request := (tenant, key), ReconcileRequest(planning, jobIds);
              if id in old(reconciliations) then
                && reconciliations == old(reconciliations)
                && r == if reconciliations[id].request == request then Ok(reconciliations[id].report) else Err(Conflict)
              else
                && r.Ok? && Reports(r.value, tenant, jobIds, planning, now)
                && reconciliations == old(reconciliations)[id := ReconcileRun(request, r.value)]
    {
      hide Gather, Listed, Filed, Reports;
      var id, request := (tenant, key), ReconcileRequest(planning, jobIds);
      if id in reconciliations {
        if reconciliations[id].request != request { return Err(Conflict); }
        return Ok(reconciliations[id].report);
      }
      var report := Inspect(tenant, jobIds, planning, now);
      reconciliations := reconciliations[id := ReconcileRun(request, report)];
      return Ok(report);
    }

    /** What a report of the selected jobs says. */
    ghost predicate Reports(report: Report, tenant: Name, jobIds: seq<Name>, planning: bool, now: Time)
      reads this`order, this`jobs
    {
      var keys := Selected(order, tenant, jobIds);
      && (forall i :: 0 <= i < |keys| ==> keys[i] in jobs)
      && report.inspected == |keys|
      && (forall state :: Tally(report.counts, state) == CountIn(keys, jobs, state))
      && report.expired == |ExpiredIn(keys, jobs, now)|
      && report.missing == 0
      && report.plan == if planning then ExpiredIn(keys, jobs, now) else []
    }

    /**
     Counts the inspected jobs by state and, in PLAN mode, lists the expired leases.  The dispatch of
     a claimable job is never missing, because every job has one.
     */
    method Inspect(tenant: Name, jobIds: seq<Name>, planning: bool, now: Time) returns (report: Report)
      requires Valid()
      ensures Reports(report, tenant, jobIds, planning, now)
    {
      SelectedKnown(order, tenant, jobIds);
      var selected := SelectKeys(tenant, jobIds);
      var counts: map<JobState, int> := map[];
      var expired, missing, plan := 0, 0, [];
      for i := 0 to |selected|
        invariant forall state :: Tally(counts, state) == CountIn(selected[..i], jobs, state)
        invariant expired == |ExpiredIn(selected[..i], jobs, now)|
        invariant missing == 0
        invariant plan == if planning then ExpiredIn(selected[..i], jobs, now) else []
      {
        assert selected[..i + 1][..i] == selected[..i];
        var job := jobs[selected[i]];
        counts := counts[job.state := Tally(counts, job.state) + 1];
        if LeaseExpired(job, now) {
          expired := expired + 1;
          if planning { plan := plan + [RequeueExpiredLease(job.id)]; }
        }
        if (job.state.Pending? || job.state.RetryScheduled?) && selected[i] !in dispatches {
          missing := missing + 1;
          if planning { plan := plan + [RecreateDispatch(job.id)]; }
        }
      }
      assert selected[..|selected|] == selected;
      return Report(|selected|, counts, expired, missing, plan);
    }

    method SelectKeys(tenant: Name, jobIds: seq<Name>) returns (selected: seq<Key>)
      ensures selected == Selected(order, tenant, jobIds)
    {
      selected := [];
      for i := 0 to |order|
        invariant selected == Selected(order[..i], tenant, jobIds)
      {
        assert order[..i + 1][..i] == order[..i];
        if Selects(order[i], tenant, jobIds) { selected := selected + [order[i]]; }
      }
      assert order[..|order|] == order;
    }
  }

  lemma {:induction false} SelectedKnown(order: seq<Key>, tenant: Name, jobIds: seq<Name>)
    ensures forall i :: 0 <= i < |Selected(order, tenant, jobIds)| ==> Selected(order, tenant, jobIds)[i] in order
  {
    if order != [] { SelectedKnown(order[..|order| - 1], tenant, jobIds); }
  }

  /** The state counts of a report add up to the number of inspected jobs. */
  lemma {:induction false} CountsAddUp(keys: seq<Key>, jobs: map<Key, Job>, counts: map<JobState, int>)
    requires forall i :: 0 <= i < |keys| ==> keys[i] in jobs
    requires forall state :: Tally(counts, state) == CountIn(keys, jobs, state)
    ensures TotalOf(counts) == |keys|
  {
    SumOfCounts(keys, jobs);
  }

  function SumIn(keys: seq<Key>, jobs: map<Key, Job>): int
    requires forall i :: 0 <= i < |keys| ==> keys[i] in jobs
  {
    CountIn(keys, jobs, Pending) + CountIn(keys, jobs, Dispatching) + CountIn(keys, jobs, Claimed)
    + CountIn(keys, jobs, Running) + CountIn(keys, jobs, WaitingApproval) + CountIn(keys, jobs, WaitingTimer)
    + CountIn(keys, jobs, WaitingCommand) + CountIn(keys, jobs, RetryScheduled) + CountIn(keys, jobs, Completed)
    + CountIn(keys, jobs, FailedTerminal) + CountIn(keys, jobs, DeadLettered) + CountIn(keys, jobs, Cancelled)
  }

  lemma {:induction false} SumOfCounts(keys: seq<Key>, jobs: map<Key, Job>)
    requires forall i :: 0 <= i < |keys| ==> keys[i] in jobs
    ensures SumIn(keys, jobs) == |keys|
  {
    if keys != [] { SumOfCounts(keys[..|keys| - 1], jobs); }
  }
}
