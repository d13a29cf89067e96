/**
 The Odoo campaign saga (app/odoo_campaign_saga.py): one durable row, any number of workers that
 each hold a possibly stale copy of it, and lease recovery.  A worker's dispatch is cut at every
 point where another worker may run; each piece is one step.  `_guarded_update` is the atomic
 conditional write that its documentation describes.
 */
module CampaignSaga {
  import opened Identities

  // ---------------------------------------------------------------- data

  datatype Status = Pending | Reserved | Retry | Completed | DeadLetter

  datatype ErrorClass =
    | TransportError | UpstreamUnavailable | RouteUnresolved
    | DesiredStateRejected | StaleConfigurationVersion | ConfigurationVersionMismatch
    | ReadbackRejected | LeaseExpired | LeaseExpiredRecovered
    | InvalidControlEvent | ScopeNotAllowed

  /** The columns that enrollment sets once. */
  datatype Control = Control(
    commandId: Name, organization: Name, businessUnit: Name, campaign: Name,
    configurationVersion: int, manifestRef: Name, manifestHash: Name)

  datatype Row = Row(
    control: Control, status: Status, attempts: int,
    reservedAt: Option<Time>, leaseExpiresAt: Option<Time>, nextAttemptAt: Option<Time>,
    lastError: Option<ErrorClass>,
    effectiveState: Option<Name>, evidence: Option<Name>, observedAt: Option<Time>,
    readbackKey: Option<Name>, readbackAttempt: Option<int>,
    readbackId: Option<Name>, completedAt: Option<Time>)

  datatype Observation = Observation(effectiveState: Name, evidence: Name, observedAt: Time)

  /** What is reported to Odoo under an idempotency key. */
  datatype Readback = Readback(
    control: Control, key: Option<Name>, attempt: Option<int>,
    effectiveState: Option<Name>, evidence: Option<Name>, observedAt: Option<Time>)

  datatype Fault = StaleVersion | Unavailable | Transport | Unresolved | Rejected

  datatype DesiredReply =
    | DesiredFault(fault: Fault)
    | DesiredMalformed
    | Desired(campaign: Name, configurationVersion: int, manifestHash: Name)

  datatype ReadbackReply = ReadbackFault(fault: Fault) | ReadbackAccepted(id: Name)

  /** What a dispatch decided to write when it ends. */
  datatype Verdict = Verdict(status: Status, error: Option<ErrorClass>, backoff: int, readbackId: Option<Name>)

  datatype Outcome = OutcomeCompleted | OutcomeRetry | OutcomeStale | OutcomeDeadLetter

  datatype Audit = Audit(outcome: Outcome, decision: Status, attempt: int, error: Option<ErrorClass>,
                         effectiveState: Option<Name>, readbackId: Option<Name>)

  // ---------------------------------------------------------------- enrollment

  /** The payload of an outbox event: the validated control fields, or None when validation fails. */
  datatype OutboxEvent = OutboxEvent(salvaged: Control, validated: Option<Control>)

  predicate InScope(c: Control, binding: Option<(Name, Name, Name)>) {
    binding.None? || (c.organization, c.businessUnit, c.campaign) == binding.value
  }

  function SagaForEvent(event: OutboxEvent, binding: Option<(Name, Name, Name)>): Row {
    var (control, status, error) :=
      if event.validated.None? then (event.salvaged, DeadLetter, Some(InvalidControlEvent))
      else if InScope(event.validated.value, binding) then (event.validated.value, Pending, None)
      else (event.validated.value, DeadLetter, Some(ScopeNotAllowed));
    Row(control, status, 0, None, None, None, error, None, None, None, None, None, None, None)
  }

  // ---------------------------------------------------------------- the row

  predicate Claimable(row: Row, now: Time) {
    (row.status.Pending? || row.status.Retry?) && (row.nextAttemptAt.None? || row.nextAttemptAt.value <= now)
  }

  function ClaimRow(row: Row, now: Time, leaseSeconds: int): Row {
    row.(status := Reserved, attempts := row.attempts + 1, reservedAt := Some(now),
         leaseExpiresAt := Some(now + leaseSeconds), nextAttemptAt := None)
  }

  predicate Expired(row: Row, now: Time) {
    row.status.Reserved? && row.leaseExpiresAt.Some? && row.leaseExpiresAt.value <= now
  }

  function RecoverRow(row: Row, now: Time, limit: int): Row {
    var released := row.(reservedAt := None, leaseExpiresAt := None);
    if row.attempts >= limit
    then released.(status := DeadLetter, nextAttemptAt := None, lastError := Some(LeaseExpired))
    else released.(status := Retry, nextAttemptAt := Some(now), lastError := Some(LeaseExpiredRecovered))
  }

  /** The claim a copy was loaded under still holds the row. */
  predicate Owns(row: Row, local: Row) {
    row.status.Reserved? && row.attempts == local.attempts && row.reservedAt == local.reservedAt
  }

  function Renewed(row: Row, now: Time, leaseSeconds: int): Row {
    row.(leaseExpiresAt := Some(now + leaseSeconds))
  }

  function Observed(row: Row, o: Observation, key: Name, attempt: int): Row {
    row.(effectiveState := Some(o.effectiveState), evidence := Some(o.evidence), observedAt := Some(o.observedAt),
         readbackKey := Some(key), readbackAttempt := Some(attempt))
  }

  function Ended(row: Row, v: Verdict, now: Time): Row {
    var closed := row.(status := v.status, lastError := v.error, reservedAt := None, leaseExpiresAt := None,
                       nextAttemptAt := if v.status.Retry? then Some(now + v.backoff) else None);
    if v.status.Completed? then closed.(readbackId := v.readbackId, completedAt := Some(now)) else closed
  }

  // ---------------------------------------------------------------- decisions

  predicate TransportClass(e: Option<ErrorClass>) {
    e == Some(TransportError) || e == Some(UpstreamUnavailable) || e == Some(RouteUnresolved)
  }

  predicate ReusableObservation(row: Row) {
    row.readbackKey.Some? && row.effectiveState.Some? && row.observedAt.Some? && TransportClass(row.lastError)
  }

  function ReadbackOf(row: Row): Readback {
    Readback(row.control, row.readbackKey, row.readbackAttempt, row.effectiveState, row.evidence, row.observedAt)
  }

  function Pow2(n: int): int { if n <= 0 then 1 else 2 * Pow2(n - 1) }

  function RetryableClass(f: Fault): Option<ErrorClass> {
    match f
    case Unavailable => Some(UpstreamUnavailable)
    case Transport => Some(TransportError)
    case Unresolved => Some(RouteUnresolved)
    case StaleVersion => None
    case Rejected => None
  }

  function RetryOrDeadLetter(attempts: int, limit: int, error: ErrorClass): Verdict {
    if attempts >= limit then Verdict(DeadLetter, Some(error), 0, None)
    else Verdict(Retry, Some(error), 5 * Pow2(attempts - 1), None)
  }

  function Fail(attempts: int, limit: int, fault: Fault, rejected: ErrorClass): Verdict {
    if fault.StaleVersion? then Verdict(DeadLetter, Some(StaleConfigurationVersion), 0, None)
    else if RetryableClass(fault).Some? then RetryOrDeadLetter(attempts, limit, RetryableClass(fault).value)
    else Verdict(DeadLetter, Some(rejected), 0, None)
  }

  /** None: the command is current and the dispatch goes on. */
  function JudgeDesired(local: Row, limit: int, reply: DesiredReply): Option<Verdict> {
    match reply
    case DesiredFault(fault) => Some(Fail(local.attempts, limit, fault, DesiredStateRejected))
    case DesiredMalformed => Some(Verdict(DeadLetter, Some(DesiredStateRejected), 0, None))
    case Desired(campaign, version, hash) =>
      if campaign != local.control.campaign then Some(Verdict(DeadLetter, Some(DesiredStateRejected), 0, None))
      else if local.control.configurationVersion < version then
        Some(Verdict(DeadLetter, Some(StaleConfigurationVersion), 0, None))
      else if local.control.configurationVersion > version || local.control.manifestHash != hash then
        Some(Verdict(DeadLetter, Some(ConfigurationVersionMismatch), 0, None))
      else None
  }

  function JudgeReadback(local: Row, limit: int, reply: ReadbackReply): Verdict {
    match reply
    case ReadbackFault(fault) => Fail(local.attempts, limit, fault, ReadbackRejected)
    case ReadbackAccepted(id) => Verdict(Completed, None, 0, Some(id))
  }

  function OutcomeOf(v: Verdict): Outcome {
    if v.status.Completed? then OutcomeCompleted
    else if v.status.Retry? then OutcomeRetry
    else if v.error == Some(StaleConfigurationVersion) then OutcomeStale
    else OutcomeDeadLetter
  }

  function AuditOf(local: Row, v: Verdict): Audit {
    Audit(OutcomeOf(v), v.status, local.attempts, v.error, local.effectiveState, v.readbackId)
  }

  // ---------------------------------------------------------------- the system

  datatype Worker =
    | Idle
    | Loaded(local: Row)
    | Renewing(local: Row)
    | Deciding(local: Row)
    | Sending(local: Row)
    | Awaiting(local: Row)
    | Ending(local: Row, verdict: Verdict)

  /** How and when a claim came to its end, and when the row it left behind may be claimed again. */
  datatype Closing =
    | Terminated(claim: int, at: Time, retryAt: Option<Time>, audit: Audit)
    | Recovered(claim: int, at: Time, retryAt: Option<Time>)

  datatype Sent = Sent(claim: int, readback: Readback)

  /** What a dispatch under a claim read as the desired state. */
  datatype DesiredRead = DesiredRead(claim: int, reply: DesiredReply)

  /** What a dispatch under a claim heard about its readback. */
  datatype Answered = Answered(claim: int, reply: ReadbackReply)

  /** What the adapter reported to a dispatch under a claim. */
  datatype Measured = Measured(claim: int, observation: Observation)

  /** The row, the workers, and what has happened so far. */
  datatype System = System(
    row: Row,
    workers: map<Name, Worker>,
    issued: seq<Readback>,     // contents made durable under each readback key, in order
    sent: seq<Sent>,           // readbacks that left for Odoo
    closings: seq<Closing>,
    audits: seq<Audit>,
    desires: seq<DesiredRead>, // desired-state replies, in order
    answers: seq<Answered>,    // replies to readbacks, in order
    measured: seq<Measured>)   // observations that were made durable, in order

  function Enrolled(event: OutboxEvent, binding: Option<(Name, Name, Name)>): System {
    System(SagaForEvent(event, binding), map[], [], [], [], [], [], [], [])
  }

  datatype Step =
    | Claim(at: Time, leaseSeconds: int)
    | Recover(at: Time)
    | Load(worker: Name)
    | ReadDesired(worker: Name, desired: DesiredReply)
    | Renew(worker: Name, at: Time, leaseSeconds: int)
    | Observe(worker: Name, observation: Observation)
    | Send(worker: Name)
    | Answer(worker: Name, answer: ReadbackReply)
    | Terminate(worker: Name, at: Time)
    | Crash(worker: Name)

  function WorkerOf(s: System, w: Name): Worker { if w in s.workers then s.workers[w] else Idle }

  function Put(s: System, w: Name, worker: Worker): System { s.(workers := s.workers[w := worker]) }

  /** The guarded write that stores a new observation together with its key. */
  function ObserveStep(s: System, w: Name, local: Row, o: Observation): System {
    var key := Random(|s.issued|);
    if !Owns(s.row, local) then Put(s, w, Idle)
    else
      var row := Observed(s.row, o, key, local.attempts);
      var copy := Observed(local, o, key, local.attempts);
      Put(s, w, Sending(copy)).(row := row, issued := s.issued + [ReadbackOf(copy)],
                                measured := s.measured + [Measured(local.attempts, o)])
  }

  /** The guarded write that ends a claim; its audit row commits or rolls back with it. */
  function TerminateStep(s: System, w: Name, local: Row, v: Verdict, now: Time): System {
    if !Owns(s.row, local) then Put(s, w, Idle)
    else
      var row := Ended(s.row, v, now);
      Put(s, w, Idle).(row := row,
                       closings := s.closings
                                   + [Terminated(local.attempts, now, row.nextAttemptAt, AuditOf(local, v))],
                       audits := s.audits + [AuditOf(local, v)])
  }

  function Apply(s: System, limit: int, step: Step): System {
    match step
    case Claim(at, leaseSeconds) =>
      if leaseSeconds >= 1 && Claimable(s.row, at) then s.(row := ClaimRow(s.row, at, leaseSeconds)) else s
    case Recover(at) =>
      if !Expired(s.row, at) then s
      else
        var row := RecoverRow(s.row, at, limit);
        s.(row := row, closings := s.closings + [Recovered(row.attempts, at, row.nextAttemptAt)])
    case Load(w) =>
      if WorkerOf(s, w).Idle? && s.row.status.Reserved? then Put(s, w, Loaded(s.row)) else s
    case ReadDesired(w, desired) =>
      (match WorkerOf(s, w)
       case Loaded(local) =>
         var verdict := JudgeDesired(local, limit, desired);
         Put(s, w, if verdict.Some? then Ending(local, verdict.value) else Renewing(local))
         .(desires := s.desires + [DesiredRead(local.attempts, desired)])
       case _ => s)
    case Renew(w, at, leaseSeconds) =>
      (match WorkerOf(s, w)
       case Renewing(local) =>
         if !Owns(s.row, local) then Put(s, w, Idle)
         else Put(s, w, Deciding(Renewed(local, at, leaseSeconds))).(row := Renewed(s.row, at, leaseSeconds))
       case _ => s)
    case Observe(w, observation) =>
      (match WorkerOf(s, w)
       case Deciding(local) =>
         if ReusableObservation(local) then Put(s, w, Sending(local)) else ObserveStep(s, w, local, observation)
       case _ => s)
    case Send(w) =>
      (match WorkerOf(s, w)
       case Sending(local) =>
         Put(s, w, Awaiting(local)).(sent := s.sent + [Sent(local.attempts, ReadbackOf(local))])
       case _ => s)
    case Answer(w, answer) =>
      (match WorkerOf(s, w)
       case Awaiting(local) =>
         Put(s, w, Ending(local, JudgeReadback(local, limit, answer)))
         .(answers := s.answers + [Answered(local.attempts, answer)])
       case _ => s)
    case Terminate(w, at) =>
      (match WorkerOf(s, w)
       case Ending(local, verdict) => TerminateStep(s, w, local, verdict, at)
       case _ => s)
    case Crash(w) => Put(s, w, Idle)
  }

  function Run(s: System, limit: int, steps: seq<Step>): System {
    if steps == [] then s else Apply(Run(s, limit, steps[..|steps| - 1]), limit, steps[|steps| - 1])
  }

  // ---------------------------------------------------------------- the row in place

  /**
   The row as the workers share it: each method is one transaction that updates columns in place.
   */
  class SagaRow {
    const control: Control
    var status: Status
    var attempts: int
    var reservedAt: Option<Time>
    var leaseExpiresAt: Option<Time>
    var nextAttemptAt: Option<Time>
    var lastError: Option<ErrorClass>
    var effectiveState: Option<Name>
    var evidence: Option<Name>
    var observedAt: Option<Time>
    var readbackKey: Option<Name>
    var readbackAttempt: Option<int>
    var readbackId: Option<Name>
    var completedAt: Option<Time>
    var audits: seq<Audit>

    function Snapshot(): Row reads this {
      Row(control, status, attempts, reservedAt, leaseExpiresAt, nextAttemptAt, lastError, effectiveState, evidence,
          observedAt, readbackKey, readbackAttempt, readbackId, completedAt)
    }

    /**
     Enrolls an event: an invalid one is dead-lettered with what could be salvaged of it, a valid one
     waits for its first claim if it is in scope and is dead-lettered if it is not.
     */
    constructor (event: OutboxEvent, binding: Option<(Name, Name, Name)>)
      ensures event.validated.None? ==>
                control == event.salvaged && status == DeadLetter && lastError == Some(InvalidControlEvent)
      ensures event.validated.Some? && InScope(event.validated.value, binding) ==>
                control == event.validated.value && status == Pending && lastError == None
      ensures event.validated.Some? && !InScope(event.validated.value, binding) ==>
                control == event.validated.value && status == DeadLetter && lastError == Some(ScopeNotAllowed)
      ensures attempts == 0 && reservedAt == None && leaseExpiresAt == None && nextAttemptAt == None
      ensures readbackKey == None && readbackId == None && completedAt == None && audits == []
      ensures forall now: Time :: Claimable(Snapshot(), now) <==> status == Pending
      ensures Snapshot() == SagaForEvent(event, binding)
    {
      control := if event.validated.Some? then event.validated.value else event.salvaged;
      if event.validated.None? {
        status, lastError := DeadLetter, Some(InvalidControlEvent);
      } else if InScope(event.validated.value, binding) {
        status, lastError := Pending, None;
      } else {
        status, lastError := DeadLetter, Some(ScopeNotAllowed);
      }
      attempts, reservedAt, leaseExpiresAt, nextAttemptAt := 0, None, None, None;
      effectiveState, evidence, observedAt, readbackKey, readbackAttempt := None, None, None, None, None;
      readbackId, completedAt, audits := None, None, [];
    }

    method ClaimSaga(now: Time, leaseSeconds: int) returns (claimed: Option<Row>)
      modifies this
      ensures audits == old(audits)
      ensures leaseSeconds >= 1 && Claimable(old(Snapshot()), now) ==>
                Snapshot() == ClaimRow(old(Snapshot()), now, leaseSeconds) && claimed == Some(Snapshot())
      ensures !(leaseSeconds >= 1 && Claimable(old(Snapshot()), now)) ==>
                Snapshot() == old(Snapshot()) && claimed == None
    {
      if leaseSeconds < 1 || !Claimable(Snapshot(), now) { return None; }
      status := Reserved;
      attempts := attempts + 1;
      reservedAt := Some(now);
      leaseExpiresAt := Some(now + leaseSeconds);
      nextAttemptAt := None;
      return Some(Snapshot());
    }

    /** Two conditional updates, the dead-letter one first. */
    method RecoverExpiredLeases(now: Time, limit: int) returns (released: int)
      modifies this
      ensures audits == old(audits)
      ensures released == if Expired(old(Snapshot()), now) then 1 else 0
      ensures Snapshot() == if Expired(old(Snapshot()), now) then RecoverRow(old(Snapshot()), now, limit)
                            else old(Snapshot())
    {
      released := 0;
      if Expired(Snapshot(), now) && attempts >= limit {
        status, nextAttemptAt, lastError := DeadLetter, None, Some(LeaseExpired);
        reservedAt, leaseExpiresAt := None, None;
        released := released + 1;
      }
      if Expired(Snapshot(), now) && attempts < limit {
        status, nextAttemptAt, lastError := Retry, Some(now), Some(LeaseExpiredRecovered);
        reservedAt, leaseExpiresAt := None, None;
        released := released + 1;
      }
    }

    method GuardedRenew(local: Row, now: Time, leaseSeconds: int) returns (kept: bool)
      modifies this`leaseExpiresAt
      ensures kept == Owns(old(Snapshot()), local)
      ensures Snapshot() == if kept then Renewed(old(Snapshot()), now, leaseSeconds) else old(Snapshot())
    {
      if !Owns(Snapshot(), local) { return false; }
      leaseExpiresAt := Some(now + leaseSeconds);
      return true;
    }

    method GuardedObserve(local: Row, o: Observation, key: Name) returns (kept: bool)
      modifies this
      ensures audits == old(audits)
      ensures kept == Owns(old(Snapshot()), local)
      ensures Snapshot() == if kept then Observed(old(Snapshot()), o, key, local.attempts) else old(Snapshot())
    {
      if !Owns(Snapshot(), local) { return false; }
      effectiveState, evidence, observedAt := Some(o.effectiveState), Some(o.evidence), Some(o.observedAt);
      readbackKey, readbackAttempt := Some(key), Some(local.attempts);
      return true;
    }

    /** Adds the audit row, then writes the outcome; a lost reservation rolls both back. */
    method GuardedTerminate(local: Row, v: Verdict, now: Time) returns (kept: bool)
      modifies this
      ensures kept == Owns(old(Snapshot()), local)
      ensures Snapshot() == if kept then Ended(old(Snapshot()), v, now) else old(Snapshot())
      ensures audits == if kept then old(audits) + [AuditOf(local, v)] else old(audits)
    {
      var savepoint := audits;
      audits := audits + [AuditOf(local, v)];
      if !Owns(Snapshot(), local) {
        audits := savepoint;
        return false;
      }
      status, lastError := v.status, v.error;
      reservedAt, leaseExpiresAt := None, None;
      nextAttemptAt := if v.status.Retry? then Some(now + v.backoff) else None;
      if v.status.Completed? {
        readbackId, completedAt := v.readbackId, Some(now);
      }
      return true;
    }
  }
}
