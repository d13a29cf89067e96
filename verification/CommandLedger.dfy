/**
 The durable command ledger (`MemoryCommandStore` in app/commands.py) as a value: its maps, its
 outbox and one function per operation.  An operation returns the ledger it leaves behind together
 with its result, so a refused call is a result like any other.
 */
module CommandLedger {
  import opened Identities

  // ---------------------------------------------------------------- data

  datatype CommandState =
    | Persisted | Queued | Dispatching | Accepted | ReadbackPending
    | Completed | Failed | ReconciliationRequired | DeadLettered | Cancelled

  datatype Destination = TemporalCommand | OdooCommand | AdapterCommand | Unsupported

  datatype MutationAction = Cancel | Reconcile | Retry

  /** A calling principal as it is embedded in calling payloads. */
  datatype Principal = Principal(
    tenant: Name, subject: Name, employee: Name, campaign: Name, businessUnit: Name, extension: Name)

  /** The content of a call request; `details` stands for the fields no rule looks at. */
  datatype CallRequest = CallRequest(
    employee: Name, campaign: Name, businessUnit: Name, destination: Name, destinationClass: Name,
    callerId: Name, leadId: int, details: Name)

  /** The authority for one call. */
  datatype CallGrant = CallGrant(
    reference: Name, principal: Principal, destination: Name, callerId: Name, leadId: int,
    notBefore: Time, expiresAt: Time, sourceSha: Name)

  /** One alert of an Alertmanager webhook; `details` stands for the remaining labels and annotations. */
  datatype Alert = Alert(
    fingerprint: Name, firing: bool, startsAt: Time, endsAt: Time,
    severity: Name, environment: Name, details: Name, generatorUrl: Name)

  /** The payloads whose content the model looks at; any other payload is opaque. */
  datatype Payload =
    | Plain(body: Name)
    | OriginateCall(actor: Principal, originate: CallRequest, authorizationReference: Name, policy: CallGrant)
    | HangupCall(actor: Principal, originate: CallRequest, originOperation: Name, callId: Name,
                 authorizationReference: Name, policy: CallGrant, reason: Name)
    | AlertMail(incident: Name, groupKey: Name, alert: Alert, firstSeenAt: Time, correlationId: Name,
                sender: Name, recipient: Name, replyTo: Name, senderPolicy: Name, recipientPolicy: Name,
                repeated: bool)

  datatype Envelope = Envelope(
    commandId: Name, commandType: Name, target: Name, tenant: Name, requestedBy: Name,
    correlationId: Name, idempotencyKey: Name, capability: Name, payload: Payload)

  /** Provider evidence: the entries that calling looks at, and the rest. */
  datatype Evidence = Evidence(
    callState: Option<Name>, operationId: Option<Name>, tenant: Option<Name>,
    internalOnly: Option<bool>, externalDialing: Option<bool>, other: Name)

  datatype Operation = Operation(
    commandId: Name, tenant: Name, commandType: Name, requestedBy: Name, correlationId: Name,
    idempotencyKey: Name, capability: Name, state: CommandState,
    providerOperationId: Option<Name>, readbackEvidence: Option<Evidence>,
    readbackDigest: Option<Evidence>, lastError: Option<Name>,
    createdAt: Time, updatedAt: Time, resourceVersion: int,
    cancelledAt: Option<Time>, cancellationReason: Option<Name>,
    reconciliationRequestedAt: Option<Time>, reconciliationReason: Option<Name>,
    duplicate: bool)

  /** Content digests; the middleware records the first form and still accepts the second. */
  datatype CommandDigest =
    | Authenticated(command: Envelope, client: Name)
    | Legacy(command: Envelope)

  datatype Entry = Entry(digest: CommandDigest, operation: Operation)

  datatype Event = Event(
    eventId: int, operationId: Name, previous: Option<CommandState>, next: CommandState,
    actor: Name, reason: Option<Name>, action: Option<MutationAction>, createdAt: Time)

  datatype SafeError = OperationFailed | ProviderReadbackMismatch

  datatype Attempt = Attempt(
    attemptId: int, operationId: Name, number: int, state: CommandState,
    providerOperationId: Option<Name>, safeError: Option<SafeError>,
    startedAt: Time, finishedAt: Option<Time>)

  datatype Intent = Intent(
    id: int, tenant: Name, commandId: Name, destination: Destination, eventType: Name,
    idempotencyKey: Name, payload: Envelope,
    attemptCount: int, nextAttemptAt: Time, leaseOwner: Option<Name>, leaseUntil: Option<Time>,
    completedAt: Option<Time>, deadLetteredAt: Option<Time>, cancelledAt: Option<Time>,
    reconciliationRequiredAt: Option<Time>)

  datatype Key = Key(tenant: Name, id: Name)
  datatype IdempotencyKey = IdempotencyKey(tenant: Name, key: Name)
  datatype MutationKey = MutationKey(tenant: Name, id: Name, action: MutationAction, actor: Name, key: Name)
  datatype MutationRequest = MutationRequest(expectedVersion: int, reason: Name)
  datatype Mutation = Mutation(request: MutationRequest, operation: Operation)

  datatype Error = NotFound | Conflict

  /** Everything the ledger keeps under the identity of one command. */
  datatype Record = Record(digest: CommandDigest, operation: Operation, events: seq<Event>, attempts: seq<Attempt>)

  datatype Ledger = Ledger(
    records: map<Key, Record>,
    index: map<IdempotencyKey, Entry>,
    mutations: map<MutationKey, Mutation>,
    outbox: seq<Intent>)

  const EMPTY := Ledger(map[], map[], map[], [])

  function KeyOf(command: Envelope): Key { Key(command.tenant, command.commandId) }

  // ---------------------------------------------------------------- tables

  /** ALLOWED_COMMAND_TRANSITIONS. */
  function AllowedNext(s: CommandState): set<CommandState> {
    match s
    case Persisted => {Queued, Cancelled}
    case Queued => {Dispatching, DeadLettered, Cancelled}
    case Dispatching => {Accepted, Failed, ReconciliationRequired}
    case Accepted => {ReadbackPending, ReconciliationRequired}
    case ReadbackPending => {Completed, Failed, ReconciliationRequired}
    case ReconciliationRequired => {Queued, DeadLettered}
    case Failed => {Queued, DeadLettered}
    case Completed => {}
    case DeadLettered => {}
    case Cancelled => {}
  }

  predicate Absorbing(s: CommandState) {
    s.Completed? || s.DeadLettered? || s.Cancelled?
  }

  predicate NotCancellable(s: CommandState) {
    s.Completed? || s.Failed? || s.ReconciliationRequired? || s.DeadLettered? || s.Cancelled?
  }

  predicate Reconcilable(s: CommandState) {
    s.Dispatching? || s.Accepted? || s.ReadbackPending? || s.ReconciliationRequired?
  }

  predicate DigestMatches(persisted: CommandDigest, command: Envelope, client: Name) {
    persisted == Authenticated(command, client) || persisted == Legacy(command)
  }

  // ---------------------------------------------------------------- outbox

  predicate Mine(intent: Intent, key: Key) {
    intent.tenant == key.tenant && intent.commandId == key.id
  }

  predicate Live(intent: Intent) {
    intent.completedAt.None? && intent.deadLetteredAt.None? && intent.cancelledAt.None?
  }

  predicate Leased(intent: Intent) {
    intent.leaseOwner.Some? && intent.completedAt.None?
  }

  predicate ActiveLease(outbox: seq<Intent>, key: Key) {
    exists i :: 0 <= i < |outbox| && Mine(outbox[i], key) && Leased(outbox[i])
  }

  function CancelIntent(intent: Intent, key: Key): Intent {
    if Mine(intent, key) && intent.completedAt.None? && intent.leaseOwner.None? && intent.cancelledAt.None?
    then intent.(cancelledAt := Some(0)) else intent
  }

  function CancelIntents(outbox: seq<Intent>, key: Key): seq<Intent> {
    seq(|outbox|, i requires 0 <= i < |outbox| => CancelIntent(outbox[i], key))
  }

  function QuarantineIntent(intent: Intent, key: Key): Intent {
    if Mine(intent, key) && Live(intent)
    then intent.(reconciliationRequiredAt := Or(intent.reconciliationRequiredAt, Some(0)),
                 leaseOwner := None, leaseUntil := None)
    else intent
  }

  function QuarantineIntents(outbox: seq<Intent>, key: Key): seq<Intent> {
    seq(|outbox|, i requires 0 <= i < |outbox| => QuarantineIntent(outbox[i], key))
  }

  /** The newest intent of a command, if it has one. */
  function LastIntent(outbox: seq<Intent>, key: Key): (r: Option<Intent>)
    ensures r.Some? ==> r.value in outbox && Mine(r.value, key)
    ensures r.None? ==> forall i :: 0 <= i < |outbox| ==> !Mine(outbox[i], key)
  {
    if outbox == [] then None
    else if Mine(outbox[|outbox| - 1], key) then Some(outbox[|outbox| - 1])
    else LastIntent(outbox[..|outbox| - 1], key)
  }

  function NewIntent(id: int, key: Key, destination: Destination, eventType: Name, idempotencyKey: Name,
                     payload: Envelope): Intent {
    Intent(id, key.tenant, key.id, destination, eventType, idempotencyKey, payload,
           0, 0, None, None, None, None, None, None)
  }

  // ---------------------------------------------------------------- operations

  function NewOperation(command: Envelope, now: Time): Operation {
    Operation(command.commandId, command.tenant, command.commandType, command.requestedBy,
              command.correlationId, command.idempotencyKey, command.capability, Persisted,
              None, None, None, None, now, now, 1, None, None, None, None, false)
  }

  function NewRecord(command: Envelope, client: Name, now: Time): Record {
    Record(Authenticated(command, client), NewOperation(command, now),
           [Event(1, command.commandId, None, Persisted, command.requestedBy, None, None, now)], [])
  }

  function EntryOf(r: Record): Entry { Entry(r.digest, r.operation) }

  function Submit(l: Ledger, command: Envelope, client: Name, destination: Destination, now: Time)
    : (Ledger, Result<Operation, Error>)
  {
    var key := KeyOf(command);
    var index := IdempotencyKey(command.tenant, command.idempotencyKey);
    if destination.Unsupported? then (l, Err(Conflict))
    else if key in l.records && index in l.index
         && l.records[key].operation.commandId != l.index[index].operation.commandId then
      (l, Err(Conflict))
    else if key in l.records || index in l.index then
      var existing := if key in l.records then EntryOf(l.records[key]) else l.index[index];
      if DigestMatches(existing.digest, command, client)
      then (l, Ok(existing.operation.(duplicate := true)))
      else (l, Err(Conflict))
    else
      var record := NewRecord(command, client, now);
      (Ledger(
         l.records[key := record],
         l.index[index := EntryOf(record)],
         l.mutations,
         l.outbox + [NewIntent(|l.outbox| + 1, key, destination, command.commandType,
                               command.idempotencyKey, command)]),
       Ok(record.operation))
  }

  /** Appends the audit event for a change of `key` from one state to another. */
  function Logged(events: seq<Event>, key: Key, previous: CommandState, next: CommandState,
                  actor: Name, reason: Name, action: Option<MutationAction>, now: Time): seq<Event> {
    events + [Event(|events| + 1, key.id, Some(previous), next, actor, Some(reason), action, now)]
  }

  function TransitionAttempts(attempts: seq<Attempt>, key: Key, next: CommandState,
                              provider: Option<Name>, now: Time): seq<Attempt> {
    var n := |attempts|;
    if next.Dispatching? then
      attempts + [Attempt(n + 1, key.id, n + 1, next, provider, None, now, None)]
    else if n > 0 then
      attempts[n - 1 := attempts[n - 1].(
        state := next,
        providerOperationId := Or(provider, attempts[n - 1].providerOperationId),
        safeError := if next.Failed? || next.ReconciliationRequired? then Some(OperationFailed) else None,
        finishedAt := if next.Completed? || next.Failed? || next.ReconciliationRequired? then Some(now) else None)]
    else attempts
  }

  predicate StaleFence(attempts: seq<Attempt>, next: CommandState, expectedAttempt: Option<int>) {
    expectedAttempt.Some? && !next.Dispatching? && |attempts| != expectedAttempt.value
  }

  /** A stale fencing token or a state the table does not lead to. */
  predicate TransitionRefused(r: Record, next: CommandState, expectedAttempt: Option<int>) {
    StaleFence(r.attempts, next, expectedAttempt) || next !in AllowedNext(r.operation.state)
  }

  function TransitionOperation(op: Operation, next: CommandState, reason: Name, provider: Option<Name>,
                               evidence: Option<Evidence>, now: Time): Operation {
    op.(state := next,
        providerOperationId := Or(provider, op.providerOperationId),
        readbackEvidence := Or(evidence, op.readbackEvidence),
        readbackDigest := Or(evidence, op.readbackDigest),
        lastError := if next.Failed? || next.ReconciliationRequired? then Some(reason) else None,
        updatedAt := now)
  }

  function TransitionRecord(r: Record, key: Key, next: CommandState, actor: Name, reason: Name,
                            provider: Option<Name>, evidence: Option<Evidence>, now: Time): Record {
    Record(r.digest,
           TransitionOperation(r.operation, next, reason, provider, evidence, now),
           Logged(r.events, key, r.operation.state, next, actor, reason, None, now),
           TransitionAttempts(r.attempts, key, next, provider, now))
  }

  /** Stores a changed record and refreshes its index entry. */
  function Put(l: Ledger, key: Key, r: Record): Ledger {
    l.(records := l.records[key := r],
       index := l.index[IdempotencyKey(key.tenant, r.operation.idempotencyKey) := EntryOf(r)])
  }

  function Transition(l: Ledger, key: Key, next: CommandState, actor: Name, reason: Name,
                      provider: Option<Name>, evidence: Option<Evidence>,
                      expectedAttempt: Option<int>, now: Time)
    : (Ledger, Result<Operation, Error>)
  {
    if evidence.Some? && !next.Completed? && !next.ReconciliationRequired? then (l, Err(Conflict))
    else if key !in l.records then (l, Err(NotFound))
    else
      var r := l.records[key];
      if TransitionRefused(r, next, expectedAttempt) then (l, Err(Conflict))
      else
        var r' := TransitionRecord(r, key, next, actor, reason, provider, evidence, now);
        (Put(l, key, r'), Ok(r'.operation))
  }

  function ReconcileAttempts(attempts: seq<Attempt>, matched: bool, provider: Option<Name>, now: Time)
    : seq<Attempt>
  {
    var n := |attempts|;
    if n > 0 then
      attempts[n - 1 := attempts[n - 1].(
        state := if matched then Completed else ReconciliationRequired,
        providerOperationId := Or(provider, attempts[n - 1].providerOperationId),
        safeError := if matched then None else Some(ProviderReadbackMismatch),
        finishedAt := Some(now))]
    else attempts
  }

  function ReconcileOperation(op: Operation, matched: bool, reason: Name, provider: Option<Name>,
                              evidence: Evidence, now: Time): Operation {
    op.(state := if matched then Completed else ReconciliationRequired,
        providerOperationId := Or(provider, op.providerOperationId),
        readbackEvidence := Some(evidence),
        readbackDigest := Some(evidence),
        lastError := if matched then None else Some(reason),
        reconciliationReason := if matched then op.reconciliationReason else Some(reason),
        resourceVersion := op.resourceVersion + 1,
        updatedAt := now)
  }

  function ReconcileRecord(r: Record, key: Key, matched: bool, actor: Name, reason: Name,
                           provider: Option<Name>, evidence: Evidence, now: Time): Record {
    var op' := ReconcileOperation(r.operation, matched, reason, provider, evidence, now);
    Record(r.digest, op',
           Logged(r.events, key, ReconciliationRequired, op'.state, actor, reason, None, now),
           ReconcileAttempts(r.attempts, matched, provider, now))
  }

  function ReconcileReadback(l: Ledger, key: Key, matched: bool, actor: Name, reason: Name,
                             provider: Option<Name>, evidence: Evidence,
                             expectedVersion: Option<int>, now: Time)
    : (Ledger, Result<Operation, Error>)
  {
    if key !in l.records then (l, Err(NotFound))
    else
      var r := l.records[key];
      if !r.operation.state.ReconciliationRequired? then (l, Err(Conflict))
      else if expectedVersion.Some? && r.operation.resourceVersion != expectedVersion.value then (l, Err(Conflict))
      else
        var r' := ReconcileRecord(r, key, matched, actor, reason, provider, evidence, now);
        (Put(l, key, r'), Ok(r'.operation))
  }

  /** What an operator mutation does to the operation, or None when its state forbids it. */
  function MutatedOperation(op: Operation, action: MutationAction, activeLease: bool, reason: Name, now: Time)
    : Option<Operation>
  {
    var bumped := op.(resourceVersion := op.resourceVersion + 1, updatedAt := now);
    match action
    case Cancel =>
      if NotCancellable(op.state) then None
      else
        var immediate := (op.state.Persisted? || op.state.Queued?) && !activeLease;
        Some(bumped.(state := if immediate then Cancelled else ReconciliationRequired,
                     cancelledAt := if immediate then Some(now) else None,
                     cancellationReason := Some(reason)))
    case Reconcile =>
      if !Reconcilable(op.state) then None
      else Some(bumped.(state := ReconciliationRequired, reconciliationRequestedAt := Some(now),
                        reconciliationReason := Some(reason)))
    case Retry =>
      if !op.state.Failed? then None
      else Some(bumped.(state := Queued, lastError := None))
  }

  /** A command always has an intent to copy from; the fallback is never taken. */
  function RetryIntent(outbox: seq<Intent>, key: Key, r: Record, actor: Name, idempotencyKey: Name): Intent {
    var source := LastIntent(outbox, key);
    NewIntent(|outbox| + 1, key,
              if source.Some? then source.value.destination else TemporalCommand,
              r.operation.commandType, RetryKey(key.tenant, key.id, actor, idempotencyKey),
              if source.Some? then source.value.payload else r.digest.command)
  }

  function MutatedOutbox(outbox: seq<Intent>, key: Key, r: Record, action: MutationAction,
                         after: CommandState, actor: Name, idempotencyKey: Name): seq<Intent> {
    match action
    case Cancel => if after.Cancelled? then CancelIntents(outbox, key) else outbox
    case Reconcile => QuarantineIntents(outbox, key)
    case Retry => outbox + [RetryIntent(outbox, key, r, actor, idempotencyKey)]
  }

  function MutatedRecord(r: Record, key: Key, op': Operation, action: MutationAction, actor: Name, reason: Name,
                         now: Time): Record {
    r.(operation := op',
       events := Logged(r.events, key, r.operation.state, op'.state, actor, reason, Some(action), now))
  }

  /** An operator mutation.  Unlike the other two writers it does not refresh the index. */
  function Mutate(l: Ledger, key: Key, action: MutationAction, actor: Name, idempotencyKey: Name,
                  expectedVersion: int, reason: Name, now: Time)
    : (Ledger, Result<Operation, Error>)
  {
    var request := MutationRequest(expectedVersion, reason);
    var mutation := MutationKey(key.tenant, key.id, action, actor, idempotencyKey);
    if key !in l.records then (l, Err(NotFound))
    else if mutation in l.mutations then
      if l.mutations[mutation].request != request then (l, Err(Conflict))
      else (l, Ok(l.mutations[mutation].operation.(duplicate := true)))
    else
      var r := l.records[key];
      var changed := MutatedOperation(r.operation, action, ActiveLease(l.outbox, key), reason, now);
      if r.operation.resourceVersion != expectedVersion || changed.None? then (l, Err(Conflict))
      else
        var op' := changed.value;
        (Ledger(
           l.records[key := MutatedRecord(r, key, op', action, actor, reason, now)],
           l.index,
           l.mutations[mutation := Mutation(request, op')],
           MutatedOutbox(l.outbox, key, r, action, op'.state, actor, idempotencyKey)),
         Ok(op'))
  }

  /**
   What the execution bus and the reconciliation source may do to one intent: lease, release,
   quarantine, reschedule, complete or dead-letter it.  They never clear a completion or dead-letter
   stamp and never touch the cancellation stamp or the identity of the intent.
   */
  predicate BusMay(before: Intent, after: Intent) {
    && after.id == before.id && after.tenant == before.tenant && after.commandId == before.commandId
    && after.destination == before.destination && after.payload == before.payload
    && after.eventType == before.eventType && after.idempotencyKey == before.idempotencyKey
    && after.cancelledAt == before.cancelledAt
    && (before.completedAt.Some? ==> after.completedAt.Some?)
    && (before.deadLetteredAt.Some? ==> after.deadLetteredAt.Some?)
  }

  function BusUpdate(l: Ledger, index: int, intent: Intent): Ledger {
    if 0 <= index < |l.outbox| && BusMay(l.outbox[index], intent)
    then l.(outbox := l.outbox[index := intent]) else l
  }

  // ---------------------------------------------------------------- runs

  datatype Step =
    | SubmitStep(command: Envelope, client: Name, destination: Destination, at: Time)
    | TransitionStep(key: Key, next: CommandState, actor: Name, reason: Name, provider: Option<Name>,
                     evidence: Option<Evidence>, expectedAttempt: Option<int>, at: Time)
    | ReconcileStep(key: Key, matched: bool, actor: Name, reason: Name, provider: Option<Name>,
                    readback: Evidence, expectedVersion: Option<int>, at: Time)
    | MutateStep(key: Key, action: MutationAction, actor: Name, idempotencyKey: Name,
                 version: int, reason: Name, at: Time)
    | BusStep(index: int, intent: Intent)

  function Apply(l: Ledger, step: Step): Ledger {
    match step
    case SubmitStep(command, client, destination, at) => Submit(l, command, client, destination, at).0
    case TransitionStep(key, next, actor, reason, provider, evidence, expectedAttempt, at) =>
      Transition(l, key, next, actor, reason, provider, evidence, expectedAttempt, at).0
    case ReconcileStep(key, matched, actor, reason, provider, readback, expectedVersion, at) =>
      ReconcileReadback(l, key, matched, actor, reason, provider, readback, expectedVersion, at).0
    case MutateStep(key, action, actor, idempotencyKey, version, reason, at) =>
      Mutate(l, key, action, actor, idempotencyKey, version, reason, at).0
    case BusStep(index, intent) => BusUpdate(l, index, intent)
  }

  /** The ledger after a run of steps from `l`. */
  function Run(l: Ledger, steps: seq<Step>): Ledger {
    if steps == [] then l else Apply(Run(l, steps[..|steps| - 1]), steps[|steps| - 1])
  }
}
