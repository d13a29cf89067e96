/**
 The incident projection (`MemoryIncidentStore` in app/observability_incidents.py) as a value: webhooks,
 status snapshots and operator actions on incidents, and the notification commands they submit to and
 cancel in the command ledger.
 */
module Incidents {
  import opened Identities
  import L = CommandLedger

  // ---------------------------------------------------------------- data

  datatype IncidentState = Firing | Acknowledged | Resolved | Inhibited | Silenced

  /** What Alertmanager reports about an alert. */
  datatype Signal = FiringSignal | ResolvedSignal | InhibitedSignal | SilencedSignal

  datatype EventKind =
    | AlertFiring | AlertReopened | AlertResolved | AlertInhibited | AlertSilenced
    | NotificationRepeat | NotificationSuppressed
    | OperatorAcknowledge | OperatorResolve | OperatorReopen

  datatype Action = Acknowledge | Resolve | Reopen

  datatype NotificationKind = Immediate | Grouped | StateOnly

  datatype NotificationStatus = QueuedStatus | ScheduledStatus | DisabledStatus | StateOnlyStatus

  datatype Incident = Incident(
    id: Name, tenant: Name, fingerprint: Name, groupKey: Name, state: IncidentState,
    severity: Name, environment: Name, details: Name,
    firstSeenAt: Time, lastSeenAt: Time, startsAt: Time, endsAt: Option<Time>,
    acknowledgedAt: Option<Time>, acknowledgedBy: Option<Name>, resolvedAt: Option<Time>,
    deployment: Name, correlationId: Name, version: int, createdAt: Time, updatedAt: Time, duplicate: bool)

  datatype TimelineEvent = TimelineEvent(
    eventId: int, incident: Name, kind: EventKind, previous: Option<IncidentState>, next: IncidentState,
    actor: Name, correlationId: Name, deployment: Name, operation: Option<Name>, occurredAt: Time)

  datatype Notification = Notification(id: int, operation: Name, kind: NotificationKind, scheduledAt: Time)

  /** Everything kept under the identity of one incident. */
  datatype File = File(
    incident: Incident, events: seq<TimelineEvent>, notifications: seq<Notification>, observed: Option<Time>)

  datatype Policy = Policy(
    tenant: Name, receiver: Name, recipientPolicy: Name, senderPolicy: Name,
    sender: Name, recipient: Name, replyTo: Name, groupWait: int, repeatInterval: int)

  datatype StatusItem = StatusItem(
    groupKey: Name, fingerprint: Name, startsAt: Time, signal: Signal, silencedBy: seq<Name>, inhibitedBy: seq<Name>)

  /** A webhook alert with the arguments of the call that carries it. */
  datatype Webhook = Webhook(
    policy: Policy, groupKey: Name, alert: L.Alert, actor: Name, correlationId: Name, deployment: Name,
    requestKey: Name, notify: bool, client: Name, kind: NotificationKind)

  datatype Snapshot = Snapshot(
    tenant: Name, item: StatusItem, actor: Name, correlationId: Name, deployment: Name, requestKey: Name,
    observedAt: Time)

  datatype Operator = Operator(
    key: L.Key, action: Action, actor: Name, correlationId: Name, idempotencyKey: Name,
    expectedVersion: int, reason: Name)

  datatype IngestionResult = IngestionResult(
    incident: Incident, operation: Option<L.Operation>, status: NotificationStatus, eventId: int, duplicate: bool)

  /** Identities under which a webhook or a snapshot can be recognised again. */
  datatype EventKey =
    | TransitionEvent(groupKey: Name, fingerprint: Name, firing: bool, startsAt: Time)
    | StatusEvent(item: StatusItem, observedAt: Time)
    | RequestEvent(request: Name)
    | RepeatEvent(request: Name)
    | ActivationEvent(request: Name)

  datatype ReplayKey = ReplayKey(tenant: Name, event: EventKey)

  datatype Replay =
    | WebhookReplay(groupKey: Name, alert: L.Alert, result: IngestionResult)
    | StatusReplay(item: StatusItem, observedAt: Time, incident: Incident)

  datatype MutationKey = MutationKey(key: L.Key, action: Action, actor: Name, idempotencyKey: Name)
  datatype Mutation = Mutation(expectedVersion: int, reason: Name, incident: Incident)

  /** `LookupFailure` is the unguarded dictionary access of the replay path. */
  datatype Refusal = IncidentNotFound | IncidentConflict | CommandRefused(error: L.Error) | LookupFailure

  datatype Projection = Projection(
    ledger: L.Ledger,
    files: map<L.Key, File>,
    replays: map<ReplayKey, Replay>,
    mutations: map<MutationKey, Mutation>,
    eventSequence: int, notificationSequence: int)

  const START := Projection(L.EMPTY, map[], map[], map[], 0, 0)

  const ALERTMANAGER := Text("alertmanager")
  const COMMAND_TYPE := Text("observability.alert.email.send.v1")
  const COMMAND_TARGET := Text("klyrow-alert-email")
  const COMMAND_CAPABILITY := Text("OBSERVABILITY_ALERT_EMAIL_DELIVERY")
  const RESOLVED_BEFORE_GROUP_WAIT := Text("warning resolved before group wait elapsed")
  const LEFT_FIRING_BEFORE_GROUP_WAIT := Text("warning left firing state before group wait elapsed")
  const OPERATOR_RESOLVED := Text("warning was resolved before group wait elapsed")

  // ---------------------------------------------------------------- pure rules

  function IncidentKey(tenant: Name, fingerprint: Name): L.Key { L.Key(tenant, IncidentId(tenant, fingerprint)) }

  function NextState(previous: Option<IncidentState>, incoming: Signal): (IncidentState, EventKind) {
    match incoming
    case ResolvedSignal => (Resolved, AlertResolved)
    case InhibitedSignal => (Inhibited, AlertInhibited)
    case SilencedSignal => (Silenced, AlertSilenced)
    case FiringSignal =>
      if previous == Some(Resolved) then (Firing, AlertReopened)
      else if previous == Some(Acknowledged) then (Acknowledged, AlertFiring)
      else (Firing, AlertFiring)
  }

  function SignalOf(alert: L.Alert): Signal { if alert.firing then FiringSignal else ResolvedSignal }

  /** The alert cannot be newer than the occurrence on file. */
  predicate Predates(alert: L.Alert, incident: Incident) {
    alert.startsAt < incident.startsAt
    || (alert.firing && alert.startsAt == incident.startsAt && incident.endsAt.Some?)
  }

  function BuildCommand(w: Webhook, incident: Name, firstSeenAt: Time): L.Envelope {
    var key := AlertKey(w.groupKey, w.alert.fingerprint, w.alert.firing, w.policy.receiver, w.alert.environment,
                        w.policy.recipientPolicy, w.alert.startsAt);
    L.Envelope(AlertCommandId(key), COMMAND_TYPE, COMMAND_TARGET, w.policy.tenant, w.actor, w.correlationId, key,
               COMMAND_CAPABILITY,
               L.AlertMail(incident, w.groupKey, w.alert, firstSeenAt, w.correlationId, w.policy.sender,
                           w.policy.recipient, w.policy.replyTo, w.policy.senderPolicy, w.policy.recipientPolicy,
                           false))
  }

  function RepeatCommand(command: L.Envelope, request: Name): L.Envelope
    requires command.payload.AlertMail?
  {
    var key := RepeatKey(command.idempotencyKey, request);
    command.(commandId := RepeatCommandId(key), idempotencyKey := key,
             payload := command.payload.(repeated := true))
  }

  /** The latest schedule among an incident's notifications. */
  function Latest(notifications: seq<Notification>): (t: Time)
    requires notifications != []
    ensures forall i :: 0 <= i < |notifications| ==> notifications[i].scheduledAt <= t
    ensures exists i :: 0 <= i < |notifications| && notifications[i].scheduledAt == t
  {
    var n := |notifications| - 1;
    if n == 0 then notifications[0].scheduledAt
    else
      var before := Latest(notifications[..n]);
      if before < notifications[n].scheduledAt then notifications[n].scheduledAt else before
  }

  // ---------------------------------------------------------------- timeline

  /** Files the event of a change and the incident it leads to. */
  function Filed(f: File, after: Incident, kind: EventKind, eventId: int, actor: Name, correlationId: Name,
                 deployment: Name, operation: Option<Name>, at: Time): File {
    f.(incident := after,
       events := f.events + [TimelineEvent(eventId, after.id, kind, Some(f.incident.state), after.state, actor,
                                           correlationId, deployment, operation, at)])
  }

  function Opened(incident: Incident, kind: EventKind, eventId: int, actor: Name, correlationId: Name,
                  deployment: Name, operation: Option<Name>, at: Time): File {
    File(incident,
         [TimelineEvent(eventId, incident.id, kind, None, incident.state, actor, correlationId, deployment,
                        operation, at)],
         [], None)
  }

  // ---------------------------------------------------------------- cancelling notifications

  predicate Pending(s: L.CommandState) { s.Persisted? || s.Queued? }

  /** A grouped notification whose group wait has not elapsed. */
  predicate Waiting(item: Notification, now: Time) { item.kind.Grouped? && item.scheduledAt > now }

  function CancelOne(l: L.Ledger, key: L.Key, item: Notification, actor: Name, reason: Name, now: Time)
    : (L.Ledger, Option<L.Error>)
  {
    var operation := L.Key(key.tenant, item.operation);
    if !Waiting(item, now) then (l, None)
    else if operation !in l.records then (l, Some(L.NotFound))
    else if !Pending(l.records[operation].operation.state) then (l, None)
    else
      var (l', r) := L.Mutate(l, operation, L.Cancel, actor, GroupWaitCancelKey(key.id, item.operation),
                              l.records[operation].operation.resourceVersion, reason, now);
      (l', if r.Ok? then None else Some(r.error))
  }

  /** Cancels the waiting notifications in order; the first refusal ends it, earlier cancels stay. */
  function CancelPending(l: L.Ledger, key: L.Key, items: seq<Notification>, actor: Name, reason: Name, now: Time)
    : (L.Ledger, Option<L.Error>)
  {
    if items == [] then (l, None)
    else
      var n := |items| - 1;
      var before := CancelPending(l, key, items[..n], actor, reason, now);
      if before.1.Some? then before else CancelOne(before.0, key, items[n], actor, reason, now)
  }

  // ---------------------------------------------------------------- webhooks

  function KeyOf(w: Webhook): L.Key { IncidentKey(w.policy.tenant, w.alert.fingerprint) }

  function RequestOf(w: Webhook): Name { RequestKey(w.client, w.requestKey, w.alert.fingerprint) }

  function TransitionOf(w: Webhook): ReplayKey {
    ReplayKey(w.policy.tenant, TransitionEvent(w.groupKey, w.alert.fingerprint, w.alert.firing, w.alert.startsAt))
  }

  function RequestReplayOf(w: Webhook): ReplayKey { ReplayKey(w.policy.tenant, RequestEvent(RequestOf(w))) }

  predicate SameContent(replay: Replay, w: Webhook) {
    replay.WebhookReplay? && replay.groupKey == w.groupKey && replay.alert == w.alert
  }

  function Duplicate(op: Option<L.Operation>): Option<L.Operation> {
    if op.Some? then Some(op.value.(duplicate := true)) else None
  }

  function AsDuplicate(result: IngestionResult): IngestionResult {
    result.(duplicate := true, incident := result.incident.(duplicate := true),
            operation := Duplicate(result.operation))
  }

  /** A known firing transition whose notification was never submitted. */
  predicate Activates(f: File, w: Webhook) {
    w.alert.firing && w.notify && f.notifications == [] && f.incident.state.Firing?
  }

  /** A known grouped firing transition whose repeat interval has elapsed. */
  predicate RepeatDue(f: File, w: Webhook, now: Time) {
    && w.alert.firing && w.kind.Grouped? && w.notify && f.notifications != [] && f.incident.state.Firing?
    && now >= Latest(f.notifications) + w.policy.repeatInterval
  }

  predicate Suppresses(f: File, w: Webhook) {
    w.alert.firing && w.kind.Grouped? && w.notify && f.notifications != []
  }

  /** The incident after a notification is submitted for a transition that is already on file. */
  function Renotified(previous: Incident, w: Webhook, now: Time): Incident {
    previous.(state := NextState(Some(previous.state), SignalOf(w.alert)).0, lastSeenAt := now,
              deployment := w.deployment, correlationId := w.correlationId,
              version := previous.version + 1, updatedAt := now, duplicate := false)
  }

  function RenotifyCommand(previous: Incident, w: Webhook, repeat: bool): L.Envelope {
    var command := BuildCommand(w, KeyOf(w).id, previous.firstSeenAt);
    if repeat then RepeatCommand(command, RequestOf(w)) else command
  }

  function RenotifySchedule(w: Webhook, repeat: bool, now: Time): Time {
    if !repeat && w.kind.Grouped? then now + w.policy.groupWait else now
  }

  function RenotifiedFile(f: File, w: Webhook, repeat: bool, operation: L.Operation, eventId: int,
                          notificationId: int, now: Time): File {
    Filed(f, Renotified(f.incident, w, now), if repeat then NotificationRepeat else AlertFiring, eventId, w.actor,
          w.correlationId, w.deployment, Some(operation.commandId), now)
    .(notifications := f.notifications
                       + [Notification(notificationId, operation.commandId, w.kind, RenotifySchedule(w, repeat, now))])
  }

  /** Late activation or repetition of the notification of a transition on file. */
  function Renotify(y: Projection, w: Webhook, repeat: bool, now: Time): (Projection, Result<IngestionResult, Refusal>)
    requires KeyOf(w) in y.files
  {
    var key := KeyOf(w);
    var submitted := L.Submit(y.ledger, RenotifyCommand(y.files[key].incident, w, repeat), w.client,
                              L.TemporalCommand, now);
    if submitted.1.Err? then (y.(ledger := submitted.0), Err(CommandRefused(submitted.1.error)))
    else
      var f := RenotifiedFile(y.files[key], w, repeat, submitted.1.value, y.eventSequence + 1,
                              y.notificationSequence + 1, now);
      var result := IngestionResult(f.incident, Some(submitted.1.value),
                                    if !repeat && w.kind.Grouped? then ScheduledStatus else QueuedStatus,
                                    y.eventSequence + 1, false);
      var entry := WebhookReplay(w.groupKey, w.alert, result);
      var event := if repeat then RepeatEvent(RequestOf(w)) else ActivationEvent(RequestOf(w));
      (Projection(submitted.0, y.files[key := f],
                  y.replays[TransitionOf(w) := entry][ReplayKey(key.tenant, event) := entry]
                           [RequestReplayOf(w) := entry],
                  y.mutations, y.eventSequence + 1, y.notificationSequence + 1),
       Ok(result))
  }

  /** A repetition that is only noted: the interval has not elapsed or the incident is not firing. */
  function Suppress(y: Projection, w: Webhook, result: IngestionResult, now: Time)
    : (Projection, Result<IngestionResult, Refusal>)
    requires KeyOf(w) in y.files
  {
    var key := KeyOf(w);
    var operation := if result.operation.Some? then Some(result.operation.value.commandId) else None;
    var f := Filed(y.files[key], y.files[key].incident, NotificationSuppressed, y.eventSequence + 1, w.actor,
                   w.correlationId, w.deployment, operation, now);
    var noted := result.(eventId := y.eventSequence + 1);
    (y.(files := y.files[key := f],
        replays := y.replays[RequestReplayOf(w) := WebhookReplay(w.groupKey, w.alert, noted)],
        eventSequence := y.eventSequence + 1),
     Ok(noted))
  }

  /** A webhook whose transition is on file but whose request is not. */
  function Revisit(y: Projection, w: Webhook, known: Replay, now: Time)
    : (Projection, Result<IngestionResult, Refusal>)
  {
    var key := KeyOf(w);
    if !SameContent(known, w) then (y, Err(IncidentConflict))
    else if key !in y.files then (y, Err(LookupFailure))
    else if Activates(y.files[key], w) then Renotify(y, w, false, now)
    else if RepeatDue(y.files[key], w, now) then Renotify(y, w, true, now)
    else
      var result := known.result.(duplicate := true, incident := y.files[key].incident.(duplicate := true),
                                  operation := Duplicate(known.result.operation));
      if Suppresses(y.files[key], w) then Suppress(y, w, result, now) else (y, Ok(result))
  }

  /** The incident a new transition leads to. */
  function Occurred(previous: Option<Incident>, w: Webhook, now: Time): Incident {
    var state := NextState(if previous.Some? then Some(previous.value.state) else None, SignalOf(w.alert)).0;
    var key := KeyOf(w);
    var keeps := previous.Some? && state.Acknowledged?;
    Incident(key.id, key.tenant, w.alert.fingerprint, w.groupKey, state,
             w.alert.severity, w.alert.environment, w.alert.details,
             if previous.Some? then previous.value.firstSeenAt else w.alert.startsAt,
             now, w.alert.startsAt, if w.alert.firing then None else Some(w.alert.endsAt),
             if keeps then previous.value.acknowledgedAt else None,
             if keeps then previous.value.acknowledgedBy else None,
             if state.Resolved? then Some(now) else None,
             w.deployment, w.correlationId,
             if previous.Some? then previous.value.version + 1 else 1,
             if previous.Some? then previous.value.createdAt else now, now, false)
  }

  function Previous(y: Projection, key: L.Key): Option<Incident> {
    if key in y.files then Some(y.files[key].incident) else None
  }

  /** The file of a new transition before its notification is added. */
  function OccurredFile(y: Projection, w: Webhook, operation: Option<Name>, now: Time): File {
    var key := KeyOf(w);
    var previous := Previous(y, key);
    var after := Occurred(previous, w, now);
    var kind := NextState(if previous.Some? then Some(previous.value.state) else None, SignalOf(w.alert)).1;
    if key in y.files
    then Filed(y.files[key], after, kind, y.eventSequence + 1, w.actor, w.correlationId, w.deployment, operation, now)
    else Opened(after, kind, y.eventSequence + 1, w.actor, w.correlationId, w.deployment, operation, now)
  }

  function OccurredNotifications(f: File, w: Webhook, operation: Option<Name>, notificationId: int, now: Time): File {
    if operation.None? then f
    else f.(notifications := f.notifications
                             + [Notification(notificationId, operation.value, w.kind, RenotifySchedule(w, false, now))])
  }

  /** The ledger after the cancellation that a grouped resolution makes first. */
  function OccurrenceCancel(y: Projection, w: Webhook, now: Time): (L.Ledger, Option<L.Error>) {
    var key := KeyOf(w);
    if !w.alert.firing && w.kind.Grouped? && key in y.files
    then CancelPending(y.ledger, key, y.files[key].notifications, w.actor, RESOLVED_BEFORE_GROUP_WAIT, now)
    else (y.ledger, None)
  }

  function OccurrenceCommand(y: Projection, w: Webhook): L.Envelope {
    var previous := Previous(y, KeyOf(w));
    BuildCommand(w, KeyOf(w).id, if previous.Some? then previous.value.firstSeenAt else w.alert.startsAt)
  }

  function OccurrenceStatus(w: Webhook, operation: Option<L.Operation>): NotificationStatus {
    if operation.Some? then if w.kind.Grouped? then ScheduledStatus else QueuedStatus
    else if w.kind.StateOnly? then StateOnlyStatus else DisabledStatus
  }

  /** Files a new transition over a ledger in which its command, if any, is submitted. */
  function RecordOccurrence(y: Projection, w: Webhook, ledger: L.Ledger, operation: Option<L.Operation>, now: Time)
    : (Projection, Result<IngestionResult, Refusal>)
  {
    var key := KeyOf(w);
    var id := if operation.Some? then Some(operation.value.commandId) else None;
    var f := OccurredNotifications(OccurredFile(y, w, id, now), w, id, y.notificationSequence + 1, now);
    var result := IngestionResult(f.incident, operation, OccurrenceStatus(w, operation), y.eventSequence + 1, false);
    var entry := WebhookReplay(w.groupKey, w.alert, result);
    (Projection(ledger, y.files[key := f], y.replays[TransitionOf(w) := entry][RequestReplayOf(w) := entry],
                y.mutations,
                y.eventSequence + 1, if operation.Some? then y.notificationSequence + 1 else y.notificationSequence),
     Ok(result))
  }

  /** A new transition. */
  function Occur(y: Projection, w: Webhook, now: Time): (Projection, Result<IngestionResult, Refusal>) {
    var cancelled := OccurrenceCancel(y, w, now);
    if cancelled.1.Some? then (y.(ledger := cancelled.0), Err(CommandRefused(cancelled.1.value)))
    else if !w.notify then RecordOccurrence(y, w, cancelled.0, None, now)
    else
      var submitted := L.Submit(cancelled.0, OccurrenceCommand(y, w), w.client, L.TemporalCommand, now);
      if submitted.1.Err? then (y.(ledger := submitted.0), Err(CommandRefused(submitted.1.error)))
      else RecordOccurrence(y, w, submitted.0, Some(submitted.1.value), now)
  }

  function Ingest(y: Projection, w: Webhook, now: Time): (Projection, Result<IngestionResult, Refusal>) {
    var key := KeyOf(w);
    if key in y.files && Predates(w.alert, y.files[key].incident) then (y, Err(IncidentConflict))
    else if RequestReplayOf(w) in y.replays then
      var known := y.replays[RequestReplayOf(w)];
      if SameContent(known, w) then (y, Ok(AsDuplicate(known.result))) else (y, Err(IncidentConflict))
    else if TransitionOf(w) in y.replays then Revisit(y, w, y.replays[TransitionOf(w)], now)
    else Occur(y, w, now)
  }

  // ---------------------------------------------------------------- status snapshots

  function StatusKeyOf(s: Snapshot): ReplayKey { ReplayKey(s.tenant, StatusEvent(s.item, s.observedAt)) }

  function StatusRequestOf(s: Snapshot): ReplayKey {
    ReplayKey(s.tenant, RequestEvent(RequestKey(ALERTMANAGER, s.requestKey, s.item.fingerprint)))
  }

  /** The incident after a snapshot. */
  function Reported(previous: Incident, s: Snapshot, now: Time): Incident {
    var state := NextState(Some(previous.state), s.item.signal).0;
    previous.(state := state, endsAt := if s.item.signal.FiringSignal? then None else previous.endsAt,
              lastSeenAt := now, deployment := s.deployment, correlationId := s.correlationId,
              version := previous.version + 1, resolvedAt := if state.Resolved? then Some(now) else None,
              updatedAt := now, duplicate := false)
  }

  /** Evidence on file that is at least as recent as the snapshot. */
  predicate Outdated(f: File, observedAt: Time) {
    || (f.observed.Some? && observedAt <= f.observed.value)
    || (f.incident.state.Resolved? && f.incident.endsAt.Some? && observedAt <= f.incident.endsAt.value)
  }

  function StatusCancel(y: Projection, key: L.Key, s: Snapshot, now: Time): (L.Ledger, Option<L.Error>)
    requires key in y.files
  {
    if s.item.signal.FiringSignal? then (y.ledger, None)
    else CancelPending(y.ledger, key, y.files[key].notifications, s.actor, LEFT_FIRING_BEFORE_GROUP_WAIT, now)
  }

  function RecordStatus(y: Projection, key: L.Key, s: Snapshot, ledger: L.Ledger, now: Time): Projection
    requires key in y.files
  {
    var previous := y.files[key].incident;
    var after := Reported(previous, s, now);
    var f := Filed(y.files[key], after, NextState(Some(previous.state), s.item.signal).1, y.eventSequence + 1, s.actor,
                   s.correlationId, s.deployment, None, s.observedAt).(observed := Some(s.observedAt));
    var entry := StatusReplay(s.item, s.observedAt, after);
    Projection(ledger, y.files[key := f], y.replays[StatusKeyOf(s) := entry][StatusRequestOf(s) := entry], y.mutations,
               y.eventSequence + 1, y.notificationSequence)
  }

  function IngestStatus(y: Projection, s: Snapshot, now: Time): (Projection, Result<Incident, Refusal>) {
    var key := IncidentKey(s.tenant, s.item.fingerprint);
    var event, request := StatusKeyOf(s), StatusRequestOf(s);
    if event in y.replays && request in y.replays && y.replays[event] != y.replays[request]
    then (y, Err(IncidentConflict))
    else if event in y.replays || request in y.replays then
      var known := if event in y.replays then y.replays[event] else y.replays[request];
      if known.StatusReplay? && known.item == s.item && known.observedAt == s.observedAt
      then (y, Ok(known.incident.(duplicate := true))) else (y, Err(IncidentConflict))
    else if key !in y.files || y.files[key].incident.groupKey != s.item.groupKey then (y, Err(IncidentNotFound))
    else if y.files[key].incident.startsAt != s.item.startsAt then (y, Err(IncidentConflict))
    else if Outdated(y.files[key], s.observedAt) then (y, Err(IncidentConflict))
    else
      var cancelled := StatusCancel(y, key, s, now);
      if cancelled.1.Some? then (y.(ledger := cancelled.0), Err(CommandRefused(cancelled.1.value)))
      else
        (RecordStatus(y, key, s, cancelled.0, now), Ok(Reported(y.files[key].incident, s, now)))
  }

  // ---------------------------------------------------------------- operators

  predicate Allows(action: Action, s: IncidentState) {
    match action
    case Acknowledge => s.Firing? || s.Inhibited? || s.Silenced?
    case Resolve => !s.Resolved?
    case Reopen => s.Resolved?
  }

  function Acted(previous: Incident, o: Operator, now: Time): Incident {
    previous.(state := match o.action case Acknowledge => Acknowledged case Resolve => Resolved case Reopen => Firing,
              acknowledgedAt := if o.action.Acknowledge? then Some(now) else None,
              acknowledgedBy := if o.action.Acknowledge? then Some(o.actor) else None,
              resolvedAt := if o.action.Resolve? then Some(now) else None,
              endsAt := if o.action.Reopen? then None else previous.endsAt,
              correlationId := o.correlationId, version := previous.version + 1, updatedAt := now, duplicate := false)
  }

  function KindOf(action: Action): EventKind {
    match action
    case Acknowledge => OperatorAcknowledge
    case Resolve => OperatorResolve
    case Reopen => OperatorReopen
  }

  function OperatorCancel(y: Projection, o: Operator, now: Time): (L.Ledger, Option<L.Error>)
    requires o.key in y.files
  {
    if o.action.Resolve?
    then CancelPending(y.ledger, o.key, y.files[o.key].notifications, o.actor, OPERATOR_RESOLVED, now)
    else (y.ledger, None)
  }

  function RecordAction(y: Projection, o: Operator, ledger: L.Ledger, now: Time): Projection
    requires o.key in y.files
  {
    var after := Acted(y.files[o.key].incident, o, now);
    var f := Filed(y.files[o.key], after, KindOf(o.action), y.eventSequence + 1, o.actor, o.correlationId,
                   y.files[o.key].incident.deployment, None, now);
    Projection(ledger, y.files[o.key := f], y.replays,
               y.mutations[MutationKey(o.key, o.action, o.actor, o.idempotencyKey)
                           := Mutation(o.expectedVersion, o.reason, after)],
               y.eventSequence + 1, y.notificationSequence)
  }

  function Operate(y: Projection, o: Operator, now: Time): (Projection, Result<Incident, Refusal>) {
    var mutation := MutationKey(o.key, o.action, o.actor, o.idempotencyKey);
    if mutation in y.mutations then
      var known := y.mutations[mutation];
      if known.expectedVersion != o.expectedVersion || known.reason != o.reason then (y, Err(IncidentConflict))
      else (y, Ok(known.incident.(duplicate := true)))
    else if o.key !in y.files then (y, Err(IncidentNotFound))
    else if y.files[o.key].incident.version != o.expectedVersion then (y, Err(IncidentConflict))
    else if !Allows(o.action, y.files[o.key].incident.state) then (y, Err(IncidentConflict))
    else
      var cancelled := OperatorCancel(y, o, now);
      if cancelled.1.Some? then (y.(ledger := cancelled.0), Err(CommandRefused(cancelled.1.value)))
      else (RecordAction(y, o, cancelled.0, now), Ok(Acted(y.files[o.key].incident, o, now)))
  }

  // ---------------------------------------------------------------- runs

  /** Besides the three incident operations, anything may happen in the shared ledger. */
  datatype Step =
    | IngestStep(w: Webhook, at: Time)
    | StatusStep(s: Snapshot, at: Time)
    | OperatorStep(o: Operator, at: Time)
    | LedgerStep(step: L.Step)

  function Apply(y: Projection, step: Step): Projection {
    match step
    case IngestStep(w, at) => Ingest(y, w, at).0
    case StatusStep(s, at) => IngestStatus(y, s, at).0
    case OperatorStep(o, at) => Operate(y, o, at).0
    case LedgerStep(step) => y.(ledger := L.Apply(y.ledger, step))
  }

  function Run(y: Projection, steps: seq<Step>): Projection {
    if steps == [] then y else Apply(Run(y, steps[..|steps| - 1]), steps[|steps| - 1])
  }
}
