/**
 When webhooks, snapshots and operator actions are accepted, what they leave behind in the incident, in
 its notifications and in the ledger, and how repetitions of them are answered.
 */
module IncidentAcceptance {
  import opened Identities
  import L = CommandLedger
  import LI = LedgerInvariants
  import LT = LedgerTheorems
  import opened Incidents
  import opened NotificationCancel
  import opened IncidentInvariants
  import opened IncidentTheorems

  function FileOf(y: Projection, k: L.Key): Option<File> { if k in y.files then Some(y.files[k]) else None }

  function StateOf(f: Option<File>): Option<IncidentState> {
    if f.Some? then Some(f.value.incident.state) else None
  }

  /** The file has one more event than before: this one. */
  predicate Noted(before: Option<File>, after: File, kind: EventKind, actor: Name, at: Time) {
    var prior := if before.Some? then before.value.events else [];
    && |after.events| == |prior| + 1 && after.events[..|prior|] == prior
    && var e := after.events[|prior|];
       && e.kind == kind && e.previous == StateOf(before) && e.next == after.incident.state
       && e.incident == after.incident.id
       && e.actor == actor && e.occurredAt == at
  }

  /** The acknowledgement is the one before, or there is none. */
  predicate KeepsAcknowledgement(before: Option<File>, after: Incident) {
    if after.state.Acknowledged? && before.Some?
    then && after.acknowledgedAt == before.value.incident.acknowledgedAt
         && after.acknowledgedBy == before.value.incident.acknowledgedBy
    else after.acknowledgedAt.None? && after.acknowledgedBy.None?
  }

  // ---------------------------------------------------------------- webhooks

  /** What an accepted new transition makes of the incident. */
  predicate OccurredAs(before: Option<File>, w: Webhook, now: Time, after: File) {
    var i := after.incident;
    && i.startsAt == w.alert.startsAt && i.lastSeenAt == now && i.updatedAt == now && !i.duplicate
    && i.groupKey == w.groupKey && i.severity == w.alert.severity && i.environment == w.alert.environment
    && i.fingerprint == w.alert.fingerprint && i.tenant == w.policy.tenant
    && (before.None? ==> i.firstSeenAt == w.alert.startsAt && i.createdAt == now && i.version == 1)
    && (before.Some? ==> && i.firstSeenAt == before.value.incident.firstSeenAt
                         && i.createdAt == before.value.incident.createdAt
                         && i.version == before.value.incident.version + 1)
    && KeepsAcknowledgement(before, i)
    && (!w.alert.firing ==>
          && i.state.Resolved? && i.resolvedAt == Some(now) && i.endsAt == Some(w.alert.endsAt)
          && Noted(before, after, AlertResolved, w.actor, now))
    && (w.alert.firing ==>
          && i.resolvedAt.None? && i.endsAt.None?
          && (i.state.Acknowledged? <==> StateOf(before) == Some(Acknowledged))
          && (i.state.Firing? <==> StateOf(before) != Some(Acknowledged))
          && Noted(before, after, if StateOf(before) == Some(Resolved) then AlertReopened else AlertFiring, w.actor,
                   now))
  }

  lemma OccurrenceFiled(y: Projection, w: Webhook, operation: Option<Name>, now: Time)
    ensures OccurredAs(FileOf(y, KeyOf(w)), w, now, OccurredFile(y, w, operation, now))
  {
  }

  /** The command is the alert mail of this webhook, to the recipient of its policy. */
  predicate Announces(c: L.Envelope, w: Webhook, firstSeenAt: Time, repeated: bool) {
    && c.tenant == w.policy.tenant && c.requestedBy == w.actor && c.correlationId == w.correlationId
    && c.commandType == Text("observability.alert.email.send.v1") && c.target == Text("klyrow-alert-email")
    && c.capability == Text("OBSERVABILITY_ALERT_EMAIL_DELIVERY")
    && c.payload == L.AlertMail(IncidentId(w.policy.tenant, w.alert.fingerprint), w.groupKey, w.alert, firstSeenAt,
                                w.correlationId, w.policy.sender, w.policy.recipient, w.policy.replyTo,
                                w.policy.senderPolicy, w.policy.recipientPolicy, repeated)
  }

  /** One more notification than before, whose command is on record as this alert mail. */
  predicate Notified(before: seq<Notification>, after: seq<Notification>, l: L.Ledger, w: Webhook, firstSeenAt: Time,
                     repeated: bool, scheduledAt: Time) {
    && |after| == |before| + 1 && after[..|before|] == before
    && var n := after[|before|];
       var k := L.Key(w.policy.tenant, n.operation);
       && n.kind == w.kind && n.scheduledAt == scheduledAt
       && k in l.records && l.records[k].digest.Authenticated? && l.records[k].digest.client == w.client
       && Announces(l.records[k].digest.command, w, firstSeenAt, repeated)
       && l.records[k].digest.command.commandId == n.operation
  }

  lemma OccurrenceCommandAnnounces(y: Projection, w: Webhook)
    ensures var f := FileOf(y, KeyOf(w));
            Announces(OccurrenceCommand(y, w), w,
                      if f.Some? then f.value.incident.firstSeenAt else w.alert.startsAt, false)
  {
  }

  /** The ledger accepts the notification command of the transition after the sweep that precedes it. */
  predicate CommandAccepted(y: Projection, w: Webhook, now: Time) {
    L.Submit(OccurrenceCancel(y, w, now).0, OccurrenceCommand(y, w), w.client, L.TemporalCommand, now).1.Ok?
  }

  lemma OccurredIncident(y: Projection, w: Webhook, ledger: L.Ledger, operation: Option<L.Operation>, now: Time)
    ensures var (y', r) := RecordOccurrence(y, w, ledger, operation, now);
            var key := KeyOf(w);
            && r.Ok? && key in y'.files && y'.files == y.files[key := y'.files[key]] && y'.ledger == ledger
            && OccurredAs(FileOf(y, key), w, now, y'.files[key])
            && r.value.incident == y'.files[key].incident && !r.value.duplicate
            && r.value.status == (if operation.Some? then if w.kind.Grouped? then ScheduledStatus else QueuedStatus
                                  else if w.kind.StateOnly? then StateOnlyStatus else DisabledStatus)
            && (operation.None? ==>
                  y'.files[key].notifications == if key in y.files then y.files[key].notifications else [])
            && (operation.Some? ==>
                  y'.files[key].notifications
                  == (if key in y.files then y.files[key].notifications else [])
                     + [Notification(y.notificationSequence + 1, operation.value.commandId, w.kind,
                                     if w.kind.Grouped? then now + w.policy.groupWait else now)])
  {
    hide OccurredFile, OccurredAs;
    var id := if operation.Some? then Some(operation.value.commandId) else None;
    OccurrenceFiled(y, w, id, now);
    OccurredFileNotifications(y, w, id, now);
    OccurredIgnores(FileOf(y, KeyOf(w)), w, now, OccurredFile(y, w, id, now),
                    OccurredNotifications(OccurredFile(y, w, id, now), w, id, y.notificationSequence + 1,
                                          now).notifications);
  }

  lemma OccurredIgnores(before: Option<File>, w: Webhook, now: Time, after: File, notifications: seq<Notification>)
    requires OccurredAs(before, w, now, after)
    ensures OccurredAs(before, w, now, after.(notifications := notifications))
  {
  }

  /**
   A webhook with a new transition is accepted exactly when the occurrence on file is not newer, the
   sweep that a grouped resolution makes is not blocked, and the ledger takes its command.  The incident
   is then resolved now, or fires, reopened if it was resolved and still acknowledged if it was
   acknowledged; and a notifying webhook has put one alert mail on record, after the group wait if it is
   grouped.
   */
  lemma WebhookOutcome(y: Projection, w: Webhook, now: Time)
    requires Inv(y) && RequestReplayOf(w) !in y.replays && TransitionOf(w) !in y.replays
    ensures var key := KeyOf(w);
            var f := FileOf(y, key);
            var (y', r) := Ingest(y, w, now);
            && (r.Ok? <==>
                  && (f.Some? ==> && f.value.incident.startsAt <= w.alert.startsAt
                                  && (&& w.alert.firing && f.value.incident.startsAt == w.alert.startsAt ==>
                                        f.value.incident.endsAt.None?))
                  && (f.Some? && !w.alert.firing && w.kind.Grouped? ==> !CancelBlocked(y, key, w.actor, now))
                  && (w.notify ==> CommandAccepted(y, w, now)))
            && (r.Err? ==> y' == y.(ledger := y'.ledger))
            && (r.Ok? ==>
                  && key in y'.files && y'.files == y.files[key := y'.files[key]]
                  && OccurredAs(f, w, now, y'.files[key])
                  && r.value.incident == y'.files[key].incident
                  && var before := if f.Some? then f.value.notifications else [];
                     if w.notify
                     then Notified(before, y'.files[key].notifications, y'.ledger, w,
                                   if f.Some? then f.value.incident.firstSeenAt else w.alert.startsAt, false,
                                   if w.kind.Grouped? then now + w.policy.groupWait else now)
                     else y'.files[key].notifications == before)
  {
    hide Inv, LI.Inv, L.Submit, OccurrenceCommand, RecordOccurrence, CancelPending, CancelBlocked, Calms,
      NoneStillPending, OccurredAs, Revisit, Announces;
    var key := KeyOf(w);
    var cancelled := OccurrenceCancel(y, w, now);
    if key in y.files { SweepOfIncident(y, key, w.actor, RESOLVED_BEFORE_GROUP_WAIT, now); }
    OccurrenceCancelKeeps(y, w, now);
    OccurrenceCommandAnnounces(y, w);
    OccurrenceMark(y, w);
    LT.AcceptedSubmission(cancelled.0, OccurrenceCommand(y, w), w.client, L.TemporalCommand, now);
    var submitted := L.Submit(cancelled.0, OccurrenceCommand(y, w), w.client, L.TemporalCommand, now);
    OccurredIncident(y, w, cancelled.0, None, now);
    if submitted.1.Ok? { OccurredIncident(y, w, submitted.0, Some(submitted.1.value), now); }
  }

  // ---------------------------------------------------------------- snapshots

  /** What an accepted new snapshot makes of the incident. */
  predicate ReportedAs(before: File, s: Snapshot, now: Time, after: File) {
    var p, i := before.incident, after.incident;
    && after.observed == Some(s.observedAt) && after.notifications == before.notifications
    && i.version == p.version + 1 && i.lastSeenAt == now && i.updatedAt == now
    && i.startsAt == p.startsAt && i.firstSeenAt == p.firstSeenAt && i.createdAt == p.createdAt
    && i.acknowledgedAt == p.acknowledgedAt && i.acknowledgedBy == p.acknowledgedBy
    && (i.resolvedAt == if i.state.Resolved? then Some(now) else None)
    && match s.item.signal
       case ResolvedSignal =>
         && i.state.Resolved? && i.endsAt == p.endsAt
         && Noted(Some(before), after, AlertResolved, s.actor, s.observedAt)
       case InhibitedSignal =>
         && i.state.Inhibited? && i.endsAt == p.endsAt
         && Noted(Some(before), after, AlertInhibited, s.actor, s.observedAt)
       case SilencedSignal =>
         && i.state.Silenced? && i.endsAt == p.endsAt
         && Noted(Some(before), after, AlertSilenced, s.actor, s.observedAt)
       case FiringSignal =>
         && i.endsAt.None? && (i.state.Acknowledged? <==> p.state.Acknowledged?)
         && (i.state.Firing? <==> !p.state.Acknowledged?)
         && Noted(Some(before), after, if p.state.Resolved? then AlertReopened else AlertFiring, s.actor, s.observedAt)
  }

  lemma StatusFiled(y: Projection, key: L.Key, s: Snapshot, ledger: L.Ledger, now: Time)
    requires key in y.files
    ensures var y' := RecordStatus(y, key, s, ledger, now);
            && key in y'.files && y'.files == y.files[key := y'.files[key]]
            && ReportedAs(y.files[key], s, now, y'.files[key])
            && y'.files[key].incident == Reported(y.files[key].incident, s, now)
  {
  }

  /**
   A new snapshot is accepted exactly when it speaks of the group and the occurrence on file, was observed
   after every earlier snapshot and, for a resolved incident, after its end, and its sweep is not blocked.
   The incident then is resolved, inhibited or silenced as reported; a firing one stays acknowledged if it
   was and fires otherwise, reopened if it was resolved.
   */
  lemma SnapshotOutcome(y: Projection, s: Snapshot, now: Time)
    requires Inv(y) && StatusKeyOf(s) !in y.replays && StatusRequestOf(s) !in y.replays
    ensures var key := IncidentKey(s.tenant, s.item.fingerprint);
            var (y', r) := IngestStatus(y, s, now);
            && (r.Ok? <==>
                  && key in y.files && y.files[key].incident.groupKey == s.item.groupKey
                  && y.files[key].incident.startsAt == s.item.startsAt
                  && (y.files[key].observed.Some? ==> y.files[key].observed.value < s.observedAt)
                  && (y.files[key].incident.state.Resolved? && y.files[key].incident.endsAt.Some? ==>
                        y.files[key].incident.endsAt.value < s.observedAt)
                  && (!s.item.signal.FiringSignal? ==> !CancelBlocked(y, key, s.actor, now)))
            && (r.Ok? ==> && key in y'.files && y'.files == y.files[key := y'.files[key]]
                          && ReportedAs(y.files[key], s, now, y'.files[key])
                          && r.value == y'.files[key].incident)
            && (r.Err? ==> y' == y.(ledger := y'.ledger))
  {
    hide Inv, LI.Inv, CancelPending, CancelBlocked, Calms, NoneStillPending, ReportedAs, RecordStatus, Reported;
    var key := IncidentKey(s.tenant, s.item.fingerprint);
    if key in y.files {
      SweepOfIncident(y, key, s.actor, LEFT_FIRING_BEFORE_GROUP_WAIT, now);
      StatusFiled(y, key, s, StatusCancel(y, key, s, now).0, now);
    }
  }

  // ---------------------------------------------------------------- operators

  /** What an accepted operator action makes of the incident. */
  predicate ActedAs(before: File, o: Operator, now: Time, after: File) {
    var p, i := before.incident, after.incident;
    && after.observed == before.observed && after.notifications == before.notifications
    && i.version == p.version + 1 && i.updatedAt == now && i.correlationId == o.correlationId
    && i.startsAt == p.startsAt && i.firstSeenAt == p.firstSeenAt && i.lastSeenAt == p.lastSeenAt
    && match o.action
       case Acknowledge =>
         && i.state.Acknowledged? && i.acknowledgedAt == Some(now) && i.acknowledgedBy == Some(o.actor)
         && i.resolvedAt.None? && i.endsAt == p.endsAt
         && Noted(Some(before), after, OperatorAcknowledge, o.actor, now)
       case Resolve =>
         && i.state.Resolved? && i.resolvedAt == Some(now) && i.acknowledgedAt.None? && i.acknowledgedBy.None?
         && i.endsAt == p.endsAt && Noted(Some(before), after, OperatorResolve, o.actor, now)
       case Reopen =>
         && i.state.Firing? && i.resolvedAt.None? && i.acknowledgedAt.None? && i.acknowledgedBy.None?
         && i.endsAt.None? && Noted(Some(before), after, OperatorReopen, o.actor, now)
  }

  predicate IsNewAction(y: Projection, o: Operator) {
    MutationKey(o.key, o.action, o.actor, o.idempotencyKey) !in y.mutations
  }

  lemma ActionFiled(y: Projection, o: Operator, ledger: L.Ledger, now: Time)
    requires o.key in y.files
    ensures var y' := RecordAction(y, o, ledger, now);
            && o.key in y'.files && y'.files == y.files[o.key := y'.files[o.key]]
            && ActedAs(y.files[o.key], o, now, y'.files[o.key])
            && y'.files[o.key].incident == Acted(y.files[o.key].incident, o, now)
  {
  }

  /**
   A new operator action is accepted exactly when it expects the incident's version, the incident is
   firing, inhibited or silenced for an acknowledgement, not resolved for a resolution, resolved for a
   reopening, and the sweep of a resolution is not blocked.  The incident then is acknowledged by the
   operator, resolved now, or firing with its occurrence open again.
   */
  lemma ActionOutcome(y: Projection, o: Operator, now: Time)
    requires Inv(y) && IsNewAction(y, o)
    ensures var (y', r) := Operate(y, o, now);
            && (r.Ok? <==>
                  && o.key in y.files && y.files[o.key].incident.version == o.expectedVersion
                  && var state := y.files[o.key].incident.state;
                     && (o.action.Acknowledge? ==> state in {Firing, Inhibited, Silenced})
                     && (o.action.Resolve? ==> state in {Firing, Acknowledged, Inhibited, Silenced})
                     && (o.action.Reopen? ==> state == Resolved)
                     && (o.action.Resolve? ==> !CancelBlocked(y, o.key, o.actor, now)))
            && (r.Ok? ==> && o.key in y'.files && y'.files == y.files[o.key := y'.files[o.key]]
                          && ActedAs(y.files[o.key], o, now, y'.files[o.key])
                          && r.value == y'.files[o.key].incident)
            && (r.Err? ==> y' == y.(ledger := y'.ledger))
  {
    hide Inv, LI.Inv, CancelPending, CancelBlocked, Calms, NoneStillPending, ActedAs, RecordAction, Acted;
    if o.key in y.files {
      SweepOfIncident(y, o.key, o.actor, OPERATOR_RESOLVED, now);
      ActionFiled(y, o, OperatorCancel(y, o, now).0, now);
    }
  }
}
