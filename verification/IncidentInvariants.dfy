/**
 What every webhook, snapshot, operator action and ledger step keeps: each incident's timeline, the
 recognisability and distinctness of its notifications, and the ledger invariant.
 */
module IncidentInvariants {
  import opened Identities
  import L = CommandLedger
  import LI = LedgerInvariants
  import LT = LedgerTheorems
  import opened Incidents
  import opened NotificationCancel

  // ---------------------------------------------------------------- one timeline

  /** The events that change the incident; a suppressed repetition is only noted. */
  function Versioned(events: seq<TimelineEvent>): nat {
    if events == [] then 0
    else Versioned(events[..|events| - 1]) + (if events[|events| - 1].kind.NotificationSuppressed? then 0 else 1)
  }

  /** The events that announce a notification. */
  function Announced(events: seq<TimelineEvent>): nat {
    if events == [] then 0
    else
      var last := events[|events| - 1];
      Announced(events[..|events| - 1]) + (if last.operation.Some? && !last.kind.NotificationSuppressed? then 1 else 0)
  }

  /** The stamps of an incident agree with its state. */
  predicate StampsOk(i: Incident) {
    && (i.resolvedAt.Some? <==> i.state.Resolved?)
    && (i.acknowledgedAt.Some? <==> i.acknowledgedBy.Some?)
    && (i.state.Acknowledged? ==> i.acknowledgedAt.Some?)
  }

  /** Events chain from nothing to the stored state under increasing ids, and the version counts them. */
  predicate Timeline(f: File) {
    && |f.events| > 0
    && f.events[0].previous.None?
    && (forall i :: 0 < i < |f.events| ==> f.events[i].previous == Some(f.events[i - 1].next))
    && (forall i, j :: 0 <= i < j < |f.events| ==> f.events[i].eventId < f.events[j].eventId)
    && f.events[|f.events| - 1].next == f.incident.state
    && f.incident.version == Versioned(f.events)
    && StampsOk(f.incident)
  }

  predicate FileOk(f: File, bound: int) {
    Timeline(f) && forall i :: 0 <= i < |f.events| ==> f.events[i].eventId <= bound
  }

  lemma FiledKeeps(f: File, after: Incident, kind: EventKind, bound: int, eventId: int, actor: Name,
                   correlationId: Name, deployment: Name, operation: Option<Name>, at: Time)
    requires FileOk(f, bound) && bound < eventId
    requires after.version == f.incident.version + (if kind.NotificationSuppressed? then 0 else 1)
    requires StampsOk(after)
    ensures FileOk(Filed(f, after, kind, eventId, actor, correlationId, deployment, operation, at), eventId)
  {
    var e := TimelineEvent(eventId, after.id, kind, Some(f.incident.state), after.state, actor, correlationId,
                           deployment, operation, at);
    assert (f.events + [e])[..|f.events|] == f.events;
  }

  lemma OpenedOk(incident: Incident, kind: EventKind, eventId: int, actor: Name, correlationId: Name,
                 deployment: Name, operation: Option<Name>, at: Time)
    requires incident.version == 1 && !kind.NotificationSuppressed?
    requires StampsOk(incident)
    ensures FileOk(Opened(incident, kind, eventId, actor, correlationId, deployment, operation, at), eventId)
  {
    var f := Opened(incident, kind, eventId, actor, correlationId, deployment, operation, at);
    assert Versioned(f.events[..0]) == 0;
  }

  lemma FileOkIgnores(f: File, bound: int, notifications: seq<Notification>, observed: Option<Time>)
    requires FileOk(f, bound)
    ensures FileOk(f.(notifications := notifications, observed := observed), bound)
  {
  }

  lemma FileOkLater(f: File, bound: int, later: int)
    requires FileOk(f, bound) && bound <= later
    ensures FileOk(f, later)
  {
  }

  // ---------------------------------------------------------------- notifications

  /** The replay identity that was spent on a notification operation. */
  function Mark(tenant: Name, operation: Name): Option<ReplayKey> {
    match operation
    case AlertCommandId(AlertKey(groupKey, fingerprint, firing, _, _, _, startsAt)) =>
      Some(ReplayKey(tenant, TransitionEvent(groupKey, fingerprint, firing, startsAt)))
    case RepeatCommandId(RepeatKey(_, request)) => Some(ReplayKey(tenant, RequestEvent(request)))
    case _ => None
  }

  predicate Spent(replays: map<ReplayKey, Replay>, tenant: Name, operation: Name) {
    var mark := Mark(tenant, operation);
    mark.Some? && mark.value in replays
  }

  ghost predicate NotificationsOk(replays: map<ReplayKey, Replay>, l: L.Ledger, key: L.Key, items: seq<Notification>) {
    && DistinctOperations(items)
    && Known(l, key, items)
    && (forall i :: 0 <= i < |items| ==> Spent(replays, key.tenant, items[i].operation))
  }

  ghost predicate Grows(y: Projection, replays: map<ReplayKey, Replay>, l: L.Ledger) {
    && (forall r :: r in y.replays ==> r in replays)
    && (forall k :: k in y.ledger.records ==> k in l.records)
  }

  lemma NotificationsGrow(y: Projection, replays: map<ReplayKey, Replay>, l: L.Ledger, key: L.Key,
                          items: seq<Notification>)
    requires NotificationsOk(y.replays, y.ledger, key, items) && Grows(y, replays, l)
    ensures NotificationsOk(replays, l, key, items)
  {
  }

  lemma NotificationAdded(y: Projection, replays: map<ReplayKey, Replay>, l: L.Ledger, key: L.Key,
                          items: seq<Notification>, item: Notification)
    requires NotificationsOk(y.replays, y.ledger, key, items) && Grows(y, replays, l)
    requires Spent(replays, key.tenant, item.operation) && OperationKey(key, item) in l.records
    requires items == [] || Mark(key.tenant, item.operation).value !in y.replays
    ensures NotificationsOk(replays, l, key, items + [item])
  {
    hide Mark;
  }

  /** An incident has one notification per announcing event, numbered upwards. */
  predicate Accounted(f: File, bound: int) {
    && |f.notifications| == Announced(f.events)
    && (forall i, j :: 0 <= i < j < |f.notifications| ==> f.notifications[i].id < f.notifications[j].id)
    && (forall i :: 0 <= i < |f.notifications| ==> f.notifications[i].id <= bound)
  }

  lemma AnnouncedAppend(events: seq<TimelineEvent>, e: TimelineEvent)
    ensures Announced(events + [e])
         == Announced(events) + (if e.operation.Some? && !e.kind.NotificationSuppressed? then 1 else 0)
  {
    assert (events + [e])[..|events|] == events;
  }

  lemma FiledAnnounced(f: File, after: Incident, kind: EventKind, eventId: int, actor: Name, correlationId: Name,
                       deployment: Name, operation: Option<Name>, at: Time)
    ensures var g := Filed(f, after, kind, eventId, actor, correlationId, deployment, operation, at);
            && g.notifications == f.notifications
            && Announced(g.events)
               == Announced(f.events) + (if operation.Some? && !kind.NotificationSuppressed? then 1 else 0)
  {
    AnnouncedAppend(f.events, TimelineEvent(eventId, after.id, kind, Some(f.incident.state), after.state, actor,
                                            correlationId, deployment, operation, at));
  }

  lemma OpenedAnnounced(incident: Incident, kind: EventKind, eventId: int, actor: Name, correlationId: Name,
                        deployment: Name, operation: Option<Name>, at: Time)
    requires !kind.NotificationSuppressed?
    ensures var g := Opened(incident, kind, eventId, actor, correlationId, deployment, operation, at);
            g.notifications == [] && Announced(g.events) == if operation.Some? then 1 else 0
  {
    var g := Opened(incident, kind, eventId, actor, correlationId, deployment, operation, at);
    AnnouncedAppend([], g.events[0]);
    assert [] + [g.events[0]] == g.events;
  }

  lemma AccountedLater(f: File, bound: int, later: int)
    requires Accounted(f, bound) && bound <= later
    ensures Accounted(f, later)
  {
  }

  // ---------------------------------------------------------------- the whole projection

  ghost predicate FilesInv(y: Projection) {
    forall k :: k in y.files ==> FileOk(y.files[k], y.eventSequence)
  }

  ghost predicate NotificationsInv(y: Projection) {
    forall k :: k in y.files ==> NotificationsOk(y.replays, y.ledger, k, y.files[k].notifications)
  }

  ghost predicate AccountsInv(y: Projection) {
    forall k :: k in y.files ==> Accounted(y.files[k], y.notificationSequence)
  }

  /** A transition on file has its incident on file. */
  ghost predicate TransitionsInv(y: Projection) {
    forall r :: r in y.replays && r.event.TransitionEvent? ==> IncidentKey(r.tenant, r.event.fingerprint) in y.files
  }

  ghost predicate Inv(y: Projection) {
    LI.Inv(y.ledger) && FilesInv(y) && NotificationsInv(y) && TransitionsInv(y) && AccountsInv(y)
  }

  /** `added` joins the replays; a transition among them is one of the incident under `key`. */
  ghost predicate Registers(y: Projection, y': Projection, key: L.Key) {
    forall r :: r in y'.replays && r !in y.replays && r.event.TransitionEvent?
                ==> IncidentKey(r.tenant, r.event.fingerprint) == key
  }

  lemma PutKeeps(y: Projection, y': Projection, key: L.Key, f: File)
    requires Inv(y) && LI.Inv(y'.ledger) && y'.files == y.files[key := f]
    requires y.eventSequence <= y'.eventSequence && FileOk(f, y'.eventSequence)
    requires Grows(y, y'.replays, y'.ledger) && Registers(y, y', key)
    requires NotificationsOk(y'.replays, y'.ledger, key, f.notifications)
    requires y.notificationSequence <= y'.notificationSequence && Accounted(f, y'.notificationSequence)
    ensures Inv(y')
  {
    hide LI.Inv, FileOk, NotificationsOk, Grows, Accounted;
    forall k | k in y'.files ensures Accounted(y'.files[k], y'.notificationSequence) {
      if k != key { AccountedLater(y.files[k], y.notificationSequence, y'.notificationSequence); }
    }
    forall k | k in y'.files ensures FileOk(y'.files[k], y'.eventSequence) {
      if k != key { FileOkLater(y.files[k], y.eventSequence, y'.eventSequence); }
    }
    forall k | k in y'.files ensures NotificationsOk(y'.replays, y'.ledger, k, y'.files[k].notifications) {
      if k != key { NotificationsGrow(y, y'.replays, y'.ledger, k, y.files[k].notifications); }
    }
    assert TransitionsInv(y') by { GrownReplays(y, y'); }
  }

  lemma GrownReplays(y: Projection, y': Projection)
    requires Grows(y, y'.replays, y'.ledger)
    ensures forall r :: r in y.replays ==> r in y'.replays
  {
  }

  /** Only the ledger changed. */
  lemma LedgerKeeps(y: Projection, l: L.Ledger)
    requires Inv(y) && LI.Inv(l) && Grows(y, y.replays, l)
    ensures Inv(y.(ledger := l))
  {
    hide LI.Inv, FileOk, NotificationsOk, Grows;
    forall k | k in y.files ensures NotificationsOk(y.replays, l, k, y.files[k].notifications) {
      NotificationsGrow(y, y.replays, l, k, y.files[k].notifications);
    }
  }

  // ---------------------------------------------------------------- webhooks

  lemma RenotifiedFileOk(f: File, bound: int, w: Webhook, repeat: bool, operation: L.Operation, notificationId: int,
                         now: Time)
    requires FileOk(f, bound) && w.alert.firing && f.incident.state.Firing?
    ensures FileOk(RenotifiedFile(f, w, repeat, operation, bound + 1, notificationId, now), bound + 1)
  {
    hide FileOk;
    TimelineFacts(f, bound);
    var after := Renotified(f.incident, w, now);
    var kind := if repeat then NotificationRepeat else AlertFiring;
    FiledKeeps(f, after, kind, bound, bound + 1, w.actor, w.correlationId, w.deployment, Some(operation.commandId),
               now);
    var g := Filed(f, after, kind, bound + 1, w.actor, w.correlationId, w.deployment, Some(operation.commandId), now);
    FileOkIgnores(g, bound + 1, RenotifiedFile(f, w, repeat, operation, bound + 1, notificationId, now).notifications,
                  g.observed);
  }

  lemma TimelineFacts(f: File, bound: int)
    requires FileOk(f, bound)
    ensures StampsOk(f.incident)
  {
  }

  /** The operation of a notification is recognised by the transition or by the request that caused it. */
  lemma RenotifyMark(previous: Incident, w: Webhook, repeat: bool)
    ensures Mark(w.policy.tenant, RenotifyCommand(previous, w, repeat).commandId)
            == Some(if repeat then RequestReplayOf(w) else TransitionOf(w))
    ensures RenotifyCommand(previous, w, repeat).tenant == w.policy.tenant
  {
  }

  lemma RenotifyKeeps(y: Projection, w: Webhook, repeat: bool, now: Time)
    requires Inv(y) && KeyOf(w) in y.files && RequestReplayOf(w) !in y.replays
    requires w.alert.firing && y.files[KeyOf(w)].incident.state.Firing?
    requires repeat || y.files[KeyOf(w)].notifications == []
    ensures Inv(Renotify(y, w, repeat, now).0)
  {
    hide Inv, LI.Inv, FileOk, NotificationsOk, L.Submit, RenotifyCommand, RenotifiedFile, Mark, Grows, Registers,
      Accounted;
    var key := KeyOf(w);
    var command := RenotifyCommand(y.files[key].incident, w, repeat);
    InvFacts(y, key);
    LT.AcceptedSubmission(y.ledger, command, w.client, L.TemporalCommand, now);
    var submitted := L.Submit(y.ledger, command, w.client, L.TemporalCommand, now);
    RenotifyMark(y.files[key].incident, w, repeat);
    if submitted.1.Ok? {
      var y' := Renotify(y, w, repeat, now).0;
      RenotifiedFileOk(y.files[key], y.eventSequence, w, repeat, submitted.1.value, y.notificationSequence + 1, now);
      RenotifiedAccounted(y.files[key], w, repeat, submitted.1.value, y.eventSequence + 1, y.notificationSequence, now);
      RegisteredGrowth(y, y', key);
      RenotifiedNotifications(y.files[key], w, repeat, submitted.1.value, y.eventSequence + 1,
                              y.notificationSequence + 1, now);
      NotificationAdded(y, y'.replays, y'.ledger, key, y.files[key].notifications,
                        Notification(y.notificationSequence + 1, submitted.1.value.commandId, w.kind,
                                     RenotifySchedule(w, repeat, now)));
      PutKeeps(y, y', key, y'.files[key]);
    }
  }

  lemma RenotifiedNotifications(f: File, w: Webhook, repeat: bool, operation: L.Operation, eventId: int,
                                notificationId: int, now: Time)
    ensures RenotifiedFile(f, w, repeat, operation, eventId, notificationId, now).notifications
            == f.notifications
               + [Notification(notificationId, operation.commandId, w.kind, RenotifySchedule(w, repeat, now))]
  {
  }

  lemma RenotifiedAccounted(f: File, w: Webhook, repeat: bool, operation: L.Operation, eventId: int, bound: int,
                            now: Time)
    requires Accounted(f, bound)
    ensures Accounted(RenotifiedFile(f, w, repeat, operation, eventId, bound + 1, now), bound + 1)
  {
    hide Announced, Renotified, RenotifySchedule;
    FiledAnnounced(f, Renotified(f.incident, w, now), if repeat then NotificationRepeat else AlertFiring, eventId,
                   w.actor,
                   w.correlationId, w.deployment, Some(operation.commandId), now);
  }

  lemma OccurredAccounted(y: Projection, w: Webhook, operation: Option<Name>, now: Time)
    requires KeyOf(w) in y.files ==> Accounted(y.files[KeyOf(w)], y.notificationSequence)
    ensures Accounted(OccurredNotifications(OccurredFile(y, w, operation, now), w, operation,
                                            y.notificationSequence + 1, now),
                      if operation.Some? then y.notificationSequence + 1 else y.notificationSequence)
  {
    hide Announced, Occurred, RenotifySchedule;
    var key := KeyOf(w);
    var previous := Previous(y, key);
    var after := Occurred(previous, w, now);
    var kind := NextState(if previous.Some? then Some(previous.value.state) else None, SignalOf(w.alert)).1;
    if key in y.files {
      FiledAnnounced(y.files[key], after, kind, y.eventSequence + 1, w.actor, w.correlationId, w.deployment,
                     operation, now);
    } else {
      OpenedAnnounced(after, kind, y.eventSequence + 1, w.actor, w.correlationId, w.deployment, operation, now);
    }
  }

  lemma InvFacts(y: Projection, key: L.Key)
    requires Inv(y)
    ensures LI.Inv(y.ledger)
    ensures key in y.files ==> FileOk(y.files[key], y.eventSequence)
    ensures key in y.files ==> NotificationsOk(y.replays, y.ledger, key, y.files[key].notifications)
    ensures key in y.files ==> Accounted(y.files[key], y.notificationSequence)
  {
    hide LI.Inv, FileOk, NotificationsOk, Accounted, TransitionsInv;
  }

  lemma RegisteredGrowth(y: Projection, y': Projection, key: L.Key)
    requires forall r :: r in y.replays ==> r in y'.replays
    requires forall k :: k in y.ledger.records ==> k in y'.ledger.records
    requires forall r :: r in y'.replays && r !in y.replays && r.event.TransitionEvent?
                         ==> IncidentKey(r.tenant, r.event.fingerprint) == key
    ensures Grows(y, y'.replays, y'.ledger) && Registers(y, y', key)
  {
  }

  lemma SuppressKeeps(y: Projection, w: Webhook, result: IngestionResult, now: Time)
    requires Inv(y) && KeyOf(w) in y.files
    ensures Inv(Suppress(y, w, result, now).0)
  {
    hide Inv, LI.Inv, FileOk, NotificationsOk, Grows, Registers;
    var key := KeyOf(w);
    InvFacts(y, key);
    TimelineFacts(y.files[key], y.eventSequence);
    var operation := if result.operation.Some? then Some(result.operation.value.commandId) else None;
    FiledKeeps(y.files[key], y.files[key].incident, NotificationSuppressed, y.eventSequence, y.eventSequence + 1,
               w.actor,
               w.correlationId, w.deployment, operation, now);
    FiledAnnounced(y.files[key], y.files[key].incident, NotificationSuppressed, y.eventSequence + 1, w.actor,
                   w.correlationId, w.deployment, operation, now);
    var y' := Suppress(y, w, result, now).0;
    RegisteredGrowth(y, y', key);
    NotificationsGrow(y, y'.replays, y'.ledger, key, y.files[key].notifications);
    PutKeeps(y, y', key, y'.files[key]);
  }

  lemma OccurredFileOk(y: Projection, w: Webhook, operation: Option<Name>, now: Time)
    requires FilesInv(y)
    ensures FileOk(OccurredFile(y, w, operation, now), y.eventSequence + 1)
  {
    hide FileOk;
    var key := KeyOf(w);
    var previous := Previous(y, key);
    var after := Occurred(previous, w, now);
    var kind := NextState(if previous.Some? then Some(previous.value.state) else None, SignalOf(w.alert)).1;
    if key in y.files {
      TimelineFacts(y.files[key], y.eventSequence);
      FiledKeeps(y.files[key], after, kind, y.eventSequence, y.eventSequence + 1, w.actor, w.correlationId,
                 w.deployment,
                 operation, now);
    } else {
      OpenedOk(after, kind, y.eventSequence + 1, w.actor, w.correlationId, w.deployment, operation, now);
    }
  }

  lemma OccurredFileNotifications(y: Projection, w: Webhook, operation: Option<Name>, now: Time)
    ensures var key := KeyOf(w);
            OccurredFile(y, w, operation, now).notifications
            == if key in y.files then y.files[key].notifications else []
  {
  }

  lemma NotificationsBefore(y: Projection, key: L.Key)
    requires Inv(y)
    ensures NotificationsOk(y.replays, y.ledger, key, if key in y.files then y.files[key].notifications else [])
  {
  }

  lemma RecordOccurrenceKeeps(y: Projection, w: Webhook, ledger: L.Ledger, operation: Option<L.Operation>, now: Time)
    requires Inv(y) && TransitionOf(w) !in y.replays
    requires LI.Inv(ledger) && forall k :: k in y.ledger.records ==> k in ledger.records
    requires operation.Some? ==> && operation.value.commandId == OccurrenceCommand(y, w).commandId
                                 && L.Key(w.policy.tenant, operation.value.commandId) in ledger.records
    ensures Inv(RecordOccurrence(y, w, ledger, operation, now).0)
  {
    hide Inv, LI.Inv, FileOk, FilesInv, NotificationsOk, OccurredFile, OccurrenceStatus, Mark, OccurrenceCommand,
      RenotifySchedule, Grows, Registers, Accounted;
    var key := KeyOf(w);
    var id := if operation.Some? then Some(operation.value.commandId) else None;
    var g := OccurredFile(y, w, id, now);
    var y' := RecordOccurrence(y, w, ledger, operation, now).0;
    FilesFacts(y);
    InvFacts(y, key);
    OccurredAccounted(y, w, id, now);
    OccurredFileOk(y, w, id, now);
    OccurredFileNotifications(y, w, id, now);
    NotificationsBefore(y, key);
    FileOkIgnores(g, y.eventSequence + 1, y'.files[key].notifications, g.observed);
    RegisteredGrowth(y, y', key);
    if operation.Some? {
      OccurrenceMark(y, w);
      NotificationAdded(y, y'.replays, ledger, key, g.notifications,
                        Notification(y.notificationSequence + 1, id.value, w.kind, RenotifySchedule(w, false, now)));
    } else {
      NotificationsGrow(y, y'.replays, ledger, key, g.notifications);
    }
    PutKeeps(y, y', key, y'.files[key]);
  }

  lemma FilesFacts(y: Projection)
    requires Inv(y)
    ensures FilesInv(y)
  {
  }

  lemma OccurrenceMark(y: Projection, w: Webhook)
    ensures Mark(w.policy.tenant, OccurrenceCommand(y, w).commandId) == Some(TransitionOf(w))
    ensures OccurrenceCommand(y, w).tenant == w.policy.tenant
  {
  }

  lemma CancelKeeps(y: Projection, key: L.Key, actor: Name, reason: Name, now: Time)
    requires Inv(y) && key in y.files
    ensures var l := CancelPending(y.ledger, key, y.files[key].notifications, actor, reason, now).0;
            LI.Inv(l) && l.records.Keys == y.ledger.records.Keys
  {
    hide LI.Inv, Swept, CancelPending, FilesInv;
    assert NotificationsOk(y.replays, y.ledger, key, y.files[key].notifications);
    SweepKeeps(y.ledger, key, y.files[key].notifications, actor, reason, now);
    SweptFacts(y.ledger, CancelPending(y.ledger, key, y.files[key].notifications, actor, reason, now).0, key,
               y.files[key].notifications);
  }

  lemma OccurrenceCancelKeeps(y: Projection, w: Webhook, now: Time)
    requires Inv(y)
    ensures var l := OccurrenceCancel(y, w, now).0;
            LI.Inv(l) && l.records.Keys == y.ledger.records.Keys
  {
    hide LI.Inv, CancelPending;
    if !w.alert.firing && w.kind.Grouped? && KeyOf(w) in y.files {
      CancelKeeps(y, KeyOf(w), w.actor, RESOLVED_BEFORE_GROUP_WAIT, now);
    }
  }

  lemma OccurKeeps(y: Projection, w: Webhook, now: Time)
    requires Inv(y) && TransitionOf(w) !in y.replays
    ensures Inv(Occur(y, w, now).0)
  {
    hide Inv, LI.Inv, OccurrenceCancel, L.Submit, RecordOccurrence, OccurrenceCommand, Grows, Registers;
    var cancelled := OccurrenceCancel(y, w, now);
    OccurrenceCancelKeeps(y, w, now);
    if cancelled.1.Some? {
      RegisteredGrowth(y, y.(ledger := cancelled.0), KeyOf(w));
      LedgerKeeps(y, cancelled.0);
    } else if !w.notify {
      RecordOccurrenceKeeps(y, w, cancelled.0, None, now);
    } else {
      var submitted := L.Submit(cancelled.0, OccurrenceCommand(y, w), w.client, L.TemporalCommand, now);
      LT.AcceptedSubmission(cancelled.0, OccurrenceCommand(y, w), w.client, L.TemporalCommand, now);
      OccurrenceMark(y, w);
      if submitted.1.Err? {
        RegisteredGrowth(y, y.(ledger := submitted.0), KeyOf(w));
        LedgerKeeps(y, submitted.0);
      } else {
        RecordOccurrenceKeeps(y, w, submitted.0, Some(submitted.1.value), now);
      }
    }
  }

  lemma IngestKeeps(y: Projection, w: Webhook, now: Time)
    requires Inv(y)
    ensures Inv(Ingest(y, w, now).0)
  {
    hide Inv, Renotify, Suppress, Occur, Latest;
    if RequestReplayOf(w) !in y.replays {
      if TransitionOf(w) !in y.replays {
        OccurKeeps(y, w, now);
      } else if KeyOf(w) in y.files {
        if Activates(y.files[KeyOf(w)], w) { RenotifyKeeps(y, w, false, now); }
        else if RepeatDue(y.files[KeyOf(w)], w, now) { RenotifyKeeps(y, w, true, now); }
        else if SameContent(y.replays[TransitionOf(w)], w) {
          var known := y.replays[TransitionOf(w)];
          SuppressKeeps(y, w, known.result.(duplicate := true,
                                            incident := y.files[KeyOf(w)].incident.(duplicate := true),
                                            operation := Duplicate(known.result.operation)), now);
        }
      }
    }
  }

  // ---------------------------------------------------------------- snapshots, operators, ledger

  lemma RecordStatusKeeps(y: Projection, key: L.Key, s: Snapshot, ledger: L.Ledger, now: Time)
    requires Inv(y) && key in y.files && LI.Inv(ledger) && ledger.records.Keys == y.ledger.records.Keys
    ensures Inv(RecordStatus(y, key, s, ledger, now))
  {
    hide Inv, LI.Inv, FileOk, NotificationsOk, Grows, Registers;
    InvFacts(y, key);
    var previous := y.files[key].incident;
    var kind := NextState(Some(previous.state), s.item.signal).1;
    TimelineFacts(y.files[key], y.eventSequence);
    FiledKeeps(y.files[key], Reported(previous, s, now), kind, y.eventSequence, y.eventSequence + 1, s.actor,
               s.correlationId, s.deployment, None, s.observedAt);
    var y' := RecordStatus(y, key, s, ledger, now);
    var g := Filed(y.files[key], Reported(previous, s, now), kind, y.eventSequence + 1, s.actor, s.correlationId,
                   s.deployment, None, s.observedAt);
    FileOkIgnores(g, y.eventSequence + 1, g.notifications, Some(s.observedAt));
    RegisteredGrowth(y, y', key);
    NotificationsGrow(y, y'.replays, y'.ledger, key, y.files[key].notifications);
    PutKeeps(y, y', key, y'.files[key]);
  }

  lemma StatusKeeps(y: Projection, s: Snapshot, now: Time)
    requires Inv(y)
    ensures Inv(IngestStatus(y, s, now).0)
  {
    hide Inv, LI.Inv, CancelPending, RecordStatus, Reported, Outdated, Grows, Registers;
    var key := IncidentKey(s.tenant, s.item.fingerprint);
    if key in y.files {
      InvFacts(y, key);
      CancelKeeps(y, key, s.actor, LEFT_FIRING_BEFORE_GROUP_WAIT, now);
      var l := StatusCancel(y, key, s, now).0;
      RecordStatusKeeps(y, key, s, l, now);
      RegisteredGrowth(y, y.(ledger := l), key);
      LedgerKeeps(y, l);
    }
  }

  lemma RecordActionKeeps(y: Projection, o: Operator, ledger: L.Ledger, now: Time)
    requires Inv(y) && o.key in y.files && LI.Inv(ledger) && ledger.records.Keys == y.ledger.records.Keys
    ensures Inv(RecordAction(y, o, ledger, now))
  {
    hide Inv, LI.Inv, FileOk, NotificationsOk, Grows, Registers;
    InvFacts(y, o.key);
    FiledKeeps(y.files[o.key], Acted(y.files[o.key].incident, o, now), KindOf(o.action), y.eventSequence,
               y.eventSequence + 1, o.actor, o.correlationId, y.files[o.key].incident.deployment, None, now);
    var y' := RecordAction(y, o, ledger, now);
    RegisteredGrowth(y, y', o.key);
    NotificationsGrow(y, y'.replays, y'.ledger, o.key, y.files[o.key].notifications);
    PutKeeps(y, y', o.key, y'.files[o.key]);
  }

  lemma OperateKeeps(y: Projection, o: Operator, now: Time)
    requires Inv(y)
    ensures Inv(Operate(y, o, now).0)
  {
    hide Inv, LI.Inv, CancelPending, RecordAction, Acted, Allows, Grows, Registers;
    if o.key in y.files {
      InvFacts(y, o.key);
      CancelKeeps(y, o.key, o.actor, OPERATOR_RESOLVED, now);
      var l := OperatorCancel(y, o, now).0;
      RecordActionKeeps(y, o, l, now);
      RegisteredGrowth(y, y.(ledger := l), o.key);
      LedgerKeeps(y, l);
    }
  }

  lemma LedgerStepKeeps(y: Projection, step: L.Step)
    requires Inv(y)
    ensures Inv(y.(ledger := L.Apply(y.ledger, step)))
  {
    hide LI.Inv, FilesInv, NotificationsInv, TransitionsInv, L.Apply, LT.Extends;
    LI.StepKeeps(y.ledger, step);
    forall k | k in y.ledger.records ensures k in L.Apply(y.ledger, step).records {
      LT.StepExtends(y.ledger, step, k);
    }
    LedgerKeeps(y, L.Apply(y.ledger, step));
  }

  lemma StepKeeps(y: Projection, step: Step)
    requires Inv(y)
    ensures Inv(Apply(y, step))
  {
    hide Inv, Ingest, IngestStatus, Operate, L.Apply;
    match step
    case IngestStep(w, at) => IngestKeeps(y, w, at);
    case StatusStep(s, at) => StatusKeeps(y, s, at);
    case OperatorStep(o, at) => OperateKeeps(y, o, at);
    case LedgerStep(step) => LedgerStepKeeps(y, step);
  }

  lemma {:induction false} RunKeeps(y: Projection, steps: seq<Step>)
    requires Inv(y)
    ensures Inv(Run(y, steps))
  {
    hide Inv, Apply;
    if steps != [] {
      RunKeeps(y, steps[..|steps| - 1]);
      StepKeeps(Run(y, steps[..|steps| - 1]), steps[|steps| - 1]);
    }
  }

  /** Every projection the middleware can reach satisfies the invariant. */
  lemma Reachable(steps: seq<Step>)
    ensures Inv(Run(START, steps))
  {
    assert Inv(START);
    RunKeeps(START, steps);
  }
}
