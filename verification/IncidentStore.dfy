/**
 `MemoryIncidentStore` with its dictionaries and counters, on top of the memory command store.  `View`
 gathers what the dictionaries hold for one incident, and each method acts on that view as the
 operation of the projection of the same name.
 */
module IncidentStore {
  import opened Identities
  import L = CommandLedger
  import CommandStore
  import I = Incidents
  import opened Incidents

  function ListFor(notifications: map<L.Key, seq<Notification>>, key: L.Key): seq<Notification> {
    if key in notifications then notifications[key] else []
  }

  function ObservedFor(observed: map<L.Key, Time>, key: L.Key): Option<Time> {
    if key in observed then Some(observed[key]) else None
  }

  /** The per-incident dictionaries as one map of files. */
  ghost function Gather(incidents: map<L.Key, Incident>, events: map<L.Key, seq<TimelineEvent>>,
                        notifications: map<L.Key, seq<Notification>>, observed: map<L.Key, Time>): map<L.Key, File>
    requires events.Keys == incidents.Keys
  {
    map k | k in incidents :: File(incidents[k], events[k], ListFor(notifications, k), ObservedFor(observed, k))
  }

  lemma GatherAt(incidents: map<L.Key, Incident>, events: map<L.Key, seq<TimelineEvent>>,
                 notifications: map<L.Key, seq<Notification>>, observed: map<L.Key, Time>, key: L.Key)
    requires events.Keys == incidents.Keys
    ensures key in Gather(incidents, events, notifications, observed) <==> key in incidents
    ensures key in incidents ==> Gather(incidents, events, notifications, observed)[key]
                                 == File(incidents[key], events[key], ListFor(notifications, key),
                                         ObservedFor(observed, key))
  {
  }

  lemma GatherUpdate(incidents: map<L.Key, Incident>, events: map<L.Key, seq<TimelineEvent>>,
                     notifications: map<L.Key, seq<Notification>>, observed: map<L.Key, Time>, key: L.Key, f: File)
    requires events.Keys == incidents.Keys && (f.observed.None? ==> key !in observed)
    ensures Gather(incidents[key := f.incident], events[key := f.events], notifications[key := f.notifications],
                   if f.observed.Some? then observed[key := f.observed.value] else observed)
         == Gather(incidents, events, notifications, observed)[key := f]
  {
  }

  lemma SameKeys(incidents: map<L.Key, Incident>, events: map<L.Key, seq<TimelineEvent>>, key: L.Key, f: File)
    requires events.Keys == incidents.Keys
    ensures incidents[key := f.incident].Keys == incidents.Keys + {key} == events[key := f.events].Keys
  {
  }

  class MemoryIncidentStore {
    const commands: CommandStore.MemoryCommandStore
    var incidents: map<L.Key, Incident>
    var events: map<L.Key, seq<TimelineEvent>>
    var eventReplays: map<ReplayKey, Replay>
    var notifications: map<L.Key, seq<Notification>>
    var mutations: map<MutationKey, Mutation>
    var statusObserved: map<L.Key, Time>
    var eventSequence: int
    var notificationSequence: int

    ghost predicate Valid() reads this, commands {
      && commands.Valid()
      && events.Keys == incidents.Keys
      && notifications.Keys <= incidents.Keys && statusObserved.Keys <= incidents.Keys
    }

    ghost function View(): Projection
      reads this, commands
      requires Valid()
    {
      Projection(commands.Snapshot(), Gather(incidents, events, notifications, statusObserved), eventReplays, mutations,
                 eventSequence, notificationSequence)
    }

    constructor (commands: CommandStore.MemoryCommandStore)
      requires commands.Valid()
      ensures this.commands == commands
      ensures Valid() && View() == START.(ledger := commands.Snapshot())
    {
      this.commands := commands;
      incidents, events, eventReplays := map[], map[], map[];
      notifications, mutations, statusObserved := map[], map[], map[];
      eventSequence, notificationSequence := 0, 0;
    }

    /** What the dictionaries hold for an incident. */
    method Load(key: L.Key) returns (f: Option<File>)
      requires Valid()
      ensures f == if key in View().files then Some(View().files[key]) else None
    {
      if key !in incidents { return None; }
      return Some(File(incidents[key], events[key], ListFor(notifications, key), ObservedFor(statusObserved, key)));
    }

    /** Writes the dictionaries of one incident. */
    method Save(key: L.Key, f: File)
      requires Valid()
      requires f.observed.None? ==> key !in View().files || View().files[key].observed.None?
      modifies this`incidents, this`events, this`notifications, this`statusObserved
      ensures Valid()
      ensures View() == old(View()).(files := old(View()).files[key := f])
    {
      hide Gather;
      GatherAt(incidents, events, notifications, statusObserved, key);
      GatherUpdate(incidents, events, notifications, statusObserved, key, f);
      SameKeys(incidents, events, key, f);
      incidents := incidents[key := f.incident];
      events := events[key := f.events];
      notifications := notifications[key := f.notifications];
      statusObserved := if f.observed.Some? then statusObserved[key := f.observed.value] else statusObserved;
    }

    /** Cancels one notification if it is grouped, waits in the future and its command is pending. */
    method CancelNotification(key: L.Key, item: Notification, actor: Name, reason: Name, now: Time)
      returns (failed: Option<L.Error>)
      requires Valid()
      modifies commands
      ensures Valid()
      ensures View() == old(View()).(ledger := CancelOne(old(View()).ledger, key, item, actor, reason, now).0)
      ensures failed == CancelOne(old(View()).ledger, key, item, actor, reason, now).1
    {
      hide Gather, L.Mutate;
      if !item.kind.Grouped? || item.scheduledAt <= now { return None; }
      var pending := commands.Get(L.Key(key.tenant, item.operation));
      if pending.Err? { return Some(pending.error); }
      if !pending.value.state.Persisted? && !pending.value.state.Queued? { return None; }
      var changed := commands.MutateOperation(L.Key(key.tenant, item.operation), L.Cancel, actor,
                                              GroupWaitCancelKey(key.id, item.operation),
                                              pending.value.resourceVersion, reason, now);
      return if changed.Err? then Some(changed.error) else None;
    }

    /** Cancels the waiting grouped notifications of an incident one after the other. */
    method CancelPendingNotifications(key: L.Key, items: seq<Notification>, actor: Name, reason: Name, now: Time)
      returns (failed: Option<L.Error>)
      requires Valid()
      modifies commands
      ensures Valid()
      ensures View() == old(View()).(ledger := CancelPending(old(View()).ledger, key, items, actor, reason, now).0)
      ensures failed == CancelPending(old(View()).ledger, key, items, actor, reason, now).1
    {
      hide View, Valid, CancelOne;
      ghost var start := View();
      for i := 0 to |items|
        invariant Valid()
        invariant View() == start.(ledger := CancelPending(start.ledger, key, items[..i], actor, reason, now).0)
        invariant CancelPending(start.ledger, key, items[..i], actor, reason, now).1.None?
      {
        Unfinished(start.ledger, key, items, i, actor, reason, now);
        failed := CancelNotification(key, items[i], actor, reason, now);
        if failed.Some? {
          Finished(start.ledger, key, items, i + 1, actor, reason, now);
          return;
        }
      }
      assert items[..|items|] == items;
      return None;
    }

    /** The schedule of the newest notification. */
    method LatestSchedule(items: seq<Notification>) returns (latest: Time)
      requires items != []
      ensures latest == Latest(items)
    {
      latest := items[0].scheduledAt;
      for i := 1 to |items|
        invariant latest == Latest(items[..i])
      {
        assert items[..i + 1][..i] == items[..i];
        if latest < items[i].scheduledAt { latest := items[i].scheduledAt; }
      }
      assert items[..|items|] == items;
    }

    // ---------------------------------------------------------------- one table at a time

    /** What is on record under a replay identity. */
    method Recall(key: ReplayKey) returns (known: Option<Replay>)
      requires Valid()
      ensures known == if key in View().replays then Some(View().replays[key]) else None
    {
      return if key in eventReplays then Some(eventReplays[key]) else None;
    }

    method Remember(key: ReplayKey, entry: Replay)
      requires Valid()
      modifies this`eventReplays
      ensures Valid() && View() == old(View()).(replays := old(View()).replays[key := entry])
    {
      eventReplays := eventReplays[key := entry];
    }

    method RecallMutation(key: MutationKey) returns (known: Option<Mutation>)
      requires Valid()
      ensures known == if key in View().mutations then Some(View().mutations[key]) else None
    {
      return if key in mutations then Some(mutations[key]) else None;
    }

    method RecordMutation(key: MutationKey, mutation: Mutation)
      requires Valid()
      modifies this`mutations
      ensures Valid() && View() == old(View()).(mutations := old(View()).mutations[key := mutation])
    {
      mutations := mutations[key := mutation];
    }

    method NextNotificationId() returns (id: int)
      requires Valid()
      modifies this`notificationSequence
      ensures Valid() && View() == old(View()).(notificationSequence := old(View()).notificationSequence + 1)
      ensures id == View().notificationSequence
    {
      notificationSequence := notificationSequence + 1;
      return notificationSequence;
    }

    method NextEventId() returns (id: int)
      requires Valid()
      modifies this`eventSequence
      ensures Valid() && View() == old(View()).(eventSequence := old(View()).eventSequence + 1)
      ensures id == View().eventSequence
    {
      eventSequence := eventSequence + 1;
      return eventSequence;
    }

    /** Draws the next event id and files the event with the incident it leads to. */
    method AppendEvent(stored: Option<File>, after: Incident, kind: EventKind, actor: Name, correlationId: Name,
                       deployment: Name, operation: Option<Name>, at: Time) returns (g: File, id: int)
      requires Valid()
      modifies this`eventSequence
      ensures Valid() && View() == old(View()).(eventSequence := old(View()).eventSequence + 1)
      ensures id == View().eventSequence
      ensures g == if stored.Some?
                   then Filed(stored.value, after, kind, id, actor, correlationId, deployment, operation, at)
                   else Opened(after, kind, id, actor, correlationId, deployment, operation, at)
    {
      hide View, Valid, Filed, Opened;
      id := NextEventId();
      if stored.Some? {
        g := ExtendTimeline(stored.value, after, kind, id, actor, correlationId, deployment, operation, at);
      } else {
        g := OpenTimeline(after, kind, id, actor, correlationId, deployment, operation, at);
      }
    }

    method ExtendTimeline(f: File, after: Incident, kind: EventKind, id: int, actor: Name, correlationId: Name,
                          deployment: Name, operation: Option<Name>, at: Time) returns (g: File)
      ensures g == Filed(f, after, kind, id, actor, correlationId, deployment, operation, at)
    {
      var previous := f.incident.state;
      var event := TimelineEvent(id, after.id, kind, Some(previous), after.state, actor, correlationId, deployment,
                                 operation, at);
      return f.(incident := after, events := f.events + [event]);
    }

    method OpenTimeline(after: Incident, kind: EventKind, id: int, actor: Name, correlationId: Name, deployment: Name,
                        operation: Option<Name>, at: Time) returns (g: File)
      ensures g == Opened(after, kind, id, actor, correlationId, deployment, operation, at)
    {
      var event := TimelineEvent(id, after.id, kind, None, after.state, actor, correlationId, deployment, operation,
                                 at);
      return File(after, [event], [], None);
    }

    method SubmitCommand(command: L.Envelope, client: Name, now: Time) returns (r: Result<L.Operation, L.Error>)
      requires Valid()
      modifies commands
      ensures Valid()
      ensures View() == old(View()).(ledger := L.Submit(old(View()).ledger, command, client, L.TemporalCommand, now).0)
      ensures r == L.Submit(old(View()).ledger, command, client, L.TemporalCommand, now).1
    {
      hide Gather, L.Submit;
      r := commands.Submit(command, client, L.TemporalCommand, now);
    }

    // ---------------------------------------------------------------- columns

    method NextStateOf(previous: Option<IncidentState>, incoming: Signal)
      returns (state: IncidentState, kind: EventKind)
      ensures state == NextState(previous, incoming).0
      ensures kind == NextState(previous, incoming).1
    {
      if incoming.ResolvedSignal? { return Resolved, AlertResolved; }
      if incoming.InhibitedSignal? { return Inhibited, AlertInhibited; }
      if incoming.SilencedSignal? { return Silenced, AlertSilenced; }
      if previous == Some(Resolved) { return Firing, AlertReopened; }
      if previous == Some(Acknowledged) { return Acknowledged, AlertFiring; }
      return Firing, AlertFiring;
    }

    method RenotifiedColumns(previous: Incident, w: Webhook, now: Time) returns (incident: Incident)
      ensures incident == Renotified(previous, w, now)
    {
      hide NextState;
      var state, _ := NextStateOf(Some(previous.state), SignalOf(w.alert));
      incident := previous.(state := state, lastSeenAt := now);
      incident := incident.(deployment := w.deployment, correlationId := w.correlationId);
      incident := incident.(version := incident.version + 1, updatedAt := now, duplicate := false);
    }

    method OccurredColumns(previous: Option<Incident>, w: Webhook, now: Time)
      returns (incident: Incident, kind: EventKind)
      ensures incident == Occurred(previous, w, now)
      ensures kind == NextState(if previous.Some? then Some(previous.value.state) else None, SignalOf(w.alert)).1
    {
      hide NextState;
      var state;
      state, kind := NextStateOf(if previous.Some? then Some(previous.value.state) else None, SignalOf(w.alert));
      var key := KeyOf(w);
      incident := Incident(key.id, key.tenant, w.alert.fingerprint, w.groupKey, state, w.alert.severity,
                           w.alert.environment, w.alert.details, w.alert.startsAt, now, w.alert.startsAt,
                           None, None, None,
                           None, w.deployment, w.correlationId, 1, now, now, false);
      if !w.alert.firing { incident := incident.(endsAt := Some(w.alert.endsAt)); }
      if state.Resolved? { incident := incident.(resolvedAt := Some(now)); }
      if previous.Some? {
        incident := incident.(firstSeenAt := previous.value.firstSeenAt, createdAt := previous.value.createdAt);
        incident := incident.(version := previous.value.version + 1);
        if state.Acknowledged? {
          incident := incident.(acknowledgedAt := previous.value.acknowledgedAt,
                                acknowledgedBy := previous.value.acknowledgedBy);
        }
      }
    }

    method ReportedColumns(previous: Incident, s: Snapshot, now: Time) returns (incident: Incident, kind: EventKind)
      ensures incident == Reported(previous, s, now)
      ensures kind == NextState(Some(previous.state), s.item.signal).1
    {
      hide NextState;
      var state;
      state, kind := NextStateOf(Some(previous.state), s.item.signal);
      incident := previous.(state := state, lastSeenAt := now);
      if s.item.signal.FiringSignal? { incident := incident.(endsAt := None); }
      incident := incident.(resolvedAt := if state.Resolved? then Some(now) else None);
      incident := incident.(deployment := s.deployment, correlationId := s.correlationId);
      incident := incident.(version := incident.version + 1, updatedAt := now, duplicate := false);
    }

    method ActedColumns(previous: Incident, o: Operator, now: Time) returns (incident: Incident, kind: EventKind)
      ensures incident == Acted(previous, o, now)
      ensures kind == KindOf(o.action)
    {
      incident := previous.(acknowledgedAt := None, acknowledgedBy := None, resolvedAt := None);
      match o.action {
        case Acknowledge =>
          incident := incident.(state := Acknowledged, acknowledgedAt := Some(now), acknowledgedBy := Some(o.actor));
          kind := OperatorAcknowledge;
        case Resolve =>
          incident := incident.(state := Resolved, resolvedAt := Some(now));
          kind := OperatorResolve;
        case Reopen =>
          incident := incident.(state := Firing, endsAt := None);
          kind := OperatorReopen;
      }
      incident := incident.(correlationId := o.correlationId);
      incident := incident.(version := incident.version + 1, updatedAt := now, duplicate := false);
    }

    // ---------------------------------------------------------------- webhooks

    /** The file after its notification is renewed: incident, event and notification. */
    method RenotifyFile(w: Webhook, f: File, repeat: bool, operation: L.Operation, now: Time) returns (g: File)
      requires Valid()
      modifies this`eventSequence, this`notificationSequence
      ensures Valid()
      ensures View() == old(View()).(eventSequence := old(View()).eventSequence + 1,
                                     notificationSequence := old(View()).notificationSequence + 1)
      ensures g == RenotifiedFile(f, w, repeat, operation, View().eventSequence, View().notificationSequence, now)
      ensures g.observed == f.observed
    {
      hide View, Renotified;
      var after := RenotifiedColumns(f.incident, w, now);
      var eventId, notificationId;
      g, eventId := AppendEvent(Some(f), after, if repeat then NotificationRepeat else AlertFiring, w.actor,
                                w.correlationId,
                                w.deployment, Some(operation.commandId), now);
      notificationId := NextNotificationId();
      var scheduledAt := now;
      if !repeat && w.kind.Grouped? { scheduledAt := scheduledAt + w.policy.groupWait; }
      var item := Notification(notificationId, operation.commandId, w.kind, scheduledAt);
      g := g.(notifications := g.notifications + [item]);
    }

    method Renotify(w: Webhook, f: File, repeat: bool, now: Time) returns (r: Result<IngestionResult, Refusal>)
      requires Valid() && KeyOf(w) in View().files && View().files[KeyOf(w)] == f
      modifies this, commands
      ensures Valid()
      ensures View() == I.Renotify(old(View()), w, repeat, now).0
      ensures r == I.Renotify(old(View()), w, repeat, now).1
    {
      hide View, Valid, L.Submit, RenotifyCommand, RenotifiedFile;
      var key := KeyOf(w);
      var operation := SubmitCommand(RenotifyCommand(f.incident, w, repeat), w.client, now);
      if operation.Err? { return Err(CommandRefused(operation.error)); }
      var after := RenotifyFile(w, f, repeat, operation.value, now);
      Save(key, after);
      var status := if !repeat && w.kind.Grouped? then ScheduledStatus else QueuedStatus;
      var eventId := LastEventId();
      var result := IngestionResult(after.incident, Some(operation.value), status, eventId, false);
      var entry := WebhookReplay(w.groupKey, w.alert, result);
      Remember(TransitionOf(w), entry);
      Remember(ReplayKey(key.tenant, if repeat then RepeatEvent(RequestOf(w)) else ActivationEvent(RequestOf(w))),
               entry);
      Remember(RequestReplayOf(w), entry);
      return Ok(result);
    }

    method LastEventId() returns (id: int)
      requires Valid()
      ensures id == View().eventSequence
    {
      return eventSequence;
    }

    method Suppress(w: Webhook, f: File, result: IngestionResult, now: Time)
      returns (r: Result<IngestionResult, Refusal>)
      requires Valid() && KeyOf(w) in View().files && View().files[KeyOf(w)] == f
      modifies this
      ensures Valid()
      ensures View() == I.Suppress(old(View()), w, result, now).0
      ensures r == I.Suppress(old(View()), w, result, now).1
    {
      hide View, Valid;
      var operation := if result.operation.Some? then Some(result.operation.value.commandId) else None;
      var g, eventId := AppendEvent(Some(f), f.incident, NotificationSuppressed, w.actor, w.correlationId, w.deployment,
                                    operation, now);
      Save(KeyOf(w), g);
      var noted := result.(eventId := eventId);
      Remember(RequestReplayOf(w), WebhookReplay(w.groupKey, w.alert, noted));
      return Ok(noted);
    }

    method Revisit(w: Webhook, known: Replay, now: Time) returns (r: Result<IngestionResult, Refusal>)
      requires Valid()
      modifies this, commands
      ensures Valid()
      ensures View() == I.Revisit(old(View()), w, known, now).0
      ensures r == I.Revisit(old(View()), w, known, now).1
    {
      hide View, Valid, I.Renotify, I.Suppress, Latest;
      if !SameContent(known, w) { return Err(IncidentConflict); }
      var stored := Load(KeyOf(w));
      if stored.None? { return Err(LookupFailure); }
      var f := stored.value;
      if w.alert.firing && w.notify && f.notifications == [] && f.incident.state.Firing? {
        r := Renotify(w, f, false, now);
        return;
      }
      var repeats := w.alert.firing && w.kind.Grouped? && w.notify && f.notifications != [];
      if repeats && f.incident.state.Firing? {
        var latest := LatestSchedule(f.notifications);
        if now >= latest + w.policy.repeatInterval {
          r := Renotify(w, f, true, now);
          return;
        }
      }
      var result := known.result.(duplicate := true, incident := f.incident.(duplicate := true),
                                  operation := Duplicate(known.result.operation));
      if !repeats { return Ok(result); }
      r := Suppress(w, f, result, now);
    }

    /** The file of a new transition: incident, event and, if a command was submitted, notification. */
    method OccurrenceFile(w: Webhook, stored: Option<File>, operation: Option<L.Operation>, now: Time) returns (g: File)
      requires Valid() && stored == if KeyOf(w) in View().files then Some(View().files[KeyOf(w)]) else None
      modifies this`eventSequence, this`notificationSequence
      ensures Valid()
      ensures var y := old(View());
              View() == y.(eventSequence := y.eventSequence + 1,
                           notificationSequence :=
                             if operation.Some? then y.notificationSequence + 1 else y.notificationSequence)
      ensures var id := if operation.Some? then Some(operation.value.commandId) else None;
              var y := old(View());
              g == OccurredNotifications(OccurredFile(y, w, id, now), w, id, y.notificationSequence + 1, now)
      ensures g.observed == if stored.Some? then stored.value.observed else None
    {
      hide View, Occurred, NextState;
      var after, kind := OccurredColumns(if stored.Some? then Some(stored.value.incident) else None, w, now);
      var id := if operation.Some? then Some(operation.value.commandId) else None;
      var eventId;
      g, eventId := AppendEvent(stored, after, kind, w.actor, w.correlationId, w.deployment, id, now);
      if operation.Some? {
        var notificationId := NextNotificationId();
        var scheduledAt := now;
        if w.kind.Grouped? { scheduledAt := scheduledAt + w.policy.groupWait; }
        var item := Notification(notificationId, operation.value.commandId, w.kind, scheduledAt);
        g := g.(notifications := g.notifications + [item]);
      }
    }

    method RecordOccurrence(w: Webhook, operation: Option<L.Operation>, now: Time)
      returns (r: Result<IngestionResult, Refusal>)
      requires Valid()
      modifies this
      ensures Valid()
      ensures View() == I.RecordOccurrence(old(View()), w, old(View()).ledger, operation, now).0
      ensures r == I.RecordOccurrence(old(View()), w, old(View()).ledger, operation, now).1
    {
      hide View, Valid, OccurrenceStatus, OccurredFile, OccurredNotifications;
      var stored := Load(KeyOf(w));
      var f := OccurrenceFile(w, stored, operation, now);
      Save(KeyOf(w), f);
      var eventId := LastEventId();
      var result := IngestionResult(f.incident, operation, OccurrenceStatus(w, operation), eventId, false);
      var entry := WebhookReplay(w.groupKey, w.alert, result);
      Remember(TransitionOf(w), entry);
      Remember(RequestReplayOf(w), entry);
      return Ok(result);
    }

    method Occur(w: Webhook, now: Time) returns (r: Result<IngestionResult, Refusal>)
      requires Valid()
      modifies this, commands
      ensures Valid()
      ensures View() == I.Occur(old(View()), w, now).0
      ensures r == I.Occur(old(View()), w, now).1
    {
      hide View, Valid, CancelPending, L.Submit, BuildCommand, I.RecordOccurrence;
      ghost var start := View();
      var stored := Load(KeyOf(w));
      if !w.alert.firing && w.kind.Grouped? && stored.Some? {
        var failed := CancelPendingNotifications(KeyOf(w), stored.value.notifications, w.actor,
                                                 RESOLVED_BEFORE_GROUP_WAIT,
                                                 now);
        if failed.Some? { return Err(CommandRefused(failed.value)); }
      }
      if !w.notify {
        OccurrenceOverLedger(start, View().ledger, w, None, now);
        r := RecordOccurrence(w, None, now);
        return;
      }
      var firstSeenAt := if stored.Some? then stored.value.incident.firstSeenAt else w.alert.startsAt;
      var operation := SubmitCommand(BuildCommand(w, KeyOf(w).id, firstSeenAt), w.client, now);
      if operation.Err? { return Err(CommandRefused(operation.error)); }
      OccurrenceOverLedger(start, View().ledger, w, Some(operation.value), now);
      r := RecordOccurrence(w, Some(operation.value), now);
    }

    method Ingest(w: Webhook, now: Time) returns (r: Result<IngestionResult, Refusal>)
      requires Valid()
      modifies this, commands
      ensures Valid()
      ensures View() == I.Ingest(old(View()), w, now).0
      ensures r == I.Ingest(old(View()), w, now).1
    {
      hide View, Valid, I.Revisit, I.Occur, AsDuplicate;
      var stored := Load(KeyOf(w));
      if stored.Some? && Predates(w.alert, stored.value.incident) { return Err(IncidentConflict); }
      var request := Recall(RequestReplayOf(w));
      if request.Some? {
        if !SameContent(request.value, w) { return Err(IncidentConflict); }
        return Ok(AsDuplicate(request.value.result));
      }
      var transition := Recall(TransitionOf(w));
      if transition.Some? {
        r := Revisit(w, transition.value, now);
        return;
      }
      r := Occur(w, now);
    }

    // ---------------------------------------------------------------- snapshots and operators

    /** What a repeated snapshot is answered with; None when it is new. */
    method StatusReplayOf(s: Snapshot) returns (answer: Option<Result<Incident, Refusal>>)
      requires Valid()
      ensures answer == RepeatedStatus(View(), s)
    {
      hide View, Valid;
      var event := Recall(StatusKeyOf(s));
      var request := Recall(StatusRequestOf(s));
      if event.Some? && request.Some? && event.value != request.value { return Some(Err(IncidentConflict)); }
      if event.None? && request.None? { return None; }
      var known := if event.Some? then event.value else request.value;
      if !known.StatusReplay? || known.item != s.item || known.observedAt != s.observedAt {
        return Some(Err(IncidentConflict));
      }
      return Some(Ok(known.incident.(duplicate := true)));
    }

    /** Whether evidence on file is at least as recent as the observation. */
    method IsOutdated(f: File, observedAt: Time) returns (outdated: bool)
      ensures outdated == Outdated(f, observedAt)
    {
      if f.observed.Some? && observedAt <= f.observed.value { return true; }
      return f.incident.state.Resolved? && f.incident.endsAt.Some? && observedAt <= f.incident.endsAt.value;
    }

    method WriteStatus(key: L.Key, f: File, s: Snapshot, now: Time) returns (after: Incident)
      requires Valid() && key in View().files && View().files[key] == f
      modifies this
      ensures Valid()
      ensures View() == RecordStatus(old(View()), key, s, old(View()).ledger, now)
      ensures after == Reported(f.incident, s, now)
    {
      hide View, Valid, Reported, NextState;
      var kind;
      after, kind := ReportedColumns(f.incident, s, now);
      var g, _ := AppendEvent(Some(f), after, kind, s.actor, s.correlationId, s.deployment, None, s.observedAt);
      g := g.(observed := Some(s.observedAt));
      Save(key, g);
      var entry := StatusReplay(s.item, s.observedAt, after);
      Remember(StatusKeyOf(s), entry);
      Remember(StatusRequestOf(s), entry);
    }

    method IngestStatus(s: Snapshot, now: Time) returns (r: Result<Incident, Refusal>)
      requires Valid()
      modifies this, commands
      ensures Valid()
      ensures View() == I.IngestStatus(old(View()), s, now).0
      ensures r == I.IngestStatus(old(View()), s, now).1
    {
      hide View, Valid, CancelPending, Reported, RecordStatus, Outdated, RepeatedStatus, I.IngestStatus;
      StatusCases(View(), s, now);
      ghost var start := View();
      var answer := StatusReplayOf(s);
      if answer.Some? { return answer.value; }
      var key := IncidentKey(s.tenant, s.item.fingerprint);
      var stored := Load(key);
      if stored.None? || stored.value.incident.groupKey != s.item.groupKey { return Err(IncidentNotFound); }
      var f := stored.value;
      if f.incident.startsAt != s.item.startsAt { return Err(IncidentConflict); }
      var outdated := IsOutdated(f, s.observedAt);
      if outdated { return Err(IncidentConflict); }
      if !s.item.signal.FiringSignal? {
        var failed := CancelPendingNotifications(key, f.notifications, s.actor, LEFT_FIRING_BEFORE_GROUP_WAIT, now);
        if failed.Some? { return Err(CommandRefused(failed.value)); }
      }
      StatusOverLedger(start, View().ledger, key, s, now);
      var after := WriteStatus(key, f, s, now);
      return Ok(after);
    }

    method WriteAction(f: File, o: Operator, now: Time) returns (after: Incident)
      requires Valid() && o.key in View().files && View().files[o.key] == f
      modifies this
      ensures Valid()
      ensures View() == RecordAction(old(View()), o, old(View()).ledger, now)
      ensures after == Acted(f.incident, o, now)
    {
      hide View, Valid, Acted, KindOf;
      var kind;
      after, kind := ActedColumns(f.incident, o, now);
      var g, _ := AppendEvent(Some(f), after, kind, o.actor, o.correlationId, f.incident.deployment, None, now);
      Save(o.key, g);
      RecordMutation(MutationKey(o.key, o.action, o.actor, o.idempotencyKey),
                     Mutation(o.expectedVersion, o.reason, after));
    }

    method Mutate(o: Operator, now: Time) returns (r: Result<Incident, Refusal>)
      requires Valid()
      modifies this, commands
      ensures Valid()
      ensures View() == I.Operate(old(View()), o, now).0
      ensures r == I.Operate(old(View()), o, now).1
    {
      hide View, Valid, CancelPending, Acted, RecordAction;
      ghost var start := View();
      var known := RecallMutation(MutationKey(o.key, o.action, o.actor, o.idempotencyKey));
      if known.Some? {
        if known.value.expectedVersion != o.expectedVersion || known.value.reason != o.reason {
          return Err(IncidentConflict);
        }
        return Ok(known.value.incident.(duplicate := true));
      }
      var stored := Load(o.key);
      if stored.None? { return Err(IncidentNotFound); }
      var f := stored.value;
      if f.incident.version != o.expectedVersion { return Err(IncidentConflict); }
      if !Allows(o.action, f.incident.state) { return Err(IncidentConflict); }
      if o.action.Resolve? {
        var failed := CancelPendingNotifications(o.key, f.notifications, o.actor, OPERATOR_RESOLVED, now);
        if failed.Some? { return Err(CommandRefused(failed.value)); }
      }
      ActionOverLedger(start, View().ledger, o, now);
      var after := WriteAction(f, o, now);
      return Ok(after);
    }
  }

  /** What a snapshot that is already on record is answered with. */
  function RepeatedStatus(y: Projection, s: Snapshot): Option<Result<Incident, Refusal>> {
    var event, request := StatusKeyOf(s), StatusRequestOf(s);
    if event in y.replays && request in y.replays && y.replays[event] != y.replays[request]
    then Some(Err(IncidentConflict))
    else if event in y.replays || request in y.replays then
      var known := if event in y.replays then y.replays[event] else y.replays[request];
      if known.StatusReplay? && known.item == s.item && known.observedAt == s.observedAt
      then Some(Ok(known.incident.(duplicate := true))) else Some(Err(IncidentConflict))
    else None
  }

  /** A snapshot case by case. */
  lemma StatusCases(y: Projection, s: Snapshot, now: Time)
    ensures var key := IncidentKey(s.tenant, s.item.fingerprint);
            var answer := RepeatedStatus(y, s);
            I.IngestStatus(y, s, now)
            == if answer.Some? then (y, answer.value)
               else if key !in y.files || y.files[key].incident.groupKey != s.item.groupKey
               then (y, Err(IncidentNotFound))
               else if y.files[key].incident.startsAt != s.item.startsAt then (y, Err(IncidentConflict))
               else if Outdated(y.files[key], s.observedAt) then (y, Err(IncidentConflict))
               else
                 var cancelled := StatusCancel(y, key, s, now);
                 if cancelled.1.Some? then (y.(ledger := cancelled.0), Err(CommandRefused(cancelled.1.value)))
                 else (RecordStatus(y, key, s, cancelled.0, now), Ok(Reported(y.files[key].incident, s, now)))
  {
    hide CancelPending, Reported, RecordStatus, Outdated;
  }

  lemma StatusOverLedger(y: Projection, l: L.Ledger, key: L.Key, s: Snapshot, now: Time)
    requires key in y.files
    ensures RecordStatus(y.(ledger := l), key, s, l, now) == RecordStatus(y, key, s, l, now)
  {
  }

  lemma ActionOverLedger(y: Projection, l: L.Ledger, o: Operator, now: Time)
    requires o.key in y.files
    ensures RecordAction(y.(ledger := l), o, l, now) == RecordAction(y, o, l, now)
  {
  }

  lemma OccurrenceOverLedger(y: Projection, l: L.Ledger, w: Webhook, operation: Option<L.Operation>, now: Time)
    ensures I.RecordOccurrence(y.(ledger := l), w, l, operation, now) == I.RecordOccurrence(y, w, l, operation, now)
  {
    hide Occurred, NextState, OccurrenceStatus, Filed, Opened;
  }

  /** Going through one more notification. */
  lemma Unfinished(l: L.Ledger, key: L.Key, items: seq<Notification>, i: int, actor: Name, reason: Name, now: Time)
    requires 0 <= i < |items| && CancelPending(l, key, items[..i], actor, reason, now).1.None?
    ensures CancelPending(l, key, items[..i + 1], actor, reason, now)
         == CancelOne(CancelPending(l, key, items[..i], actor, reason, now).0, key, items[i], actor, reason, now)
  {
    assert items[..i + 1][..i] == items[..i];
  }

  /** Once a notification is refused the others are not looked at. */
  lemma {:induction false} Finished(l: L.Ledger, key: L.Key, items: seq<Notification>, i: int, actor: Name,
                                    reason: Name,
                                    now: Time)
    requires 0 <= i <= |items| && CancelPending(l, key, items[..i], actor, reason, now).1.Some?
    ensures CancelPending(l, key, items, actor, reason, now) == CancelPending(l, key, items[..i], actor, reason, now)
    decreases |items|
  {
    hide CancelOne;
    if i < |items| {
      assert items[..|items| - 1][..i] == items[..i];
      Finished(l, key, items[..|items| - 1], i, actor, reason, now);
    } else {
      assert items[..i] == items;
    }
  }
}
