/**
 What the incident projection promises over whole runs: unbroken timelines, ordered occurrences,
 closed occurrences that stay closed, cancelled notifications, and paced repetitions.
 */
module IncidentTheorems {
  import opened Identities
  import L = CommandLedger
  import LI = LedgerInvariants
  import LT = LedgerTheorems
  import opened Incidents
  import opened NotificationCancel
  import opened IncidentInvariants

  // ---------------------------------------------------------------- timelines

  /**
   In every reachable projection an incident's events chain from nothing to its stored state, their
   ids increase, its version counts the events other than suppressed repetitions, its stamps agree with
   its state, and it has exactly one notification per event that announces one.
   */
  lemma TimelineHolds(steps: seq<Step>, k: L.Key)
    requires k in Run(START, steps).files
    ensures Timeline(Run(START, steps).files[k])
    ensures Accounted(Run(START, steps).files[k], Run(START, steps).notificationSequence)
  {
    hide Run, LI.Inv, NotificationsInv, TransitionsInv, Timeline, Accounted;
    Reachable(steps);
    assert FileOk(Run(START, steps).files[k], Run(START, steps).eventSequence);
  }

  /** No two notifications of an incident share an operation, and every operation is in the ledger. */
  lemma NotificationsAreDistinct(steps: seq<Step>, k: L.Key)
    requires k in Run(START, steps).files
    ensures var y := Run(START, steps);
            DistinctOperations(y.files[k].notifications) && Known(y.ledger, k, y.files[k].notifications)
  {
    hide Run, LI.Inv, FilesInv, TransitionsInv, AccountsInv;
    Reachable(steps);
    var y := Run(START, steps);
    assert NotificationsOk(y.replays, y.ledger, k, y.files[k].notifications);
  }

  /** The unguarded dictionary access of the replay path always finds its incident. */
  lemma ReplayFindsIncident(steps: seq<Step>, w: Webhook, now: Time)
    ensures Ingest(Run(START, steps), w, now).1 != Err(LookupFailure)
  {
    hide Run, LI.Inv, FilesInv, NotificationsInv, AccountsInv, Renotify, Suppress, Occur, Latest;
    var y := Run(START, steps);
    Reachable(steps);
    if TransitionOf(w) in y.replays { assert KeyOf(w) in y.files; }
    RenotifyNeverLooksUp(y, w, now);
  }

  lemma RenotifyNeverLooksUp(y: Projection, w: Webhook, now: Time)
    ensures KeyOf(w) in y.files ==>
              && Renotify(y, w, true, now).1 != Err(LookupFailure)
              && Renotify(y, w, false, now).1 != Err(LookupFailure)
              && forall r :: Suppress(y, w, r, now).1.Ok?
    ensures Occur(y, w, now).1 != Err(LookupFailure)
  {
  }

  // ---------------------------------------------------------------- occurrences

  /** `g` is `f` at some later time. */
  predicate Later(f: File, g: File) {
    && f.events <= g.events && f.notifications <= g.notifications
    && f.incident.startsAt <= g.incident.startsAt
    && f.incident.firstSeenAt == g.incident.firstSeenAt
    && f.incident.createdAt == g.incident.createdAt
    && f.incident.version <= g.incident.version
    && (f.observed.Some? ==> g.observed.Some? && f.observed.value <= g.observed.value)
  }

  lemma LaterTransitive(f: File, g: File, h: File)
    requires Later(f, g) && Later(g, h)
    ensures Later(f, h)
  {
  }

  lemma LaterItself(f: File)
    ensures Later(f, f)
  {
  }

  lemma OccurLater(y: Projection, w: Webhook, now: Time, k: L.Key)
    requires k in y.files && (k == KeyOf(w) ==> !Predates(w.alert, y.files[k].incident))
    ensures k in Occur(y, w, now).0.files && Later(y.files[k], Occur(y, w, now).0.files[k])
  {
    hide OccurrenceCancel, L.Submit, OccurrenceCommand, OccurrenceStatus, RenotifySchedule;
  }

  lemma RenotifyLater(y: Projection, w: Webhook, repeat: bool, now: Time, k: L.Key)
    requires k in y.files && KeyOf(w) in y.files
    ensures k in Renotify(y, w, repeat, now).0.files && Later(y.files[k], Renotify(y, w, repeat, now).0.files[k])
  {
    hide L.Submit, RenotifyCommand, RenotifySchedule;
  }

  lemma IngestLater(y: Projection, w: Webhook, now: Time, k: L.Key)
    requires k in y.files
    ensures k in Ingest(y, w, now).0.files && Later(y.files[k], Ingest(y, w, now).0.files[k])
  {
    hide Later, Renotify, Occur, Latest, Suppress;
    LaterItself(y.files[k]);
    if !(KeyOf(w) in y.files && Predates(w.alert, y.files[KeyOf(w)].incident)) { OccurLater(y, w, now, k); }
    if KeyOf(w) in y.files {
      RenotifyLater(y, w, true, now, k);
      RenotifyLater(y, w, false, now, k);
      forall r { SuppressLater(y, w, r, now, k); }
    }
  }

  lemma SuppressLater(y: Projection, w: Webhook, result: IngestionResult, now: Time, k: L.Key)
    requires k in y.files && KeyOf(w) in y.files
    ensures k in Suppress(y, w, result, now).0.files && Later(y.files[k], Suppress(y, w, result, now).0.files[k])
  {
  }

  lemma StatusLater(y: Projection, s: Snapshot, now: Time, k: L.Key)
    requires k in y.files
    ensures k in IngestStatus(y, s, now).0.files && Later(y.files[k], IngestStatus(y, s, now).0.files[k])
  {
    hide StatusCancel;
  }

  lemma OperateLater(y: Projection, o: Operator, now: Time, k: L.Key)
    requires k in y.files
    ensures k in Operate(y, o, now).0.files && Later(y.files[k], Operate(y, o, now).0.files[k])
  {
    hide OperatorCancel;
  }

  lemma StepLater(y: Projection, step: Step, k: L.Key)
    requires k in y.files
    ensures k in Apply(y, step).files && Later(y.files[k], Apply(y, step).files[k])
  {
    hide Later, Ingest, IngestStatus, Operate, L.Apply;
    match step
    case IngestStep(w, at) => IngestLater(y, w, at, k);
    case StatusStep(s, at) => StatusLater(y, s, at, k);
    case OperatorStep(o, at) => OperateLater(y, o, at, k);
    case LedgerStep(step) => LaterItself(y.files[k]);
  }

  /**
   Over any run events and notifications are only appended, starts_at never decreases, first_seen_at
   never changes and the last status observation never goes back.
   */
  lemma {:induction false} OccurrencesAdvance(y: Projection, steps: seq<Step>, k: L.Key)
    requires k in y.files
    ensures k in Run(y, steps).files && Later(y.files[k], Run(y, steps).files[k])
  {
    hide Later, Apply;
    if steps == [] {
      LaterItself(y.files[k]);
    } else {
      var before := Run(y, steps[..|steps| - 1]);
      OccurrencesAdvance(y, steps[..|steps| - 1], k);
      StepLater(before, steps[|steps| - 1], k);
      LaterTransitive(y.files[k], before.files[k], Run(y, steps).files[k]);
    }
  }

  /** The snapshot is accepted as a new observation. */
  predicate Observes(y: Projection, s: Snapshot, now: Time) {
    && StatusKeyOf(s) !in y.replays && StatusRequestOf(s) !in y.replays
    && IngestStatus(y, s, now).1.Ok?
  }

  lemma ObservationRecorded(y: Projection, s: Snapshot, now: Time)
    requires Observes(y, s, now)
    ensures var key := IncidentKey(s.tenant, s.item.fingerprint);
            && key in y.files && key in IngestStatus(y, s, now).0.files
            && IngestStatus(y, s, now).0.files[key].observed == Some(s.observedAt)
            && (y.files[key].observed.Some? ==> y.files[key].observed.value < s.observedAt)
  {
    hide StatusCancel;
  }

  /** Of two accepted snapshots of an incident, however far apart, the later one observed strictly later. */
  lemma ObservationsIncrease(y: Projection, s: Snapshot, now: Time, between: seq<Step>, t: Snapshot, at: Time)
    requires t.tenant == s.tenant && t.item.fingerprint == s.item.fingerprint
    requires Observes(y, s, now) && Observes(Run(IngestStatus(y, s, now).0, between), t, at)
    ensures s.observedAt < t.observedAt
  {
    hide IngestStatus, Run;
    ObservationRecorded(y, s, now);
    OccurrencesAdvance(IngestStatus(y, s, now).0, between, IncidentKey(s.tenant, s.item.fingerprint));
    ObservationRecorded(Run(IngestStatus(y, s, now).0, between), t, at);
  }

  // ---------------------------------------------------------------- closed occurrences

  /** Every occurrence of the incident that started at `start` or earlier is over. */
  predicate Closed(y: Projection, key: L.Key, start: Time) {
    && key in y.files
    && (y.files[key].incident.startsAt > start
        || (y.files[key].incident.startsAt == start && y.files[key].incident.endsAt.Some?))
  }

  /** The steps that reopen an incident: a firing snapshot and an operator's reopen. */
  predicate Reopens(step: Step, key: L.Key) {
    || (&& step.StatusStep? && step.s.item.signal.FiringSignal?
        && IncidentKey(step.s.tenant, step.s.item.fingerprint) == key)
    || (step.OperatorStep? && step.o.action.Reopen? && step.o.key == key)
  }

  /** A firing webhook is turned away as old exactly when its occurrence is closed. */
  lemma OldExactlyWhenClosed(y: Projection, w: Webhook)
    requires w.alert.firing
    ensures (KeyOf(w) in y.files && Predates(w.alert, y.files[KeyOf(w)].incident))
       <==> Closed(y, KeyOf(w), w.alert.startsAt)
  {
  }

  lemma IngestKeepsClosed(y: Projection, w: Webhook, now: Time, key: L.Key, start: Time)
    requires Closed(y, key, start)
    ensures Closed(Ingest(y, w, now).0, key, start)
  {
    hide OccurrenceCancel, L.Submit, OccurrenceCommand, OccurrenceStatus, RenotifySchedule, RenotifyCommand, Latest;
  }

  lemma StatusKeepsClosed(y: Projection, s: Snapshot, now: Time, key: L.Key, start: Time)
    requires Closed(y, key, start) && !Reopens(StatusStep(s, now), key)
    ensures Closed(IngestStatus(y, s, now).0, key, start)
  {
    hide StatusCancel;
  }

  lemma OperateKeepsClosed(y: Projection, o: Operator, now: Time, key: L.Key, start: Time)
    requires Closed(y, key, start) && !Reopens(OperatorStep(o, now), key)
    ensures Closed(Operate(y, o, now).0, key, start)
  {
    hide OperatorCancel;
  }

  lemma {:induction false} StaysClosed(y: Projection, steps: seq<Step>, key: L.Key, start: Time)
    requires Closed(y, key, start) && forall i :: 0 <= i < |steps| ==> !Reopens(steps[i], key)
    ensures Closed(Run(y, steps), key, start)
  {
    hide Ingest, IngestStatus, Operate, L.Apply;
    if steps != [] {
      var n := |steps| - 1;
      var before := Run(y, steps[..n]);
      StaysClosed(y, steps[..n], key, start);
      match steps[n]
      case IngestStep(w, at) => IngestKeepsClosed(before, w, at, key, start);
      case StatusStep(s, at) => StatusKeepsClosed(before, s, at, key, start);
      case OperatorStep(o, at) => OperateKeepsClosed(before, o, at, key, start);
      case LedgerStep(step) => assert Run(y, steps).files == before.files;
    }
  }

  /** The webhook is accepted as a new transition. */
  predicate Occurs(y: Projection, w: Webhook, now: Time) {
    RequestReplayOf(w) !in y.replays && TransitionOf(w) !in y.replays && Ingest(y, w, now).1.Ok?
  }

  lemma ResolutionCloses(y: Projection, w: Webhook, now: Time)
    requires Occurs(y, w, now) && !w.alert.firing
    ensures Closed(Ingest(y, w, now).0, KeyOf(w), w.alert.startsAt)
  {
    hide OccurrenceCancel, L.Submit, OccurrenceCommand, OccurrenceStatus, RenotifySchedule;
  }

  /**
   After a webhook resolved an occurrence, every firing webhook with the same or an older start is
   refused and changes nothing, whatever happens in between, until the incident is reopened by a
   firing snapshot or by an operator.
   */
  lemma ResolvedOccurrenceRefusesFiring(y: Projection, w: Webhook, now: Time, between: seq<Step>, late: Webhook,
                                        at: Time)
    requires Occurs(y, w, now) && !w.alert.firing
    requires forall i :: 0 <= i < |between| ==> !Reopens(between[i], KeyOf(w))
    requires KeyOf(late) == KeyOf(w) && late.alert.firing && late.alert.startsAt <= w.alert.startsAt
    ensures var later := Run(Ingest(y, w, now).0, between);
            Ingest(later, late, at) == (later, Err(IncidentConflict))
  {
    ResolutionCloses(y, w, now);
    StaysClosed(Ingest(y, w, now).0, between, KeyOf(w), w.alert.startsAt);
    hide Occurs, Run, Occur, Revisit;
    var later := Run(Ingest(y, w, now).0, between);
    assert Closed(later, KeyOf(late), late.alert.startsAt);
    OldExactlyWhenClosed(later, late);
  }

  /** A firing snapshot that is accepted, and an operator's reopen, open the occurrence again. */
  lemma SnapshotReopens(y: Projection, s: Snapshot, now: Time)
    requires Observes(y, s, now) && s.item.signal.FiringSignal?
    ensures !Closed(IngestStatus(y, s, now).0, IncidentKey(s.tenant, s.item.fingerprint), s.item.startsAt)
  {
    hide StatusCancel;
  }

  lemma OperatorReopens(y: Projection, o: Operator, now: Time)
    requires o.action.Reopen? && MutationKey(o.key, o.action, o.actor, o.idempotencyKey) !in y.mutations
    requires Operate(y, o, now).1.Ok?
    ensures !Closed(Operate(y, o, now).0, o.key, Operate(y, o, now).1.value.startsAt)
  {
    hide OperatorCancel;
  }

  // ---------------------------------------------------------------- cancelled notifications

  /** No notification that the incident had in `y` still waits to be sent in ledger `l`. */
  ghost predicate NoneStillPending(y: Projection, l: L.Ledger, key: L.Key, now: Time) {
    key in y.files
    && forall i :: 0 <= i < |y.files[key].notifications| ==> !StillPending(l, key, y.files[key].notifications[i], now)
  }

  /** Some pending notification already has a cancel by this actor on record. */
  ghost predicate CancelBlocked(y: Projection, key: L.Key, actor: Name, now: Time) {
    key in y.files
    && exists i :: && 0 <= i < |y.files[key].notifications|
                   && Blocked(y.ledger, key, y.files[key].notifications[i], actor, now)
  }

  lemma SweepOfIncident(y: Projection, key: L.Key, actor: Name, reason: Name, now: Time)
    requires Inv(y) && key in y.files
    ensures var swept := CancelPending(y.ledger, key, y.files[key].notifications, actor, reason, now);
            && (swept.1.None? ==> NoneStillPending(y, swept.0, key, now))
            && (swept.1.Some? <==> CancelBlocked(y, key, actor, now))
            && (swept.1.Some? ==> swept.1 == Some(L.Conflict))
            && LI.Inv(swept.0) && Calms(y.ledger, swept.0) && swept.0.records.Keys == y.ledger.records.Keys
  {
    hide Inv, LI.Inv, FileOk, CancelPending, StillPending, Blocked, Swept, Calms;
    var items := y.files[key].notifications;
    InvFacts(y, key);
    var swept := CancelPending(y.ledger, key, items, actor, reason, now);
    SweepKeeps(y.ledger, key, items, actor, reason, now);
    SweptFacts(y.ledger, swept.0, key, items);
    SweepFailsIff(y.ledger, key, items, actor, reason, now);
    if swept.1.None? {
      forall i | 0 <= i < |items| ensures !StillPending(swept.0, key, items[i], now) {
        SweepCancels(y.ledger, key, items, actor, reason, now, i);
      }
    }
  }

  /** A snapshot that takes an incident out of firing leaves none of its notifications waiting to be sent. */
  lemma StatusCancelsNotifications(steps: seq<Step>, s: Snapshot, now: Time)
    requires Observes(Run(START, steps), s, now) && !s.item.signal.FiringSignal?
    ensures var y := Run(START, steps);
            NoneStillPending(y, IngestStatus(y, s, now).0.ledger, IncidentKey(s.tenant, s.item.fingerprint), now)
  {
    hide Run, Inv, LI.Inv, CancelPending, NoneStillPending, CancelBlocked, Calms;
    var y := Run(START, steps);
    var key := IncidentKey(s.tenant, s.item.fingerprint);
    Reachable(steps);
    if key in y.files { SweepOfIncident(y, key, s.actor, LEFT_FIRING_BEFORE_GROUP_WAIT, now); }
  }

  /** The operator's request passes every check of its own. */
  predicate MayResolve(y: Projection, o: Operator) {
    && o.action.Resolve? && MutationKey(o.key, o.action, o.actor, o.idempotencyKey) !in y.mutations
    && o.key in y.files && y.files[o.key].incident.version == o.expectedVersion
    && !y.files[o.key].incident.state.Resolved?
  }

  /**
   An operator's resolve goes through exactly when no pending notification carries a recorded cancel
   of that operator, and then none of the incident's notifications still waits to be sent.  A refused
   resolve leaves the incident as it was.
   */
  lemma ResolveCancelsNotifications(steps: seq<Step>, o: Operator, now: Time)
    requires MayResolve(Run(START, steps), o)
    ensures var y := Run(START, steps);
            var (y', r) := Operate(y, o, now);
            && (r.Ok? <==> !CancelBlocked(y, o.key, o.actor, now))
            && (r.Ok? ==> NoneStillPending(y, y'.ledger, o.key, now))
            && (r.Err? ==> r == Err(CommandRefused(L.Conflict)) && y' == y.(ledger := y'.ledger))
  {
    hide Run, Inv, LI.Inv, CancelPending, NoneStillPending, CancelBlocked, Calms;
    var y := Run(START, steps);
    Reachable(steps);
    SweepOfIncident(y, o.key, o.actor, OPERATOR_RESOLVED, now);
  }

  lemma CalmThenPending(y: Projection, l: L.Ledger, l': L.Ledger, key: L.Key, now: Time)
    requires NoneStillPending(y, l, key, now) && Known(l, key, y.files[key].notifications)
    requires forall k :: k in l.records ==> k in l'.records && l'.records[k] == l.records[k]
    ensures NoneStillPending(y, l', key, now)
  {
    var items := y.files[key].notifications;
    forall i | 0 <= i < |items| ensures !StillPending(l', key, items[i], now) {
      assert !StillPending(l, key, items[i], now);
    }
  }

  lemma KnownStays(y: Projection, l: L.Ledger, key: L.Key)
    requires Inv(y) && key in y.files && l.records.Keys == y.ledger.records.Keys
    ensures Known(l, key, y.files[key].notifications)
  {
    hide LI.Inv, FilesInv, TransitionsInv, AccountsInv;
    assert NotificationsOk(y.replays, y.ledger, key, y.files[key].notifications);
  }

  /** A grouped resolution leaves none of the earlier notifications waiting to be sent. */
  lemma ResolutionCancelsNotifications(steps: seq<Step>, w: Webhook, now: Time)
    requires Occurs(Run(START, steps), w, now) && !w.alert.firing && w.kind.Grouped?
    requires KeyOf(w) in Run(START, steps).files
    ensures var y := Run(START, steps);
            NoneStillPending(y, Ingest(y, w, now).0.ledger, KeyOf(w), now)
  {
    hide Run, Inv, LI.Inv, CancelPending, NoneStillPending, CancelBlocked, Calms, Known, OccurrenceCommand, L.Submit,
      OccurredFile, OccurredNotifications, Revisit;
    var y := Run(START, steps);
    Reachable(steps);
    SweepOfIncident(y, KeyOf(w), w.actor, RESOLVED_BEFORE_GROUP_WAIT, now);
    var cancelled := OccurrenceCancel(y, w, now).0;
    KnownStays(y, cancelled, KeyOf(w));
    LT.AcceptedSubmission(cancelled, OccurrenceCommand(y, w), w.client, L.TemporalCommand, now);
    if w.notify {
      CalmThenPending(y, cancelled, L.Submit(cancelled, OccurrenceCommand(y, w), w.client, L.TemporalCommand, now).0,
                      KeyOf(w), now);
    }
  }

  // ---------------------------------------------------------------- paced repetitions

  /** A repeated notification is scheduled at least `interval` after everything before it. */
  predicate Paced(items: seq<Notification>, interval: int) {
    forall i, j :: 0 <= i < j < |items| && items[j].operation.RepeatCommandId?
                   ==> items[i].scheduledAt + interval <= items[j].scheduledAt
  }

  /** What a step may add to an incident's notifications. */
  ghost predicate Adds(y: Projection, step: Step, k: L.Key, after: seq<Notification>) {
    if k !in y.files then |after| <= 1
    else
      var before := y.files[k].notifications;
      || after == before
      || (&& |after| == |before| + 1 && after[..|before|] == before
          && (after[|before|].operation.RepeatCommandId? ==>
                step.IngestStep? && RepeatDue(y.files[k], step.w, step.at) && after[|before|].scheduledAt == step.at))
  }

  lemma RenotifyAdds(y: Projection, w: Webhook, repeat: bool, now: Time, k: L.Key)
    requires Inv(y) && KeyOf(w) in y.files && k in Renotify(y, w, repeat, now).0.files
    requires repeat ==> RepeatDue(y.files[KeyOf(w)], w, now)
    ensures Adds(y, IngestStep(w, now), k, Renotify(y, w, repeat, now).0.files[k].notifications)
  {
    hide Inv, LI.Inv, L.Submit, RenotifyCommand, RenotifiedFile, Latest, RepeatDue;
    var key := KeyOf(w);
    var command := RenotifyCommand(y.files[key].incident, w, repeat);
    InvFacts(y, key);
    LT.AcceptedSubmission(y.ledger, command, w.client, L.TemporalCommand, now);
    var submitted := L.Submit(y.ledger, command, w.client, L.TemporalCommand, now);
    RenotifyNames(y.files[key].incident, w, repeat);
    if submitted.1.Ok? {
      RenotifiedNotifications(y.files[key], w, repeat, submitted.1.value, y.eventSequence + 1,
                              y.notificationSequence + 1, now);
    }
  }

  lemma RenotifyNames(previous: Incident, w: Webhook, repeat: bool)
    ensures RenotifyCommand(previous, w, repeat).commandId.RepeatCommandId? <==> repeat
  {
  }

  lemma OccurAdds(y: Projection, w: Webhook, now: Time, k: L.Key)
    requires Inv(y) && k in Occur(y, w, now).0.files
    ensures Adds(y, IngestStep(w, now), k, Occur(y, w, now).0.files[k].notifications)
  {
    hide Inv, LI.Inv, L.Submit, OccurrenceCancel, OccurredFile, Latest, RepeatDue, OccurrenceStatus, RenotifySchedule;
    var cancelled := OccurrenceCancel(y, w, now);
    OccurrenceCancelKeeps(y, w, now);
    LT.AcceptedSubmission(cancelled.0, OccurrenceCommand(y, w), w.client, L.TemporalCommand, now);
    forall id { OccurredFileNotifications(y, w, id, now); }
  }

  lemma StepAdds(y: Projection, step: Step, k: L.Key)
    requires Inv(y) && k in Apply(y, step).files
    ensures Adds(y, step, k, Apply(y, step).files[k].notifications)
  {
    hide Inv, LI.Inv, L.Apply, Renotify, Occur, Latest, StatusCancel, OperatorCancel, Outdated, Reported, Acted, Allows;
    if step.IngestStep? {
      var w := step.w;
      if k in Occur(y, w, step.at).0.files { OccurAdds(y, w, step.at, k); }
      if KeyOf(w) in y.files {
        if k in Renotify(y, w, false, step.at).0.files { RenotifyAdds(y, w, false, step.at, k); }
        if k in Renotify(y, w, true, step.at).0.files && RepeatDue(y.files[KeyOf(w)], w, step.at) {
          RenotifyAdds(y, w, true, step.at, k);
        }
      }
    }
  }

  lemma AddsKeepsPace(y: Projection, step: Step, k: L.Key, after: seq<Notification>, interval: int)
    requires Adds(y, step, k, after) && (step.IngestStep? ==> interval <= step.w.policy.repeatInterval)
    requires k in y.files ==> Paced(y.files[k].notifications, interval)
    ensures Paced(after, interval)
  {
    if k in y.files && after != y.files[k].notifications {
      var before := y.files[k].notifications;
      forall i, j | 0 <= i < j < |after| && after[j].operation.RepeatCommandId?
        ensures after[i].scheduledAt + interval <= after[j].scheduledAt
      {
        assert after[i] == before[i];
        if j < |before| { assert after[j] == before[j]; }
      }
    }
  }

  /**
   Whatever the webhooks, snapshots, operators, clocks and ledger steps of a run, if every webhook was
   judged by a policy whose repeat interval is at least `interval`, each repeated notification is
   scheduled at least `interval` after every earlier notification of its incident.
   */
  lemma {:induction false} RepetitionsArePaced(steps: seq<Step>, interval: int, k: L.Key)
    requires forall i :: 0 <= i < |steps| && steps[i].IngestStep? ==> interval <= steps[i].w.policy.repeatInterval
    requires k in Run(START, steps).files
    ensures Paced(Run(START, steps).files[k].notifications, interval)
  {
    hide Inv, Apply, Adds, Paced;
    if steps != [] {
      var n := |steps| - 1;
      var before := Run(START, steps[..n]);
      Reachable(steps[..n]);
      if k in before.files { RepetitionsArePaced(steps[..n], interval, k); }
      StepAdds(before, steps[n], k);
      AddsKeepsPace(before, steps[n], k, Run(START, steps).files[k].notifications, interval);
    }
  }
}
