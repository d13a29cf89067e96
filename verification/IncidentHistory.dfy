/**
 How known webhooks, snapshots and operator actions are answered however a run goes on, and what the
 notifications of an incident say.
 */
module IncidentHistory {
  import opened Identities
  import L = CommandLedger
  import LI = LedgerInvariants
  import LT = LedgerTheorems
  import opened Incidents
  import opened NotificationCancel
  import opened IncidentInvariants
  import opened IncidentTheorems
  import opened IncidentAcceptance

  // ---------------------------------------------------------------- known transitions under a new request

  /** The incident on file has moved past the occurrence that the webhook speaks of. */
  predicate IsOld(f: File, w: Webhook) {
    || w.alert.startsAt < f.incident.startsAt
    || (w.alert.firing && w.alert.startsAt == f.incident.startsAt && f.incident.endsAt.Some?)
  }

  /** A firing alert that is to be announced, of an incident that is firing. */
  predicate Announceable(f: File, w: Webhook) { w.alert.firing && w.notify && f.incident.state.Firing? }

  /** Every notification so far was scheduled at least the repeat interval ago. */
  predicate IntervalOver(f: File, w: Webhook, now: Time) {
    forall i :: 0 <= i < |f.notifications| ==> f.notifications[i].scheduledAt + w.policy.repeatInterval <= now
  }

  /** Nothing was announced yet: the notification is made up for now. */
  predicate MakesUp(f: File, w: Webhook) { Announceable(f, w) && f.notifications == [] }

  predicate Repeats(f: File, w: Webhook, now: Time) {
    Announceable(f, w) && w.kind.Grouped? && f.notifications != [] && IntervalOver(f, w, now)
  }

  predicate OnlyNotes(f: File, w: Webhook, now: Time) {
    w.alert.firing && w.notify && w.kind.Grouped? && f.notifications != [] && !Repeats(f, w, now)
  }

  lemma RepeatDueIff(f: File, w: Webhook, now: Time)
    ensures RepeatDue(f, w, now) <==> Repeats(f, w, now)
  {
  }

  lemma RenotifyCommandAnnounces(previous: Incident, w: Webhook, repeat: bool)
    ensures Announces(RenotifyCommand(previous, w, repeat), w, previous.firstSeenAt, repeat)
  {
  }

  lemma RenotifyOutcome(y: Projection, w: Webhook, repeat: bool, now: Time)
    requires Inv(y) && KeyOf(w) in y.files && w.alert.firing && y.files[KeyOf(w)].incident.state.Firing?
    ensures var (y', r) := Renotify(y, w, repeat, now);
            var f := y.files[KeyOf(w)];
            && (r.Ok? ==> && KeyOf(w) in y'.files && y'.files == y.files[KeyOf(w) := y'.files[KeyOf(w)]]
                          && var g := y'.files[KeyOf(w)];
                             && g.incident.state.Firing? && g.incident.version == f.incident.version + 1
                             && Noted(Some(f), g, if repeat then NotificationRepeat else AlertFiring, w.actor, now)
                             && Notified(f.notifications, g.notifications, y'.ledger, w, f.incident.firstSeenAt, repeat,
                                         if !repeat && w.kind.Grouped? then now + w.policy.groupWait else now))
            && (r.Err? ==> y' == y)
  {
    hide Inv, LI.Inv, L.Submit, RenotifyCommand, Announces;
    var previous := y.files[KeyOf(w)].incident;
    RenotifyCommandAnnounces(previous, w, repeat);
    RenotifyMark(previous, w, repeat);
    assert LI.Inv(y.ledger) by { InvFacts(y, KeyOf(w)); }
    LT.AcceptedSubmission(y.ledger, RenotifyCommand(previous, w, repeat), w.client, L.TemporalCommand, now);
  }

  lemma SuppressOutcome(y: Projection, w: Webhook, result: IngestionResult, now: Time)
    requires KeyOf(w) in y.files
    ensures var (y', r) := Suppress(y, w, result, now);
            var f := y.files[KeyOf(w)];
            && r.Ok? && y'.ledger == y.ledger && KeyOf(w) in y'.files
            && y'.files == y.files[KeyOf(w) := y'.files[KeyOf(w)]]
            && y'.files[KeyOf(w)] == f.(events := y'.files[KeyOf(w)].events)
            && Noted(Some(f), y'.files[KeyOf(w)], NotificationSuppressed, w.actor, now)
  {
  }

  lemma TransitionHasFile(y: Projection, w: Webhook)
    requires Inv(y) && TransitionOf(w) in y.replays
    ensures KeyOf(w) in y.files
  {
    hide LI.Inv, FilesInv, NotificationsInv, AccountsInv;
  }

  /** What an accepted webhook with a known transition and a new request does. */
  ghost predicate RevisitedAs(y: Projection, w: Webhook, now: Time, y': Projection)
    requires KeyOf(w) in y.files
  {
    var key := KeyOf(w);
    var f := y.files[key];
    if MakesUp(f, w) || Repeats(f, w, now) then
      && key in y'.files && y'.files == y.files[key := y'.files[key]]
      && y'.files[key].incident.state.Firing? && y'.files[key].incident.version == f.incident.version + 1
      && Noted(Some(f), y'.files[key], if MakesUp(f, w) then AlertFiring else NotificationRepeat, w.actor, now)
      && Notified(f.notifications, y'.files[key].notifications, y'.ledger, w, f.incident.firstSeenAt, !MakesUp(f, w),
                  if MakesUp(f, w) && w.kind.Grouped? then now + w.policy.groupWait else now)
    else if OnlyNotes(f, w, now) then
      && y'.ledger == y.ledger && key in y'.files && y'.files == y.files[key := y'.files[key]]
      && y'.files[key] == f.(events := y'.files[key].events)
      && Noted(Some(f), y'.files[key], NotificationSuppressed, w.actor, now)
    else y' == y
  }

  /**
   A webhook that repeats a known transition under a new request is turned away if it is old or its
   content differs.  Otherwise it makes up for a notification that was never sent, repeats a grouped one
   once the interval is over, notes a grouped one that comes too early or finds the incident not firing,
   and in every other case changes nothing.
   */
  lemma RevisitOutcome(y: Projection, w: Webhook, now: Time)
    requires Inv(y) && RequestReplayOf(w) !in y.replays && TransitionOf(w) in y.replays
    ensures KeyOf(w) in y.files
    ensures var (y', r) := Ingest(y, w, now);
            var f, known := y.files[KeyOf(w)], y.replays[TransitionOf(w)];
            && (IsOld(f, w) || !(known.WebhookReplay? && known.groupKey == w.groupKey && known.alert == w.alert) ==>
                  y' == y && r == Err(IncidentConflict))
            && (r.Err? ==> y' == y)
            && (r.Ok? ==> RevisitedAs(y, w, now, y'))
            && ((&& !IsOld(f, w) && known.WebhookReplay? && known.groupKey == w.groupKey && known.alert == w.alert
                 && !MakesUp(f, w) && !Repeats(f, w, now)) ==> r.Ok?)
  {
    hide Inv, Renotify, Suppress, Occur, Latest, RepeatDue, Noted, Notified, IntervalOver;
    TransitionHasFile(y, w);
    var f := y.files[KeyOf(w)];
    RepeatDueIff(f, w, now);
    if MakesUp(f, w) { RenotifyOutcome(y, w, false, now); }
    if Repeats(f, w, now) { RenotifyOutcome(y, w, true, now); }
    forall r { SuppressOutcome(y, w, r, now); }
  }

  // ---------------------------------------------------------------- repetitions of a request

  predicate IsFinal(r: ReplayKey) { r.event.RequestEvent? || r.event.StatusEvent? }

  lemma IngestKeepsReplay(y: Projection, w: Webhook, now: Time, r: ReplayKey)
    requires r in y.replays && IsFinal(r)
    ensures var y' := Ingest(y, w, now).0; r in y'.replays && y'.replays[r] == y.replays[r]
  {
    hide OccurrenceCancel, L.Submit, OccurrenceCommand, OccurrenceStatus, RenotifySchedule, RenotifyCommand, Latest,
      OccurredFile, RenotifiedFile, OccurredNotifications;
  }

  lemma StepKeepsReplay(y: Projection, step: Step, r: ReplayKey)
    requires r in y.replays && IsFinal(r)
    ensures var y' := Apply(y, step); r in y'.replays && y'.replays[r] == y.replays[r]
  {
    hide Ingest, L.Apply, StatusCancel, OperatorCancel, Outdated, Reported, Acted;
    if step.IngestStep? { IngestKeepsReplay(y, step.w, step.at, r); }
  }

  lemma {:induction false} RunKeepsReplay(y: Projection, steps: seq<Step>, r: ReplayKey)
    requires r in y.replays && IsFinal(r)
    ensures var y' := Run(y, steps); r in y'.replays && y'.replays[r] == y.replays[r]
  {
    hide Apply;
    if steps != [] {
      RunKeepsReplay(y, steps[..|steps| - 1], r);
      StepKeepsReplay(Run(y, steps[..|steps| - 1]), steps[|steps| - 1], r);
    }
  }

  lemma OccurrenceIsRecorded(y: Projection, w: Webhook, now: Time)
    requires Occurs(y, w, now)
    ensures var (y', r) := Ingest(y, w, now);
            && RequestReplayOf(w) in y'.replays
            && y'.replays[RequestReplayOf(w)] == WebhookReplay(w.groupKey, w.alert, r.value)
  {
    hide OccurrenceCancel, L.Submit, OccurrenceCommand, OccurrenceStatus, OccurredFile, OccurredNotifications;
  }

  lemma RecordedRequestIsAnswered(y: Projection, w: Webhook, at: Time)
    requires RequestReplayOf(w) in y.replays && SameContent(y.replays[RequestReplayOf(w)], w)
    ensures var result := y.replays[RequestReplayOf(w)].result;
            Ingest(y, w, at)
            == (y, if KeyOf(w) in y.files && IsOld(y.files[KeyOf(w)], w) then Err(IncidentConflict)
                   else Ok(result.(duplicate := true, incident := result.incident.(duplicate := true),
                                   operation := if result.operation.None? then None
                                                else Some(result.operation.value.(duplicate := true)))))
  {
    hide Occur, Revisit;
  }

  /**
   However a run goes on, repeating the request of an accepted new webhook changes nothing: it gets the
   first answer, marked as a duplicate, or is turned away once the incident has moved past it.
   */
  lemma RepeatedWebhook(y: Projection, w: Webhook, now: Time, later: seq<Step>, at: Time)
    requires Occurs(y, w, now)
    ensures var (y', r) := Ingest(y, w, now);
            var z := Run(y', later);
            Ingest(z, w, at)
            == (z, if KeyOf(w) in z.files && IsOld(z.files[KeyOf(w)], w) then Err(IncidentConflict)
                   else Ok(r.value.(duplicate := true, incident := r.value.incident.(duplicate := true),
                                    operation := if r.value.operation.None? then None
                                                 else Some(r.value.operation.value.(duplicate := true)))))
  {
    OccurrenceIsRecorded(y, w, now);
    hide Ingest, Run, Occurs;
    RunKeepsReplay(Ingest(y, w, now).0, later, RequestReplayOf(w));
    RecordedRequestIsAnswered(Run(Ingest(y, w, now).0, later), w, at);
  }

  /** However a run goes on, repeating an accepted new snapshot gets the first answer and changes nothing. */
  lemma RepeatedSnapshot(y: Projection, s: Snapshot, now: Time, later: seq<Step>, at: Time)
    requires Observes(y, s, now)
    ensures var (y', r) := IngestStatus(y, s, now);
            var z := Run(y', later);
            IngestStatus(z, s, at) == (z, Ok(r.value.(duplicate := true)))
  {
    SnapshotIsRecorded(y, s, now);
    var y' := IngestStatus(y, s, now).0;
    RunKeepsReplay(y', later, StatusKeyOf(s));
    RunKeepsReplay(y', later, StatusRequestOf(s));
    hide Run, Observes, StatusCancel, RecordStatus, Reported;
  }

  lemma SnapshotIsRecorded(y: Projection, s: Snapshot, now: Time)
    requires Observes(y, s, now)
    ensures var (y', r) := IngestStatus(y, s, now);
            && StatusKeyOf(s) in y'.replays && StatusRequestOf(s) in y'.replays
            && y'.replays[StatusKeyOf(s)] == y'.replays[StatusRequestOf(s)]
               == StatusReplay(s.item, s.observedAt, r.value)
  {
    hide StatusCancel, Reported;
  }

  lemma StepKeepsAction(y: Projection, step: Step, m: MutationKey)
    requires m in y.mutations
    ensures var y' := Apply(y, step); m in y'.mutations && y'.mutations[m] == y.mutations[m]
  {
    hide L.Apply, L.Submit, OccurrenceCancel, StatusCancel, OperatorCancel, Outdated, Reported, Acted, OccurredFile,
      OccurredNotifications, RenotifiedFile, OccurrenceStatus, OccurrenceCommand, RenotifyCommand, Latest, Filed;
  }

  lemma {:induction false} RunKeepsAction(y: Projection, steps: seq<Step>, m: MutationKey)
    requires m in y.mutations
    ensures var y' := Run(y, steps); m in y'.mutations && y'.mutations[m] == y.mutations[m]
  {
    hide Apply;
    if steps != [] {
      RunKeepsAction(y, steps[..|steps| - 1], m);
      StepKeepsAction(Run(y, steps[..|steps| - 1]), steps[|steps| - 1], m);
    }
  }

  lemma ActionIsRecorded(y: Projection, o: Operator, now: Time)
    requires IsNewAction(y, o) && Operate(y, o, now).1.Ok?
    ensures var (y', r) := Operate(y, o, now);
            var m := MutationKey(o.key, o.action, o.actor, o.idempotencyKey);
            m in y'.mutations && y'.mutations[m] == Mutation(o.expectedVersion, o.reason, r.value)
  {
    hide OperatorCancel, Acted;
  }

  /**
   However a run goes on, repeating an accepted operator action gets the first answer and changes nothing;
   with another version or reason it conflicts.
   */
  lemma RepeatedAction(y: Projection, o: Operator, now: Time, later: seq<Step>, version: int, reason: Name, at: Time)
    requires IsNewAction(y, o) && Operate(y, o, now).1.Ok?
    ensures var (y', r) := Operate(y, o, now);
            var z := Run(y', later);
            Operate(z, o.(expectedVersion := version, reason := reason), at)
            == (z, if version == o.expectedVersion && reason == o.reason then Ok(r.value.(duplicate := true))
                   else Err(IncidentConflict))
  {
    ActionIsRecorded(y, o, now);
    RunKeepsAction(Operate(y, o, now).0, later, MutationKey(o.key, o.action, o.actor, o.idempotencyKey));
    hide Run, OperatorCancel, RecordAction, Acted;
  }

  // ---------------------------------------------------------------- what notifications say

  /** The command of a notification is on record as an alert mail about this very incident. */
  predicate MailOk(l: L.Ledger, k: L.Key, f: File, n: Notification) {
    var operation := L.Key(k.tenant, n.operation);
    && operation in l.records && l.records[operation].digest.Authenticated?
    && var c := l.records[operation].digest.command;
       && c.commandType == Text("observability.alert.email.send.v1") && c.target == Text("klyrow-alert-email")
       && c.payload.AlertMail? && c.payload.incident == k.id
       && k.id == IncidentId(k.tenant, c.payload.alert.fingerprint)
       && c.payload.firstSeenAt == f.incident.firstSeenAt
       && (c.payload.repeated ==> c.payload.alert.firing)
  }

  ghost predicate MailsOk(l: L.Ledger, k: L.Key, f: File) {
    forall i :: 0 <= i < |f.notifications| ==> MailOk(l, k, f, f.notifications[i])
  }

  ghost predicate KeepsContent(l: L.Ledger, l': L.Ledger) {
    forall k :: k in l.records ==> k in l'.records && l'.records[k].digest == l.records[k].digest
  }

  lemma LedgerStepContent(l: L.Ledger, step: L.Step)
    ensures KeepsContent(l, L.Apply(l, step))
  {
    hide L.Apply;
    forall k | k in l.records ensures k in L.Apply(l, step).records
      ensures L.Apply(l, step).records[k].digest == l.records[k].digest
    {
      LT.StepExtends(l, step, k);
    }
  }

  lemma ContentChains(a: L.Ledger, b: L.Ledger, c: L.Ledger)
    requires KeepsContent(a, b) && KeepsContent(b, c)
    ensures KeepsContent(a, c)
  {
  }

  lemma SameContentKept(l: L.Ledger)
    ensures KeepsContent(l, l)
  {
  }

  lemma CancelOneContent(l: L.Ledger, key: L.Key, item: Notification, actor: Name, reason: Name, now: Time)
    ensures KeepsContent(l, CancelOne(l, key, item, actor, reason, now).0)
  {
    hide L.Mutate, KeepsContent;
    SameContentKept(l);
    var operation := L.Key(key.tenant, item.operation);
    if operation in l.records {
      LedgerStepContent(l, L.MutateStep(operation, L.Cancel, actor, GroupWaitCancelKey(key.id, item.operation),
                                        l.records[operation].operation.resourceVersion, reason, now));
    }
  }

  lemma {:induction false} SweepContent(l: L.Ledger, key: L.Key, items: seq<Notification>, actor: Name, reason: Name,
                                        now: Time)
    ensures KeepsContent(l, CancelPending(l, key, items, actor, reason, now).0)
  {
    hide CancelOne, KeepsContent;
    if items == [] {
      SameContentKept(l);
    } else {
      var n := |items| - 1;
      var before := CancelPending(l, key, items[..n], actor, reason, now).0;
      SweepContent(l, key, items[..n], actor, reason, now);
      CancelOneContent(before, key, items[n], actor, reason, now);
      ContentChains(l, before, CancelOne(before, key, items[n], actor, reason, now).0);
    }
  }

  lemma SubmitContent(l: L.Ledger, command: L.Envelope, client: Name, now: Time)
    ensures KeepsContent(l, L.Submit(l, command, client, L.TemporalCommand, now).0)
  {
    LedgerStepContent(l, L.SubmitStep(command, client, L.TemporalCommand, now));
  }

  lemma OccurContent(y: Projection, w: Webhook, now: Time)
    ensures KeepsContent(y.ledger, Occur(y, w, now).0.ledger)
  {
    hide KeepsContent, L.Submit, CancelPending, OccurredFile, OccurredNotifications, OccurrenceStatus,
      OccurrenceCommand;
    SameContentKept(y.ledger);
    if KeyOf(w) in y.files {
      SweepContent(y.ledger, KeyOf(w), y.files[KeyOf(w)].notifications, w.actor, RESOLVED_BEFORE_GROUP_WAIT, now);
    }
    var swept := OccurrenceCancel(y, w, now).0;
    SubmitContent(swept, OccurrenceCommand(y, w), w.client, now);
    ContentChains(y.ledger, swept, L.Submit(swept, OccurrenceCommand(y, w), w.client, L.TemporalCommand, now).0);
  }

  lemma RenotifyContent(y: Projection, w: Webhook, repeat: bool, now: Time)
    requires KeyOf(w) in y.files
    ensures KeepsContent(y.ledger, Renotify(y, w, repeat, now).0.ledger)
  {
    hide KeepsContent, L.Submit, RenotifiedFile, RenotifyCommand;
    SubmitContent(y.ledger, RenotifyCommand(y.files[KeyOf(w)].incident, w, repeat), w.client, now);
  }

  lemma IngestContent(y: Projection, w: Webhook, now: Time)
    ensures KeepsContent(y.ledger, Ingest(y, w, now).0.ledger)
  {
    hide KeepsContent, Occur, Renotify, Latest, Filed;
    SameContentKept(y.ledger);
    OccurContent(y, w, now);
    if KeyOf(w) in y.files {
      RenotifyContent(y, w, true, now);
      RenotifyContent(y, w, false, now);
    }
  }

  lemma StepContent(y: Projection, step: Step)
    ensures KeepsContent(y.ledger, Apply(y, step).ledger)
  {
    hide KeepsContent, Ingest, L.Apply, CancelPending, Outdated, Reported, Acted, Filed;
    SameContentKept(y.ledger);
    match step
    case IngestStep(w, at) => IngestContent(y, w, at);
    case StatusStep(s, at) =>
      var key := IncidentKey(s.tenant, s.item.fingerprint);
      if key in y.files {
        SweepContent(y.ledger, key, y.files[key].notifications, s.actor, LEFT_FIRING_BEFORE_GROUP_WAIT, at);
      }
    case OperatorStep(o, at) =>
      if o.key in y.files {
        SweepContent(y.ledger, o.key, y.files[o.key].notifications, o.actor, OPERATOR_RESOLVED, at);
      }
    case LedgerStep(step) => LedgerStepContent(y.ledger, step);
  }

  lemma MailStays(l: L.Ledger, l': L.Ledger, k: L.Key, f: File, f': File, n: Notification)
    requires KeepsContent(l, l') && MailOk(l, k, f, n) && f'.incident.firstSeenAt == f.incident.firstSeenAt
    ensures MailOk(l', k, f', n)
  {
  }

  lemma NotifiedMails(l: L.Ledger, l': L.Ledger, w: Webhook, f: Option<File>, f': File, firstSeenAt: Time,
                      repeated: bool, at: Time)
    requires f.Some? ==> MailsOk(l, KeyOf(w), f.value) && f.value.incident.firstSeenAt == firstSeenAt
    requires KeepsContent(l, l') && f'.incident.firstSeenAt == firstSeenAt && (repeated ==> w.alert.firing)
    requires Notified(if f.Some? then f.value.notifications else [], f'.notifications, l', w, firstSeenAt, repeated, at)
    ensures MailsOk(l', KeyOf(w), f')
  {
    hide KeepsContent;
    var n := |f'.notifications| - 1;
    forall i | 0 <= i < |f'.notifications| ensures MailOk(l', KeyOf(w), f', f'.notifications[i]) {
      if i < n {
        assert f'.notifications[i] == f'.notifications[..n][i] == f.value.notifications[i];
        MailStays(l, l', KeyOf(w), f.value, f', f'.notifications[i]);
      }
    }
  }

  /** A step leaves the notifications of an incident alone, or it is a webhook that adds one about it. */
  lemma StepMails(y: Projection, step: Step, k: L.Key)
    requires Inv(y) && k in Apply(y, step).files && (k in y.files ==> MailsOk(y.ledger, k, y.files[k]))
    ensures MailsOk(Apply(y, step).ledger, k, Apply(y, step).files[k])
  {
    hide Inv, Ingest, IngestStatus, Operate, L.Apply, MailOk, Notified, OccurredAs, Noted, CancelBlocked, KeepsContent;
    var y' := Apply(y, step);
    StepContent(y, step);
    if k in y.files { StepLater(y, step, k); }
    if k in y.files && y'.files[k].notifications == y.files[k].notifications {
      forall i | 0 <= i < |y'.files[k].notifications|
        ensures MailOk(y'.ledger, k, y'.files[k], y'.files[k].notifications[i])
      {
        MailStays(y.ledger, y'.ledger, k, y.files[k], y'.files[k], y.files[k].notifications[i]);
      }
    } else {
      match step
      case IngestStep(w, at) => IngestMails(y, w, at, k);
      case StatusStep(s, at) => StatusAddsNone(y, s, at, k);
      case OperatorStep(o, at) => OperateAddsNone(y, o, at, k);
      case LedgerStep(step) =>
    }
  }

  lemma StatusAddsNone(y: Projection, s: Snapshot, now: Time, k: L.Key)
    requires k in IngestStatus(y, s, now).0.files
    ensures k in y.files && IngestStatus(y, s, now).0.files[k].notifications == y.files[k].notifications
  {
    hide StatusCancel, Outdated, Reported;
  }

  lemma OperateAddsNone(y: Projection, o: Operator, now: Time, k: L.Key)
    requires k in Operate(y, o, now).0.files
    ensures k in y.files && Operate(y, o, now).0.files[k].notifications == y.files[k].notifications
  {
    hide OperatorCancel, Acted;
  }

  lemma KnownRequestChangesNothing(y: Projection, w: Webhook, now: Time)
    requires RequestReplayOf(w) in y.replays
    ensures Ingest(y, w, now).0 == y
  {
    hide Occur, Revisit;
  }

  lemma IngestMails(y: Projection, w: Webhook, now: Time, k: L.Key)
    requires Inv(y) && k in Ingest(y, w, now).0.files && (k in y.files ==> MailsOk(y.ledger, k, y.files[k]))
    requires k in y.files ==>
               && Ingest(y, w, now).0.files[k].notifications != y.files[k].notifications
               && Ingest(y, w, now).0.files[k].incident.firstSeenAt == y.files[k].incident.firstSeenAt
    requires KeepsContent(y.ledger, Ingest(y, w, now).0.ledger)
    ensures MailsOk(Ingest(y, w, now).0.ledger, k, Ingest(y, w, now).0.files[k])
  {
    hide Inv, Ingest, MailOk, Notified, Noted, CancelBlocked, KeepsContent, CommandAccepted;
    var (y', r) := Ingest(y, w, now);
    var key := KeyOf(w);
    if RequestReplayOf(w) in y.replays {
      KnownRequestChangesNothing(y, w, now);
    } else if TransitionOf(w) !in y.replays {
      WebhookOutcome(y, w, now);
      var f := FileOf(y, key);
      if w.notify {
        NotifiedMails(y.ledger, y'.ledger, w, f, y'.files[key],
                      if f.Some? then f.value.incident.firstSeenAt else w.alert.startsAt, false,
                      if w.kind.Grouped? then now + w.policy.groupWait else now);
      }
    } else {
      RevisitOutcome(y, w, now);
      var f := y.files[key];
      if k == key {
        NotifiedMails(y.ledger, y'.ledger, w, Some(f), y'.files[key], f.incident.firstSeenAt, !MakesUp(f, w),
                      if MakesUp(f, w) && w.kind.Grouped? then now + w.policy.groupWait else now);
      }
    }
  }

  /**
   In every reachable projection, whatever happened to the ledger in between, every notification of an
   incident is backed by a command on record whose content is an alert mail about that very incident,
   with the moment it was first seen; a repetition is always about a firing alert.
   */
  lemma {:induction false} NotificationsSayWhatHappened(steps: seq<Step>, k: L.Key)
    requires k in Run(START, steps).files
    ensures MailsOk(Run(START, steps).ledger, k, Run(START, steps).files[k])
  {
    hide Apply, MailsOk, Inv;
    if steps != [] {
      var n := |steps| - 1;
      Reachable(steps[..n]);
      if k in Run(START, steps[..n]).files { NotificationsSayWhatHappened(steps[..n], k); }
      StepMails(Run(START, steps[..n]), steps[n], k);
    }
  }
}
