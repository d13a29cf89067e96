/**
 When the cancellation of an incident's notifications can be refused at all.  It never is while the
 fixed cancel keys are used by nobody else and notification commands keep to the route they are
 submitted on; an operator who spends such a key on the command itself can bring a refusal about.
 */
module NotificationRefusals {
  import opened Identities
  import L = CommandLedger
  import LI = LedgerInvariants
  import LT = LedgerTheorems
  import opened Incidents
  import opened NotificationCancel
  import opened IncidentInvariants
  import opened IncidentTheorems

  // ---------------------------------------------------------------- orderly runs

  /** The identities that notification commands are given. */
  predicate IsNotification(id: Name) { id.AlertCommandId? || id.RepeatCommandId? }

  /**
   What the rest of the middleware does to the ledger: the bus and the reconciler lease adapter intents
   only, notification commands travel on the default route, and nobody else uses the cancel keys.
   */
  predicate OrderlyLedger(step: L.Step) {
    match step
    case SubmitStep(command, _, destination, _) => IsNotification(command.commandId) ==> destination.TemporalCommand?
    case MutateStep(_, _, _, idempotencyKey, _, _, _) => !idempotencyKey.GroupWaitCancelKey?
    case BusStep(_, intent) => intent.leaseOwner.Some? ==> intent.destination.AdapterCommand?
    case _ => true
  }

  predicate Orderly(step: Step) { step.LedgerStep? ==> OrderlyLedger(step.step) }

  // ---------------------------------------------------------------- what orderly runs keep

  predicate Routed(x: L.Intent) {
    && (x.leaseOwner.Some? ==> x.destination.AdapterCommand?)
    && (IsNotification(x.commandId) ==> x.destination.TemporalCommand?)
  }

  ghost predicate OutboxRouted(outbox: seq<L.Intent>) {
    forall i :: 0 <= i < |outbox| ==> Routed(outbox[i])
  }

  /** A recorded cancel under a cancel key is one that cancelled its command for good. */
  predicate CancelledFor(l: L.Ledger, m: L.MutationKey) {
    m.key.GroupWaitCancelKey? ==>
      L.Key(m.tenant, m.id) in l.records && l.records[L.Key(m.tenant, m.id)].operation.state.Cancelled?
  }

  ghost predicate CancelsFinal(l: L.Ledger) {
    forall m :: m in l.mutations ==> CancelledFor(l, m)
  }

  ghost predicate Calm(l: L.Ledger) { OutboxRouted(l.outbox) && CancelsFinal(l) }

  lemma Unleased(l: L.Ledger, k: L.Key)
    requires OutboxRouted(l.outbox) && IsNotification(k.id)
    ensures !L.ActiveLease(l.outbox, k)
  {
    forall i | 0 <= i < |l.outbox| ensures !(L.Mine(l.outbox[i], k) && L.Leased(l.outbox[i])) {
      assert Routed(l.outbox[i]);
    }
  }

  /** Cancelled commands stay as they are, so recorded cancels stay final. */
  lemma StaysFinal(l: L.Ledger, l': L.Ledger, added: L.MutationKey)
    requires CancelsFinal(l) && forall m :: m in l'.mutations ==> m in l.mutations || m == added
    requires added in l'.mutations ==> CancelledFor(l', added)
    requires forall k :: k in l.records && l.records[k].operation.state.Cancelled? ==>
                           k in l'.records && l'.records[k].operation.state.Cancelled?
    ensures CancelsFinal(l')
  {
    forall m | m in l'.mutations ensures CancelledFor(l', m) {
      if m in l.mutations && m != added { assert CancelledFor(l, m); }
    }
  }

  lemma CancelledStays(l: L.Ledger, step: L.Step, k: L.Key)
    requires k in l.records && l.records[k].operation.state.Cancelled?
    ensures k in L.Apply(l, step).records && L.Apply(l, step).records[k].operation.state.Cancelled?
  {
    hide L.Apply;
    LT.StepExtends(l, step, k);
  }

  lemma SubmitOutbox(l: L.Ledger, command: L.Envelope, client: Name, destination: L.Destination, now: Time)
    requires OutboxRouted(l.outbox) && (IsNotification(command.commandId) ==> destination.TemporalCommand?)
    ensures OutboxRouted(L.Submit(l, command, client, destination, now).0.outbox)
  {
  }

  lemma RetryRouted(outbox: seq<L.Intent>, k: L.Key, r: L.Record, actor: Name, idempotencyKey: Name)
    requires OutboxRouted(outbox)
    ensures OutboxRouted(outbox + [L.RetryIntent(outbox, k, r, actor, idempotencyKey)])
  {
    var source := L.LastIntent(outbox, k);
    if source.Some? {
      var i :| 0 <= i < |outbox| && outbox[i] == source.value;
      assert Routed(outbox[i]);
    }
  }

  lemma MutatedRouted(outbox: seq<L.Intent>, k: L.Key, r: L.Record, action: L.MutationAction, after: L.CommandState,
                      actor: Name, idempotencyKey: Name)
    requires OutboxRouted(outbox)
    ensures OutboxRouted(L.MutatedOutbox(outbox, k, r, action, after, actor, idempotencyKey))
  {
    hide L.RetryIntent;
    RetryRouted(outbox, k, r, actor, idempotencyKey);
    var outbox' := L.MutatedOutbox(outbox, k, r, action, after, actor, idempotencyKey);
    if !action.Retry? {
      forall i | 0 <= i < |outbox'| ensures Routed(outbox'[i]) { assert Routed(outbox[i]); }
    }
  }

  lemma MutateOutbox(l: L.Ledger, k: L.Key, action: L.MutationAction, actor: Name, idempotencyKey: Name, version: int,
                     reason: Name, now: Time)
    requires OutboxRouted(l.outbox)
    ensures OutboxRouted(L.Mutate(l, k, action, actor, idempotencyKey, version, reason, now).0.outbox)
  {
    hide L.MutatedOutbox, L.MutatedRecord, OutboxRouted;
    if k in l.records {
      var changed := L.MutatedOperation(l.records[k].operation, action, L.ActiveLease(l.outbox, k), reason, now);
      if changed.Some? {
        MutatedRouted(l.outbox, k, l.records[k], action, changed.value.state, actor, idempotencyKey);
      }
    }
  }

  lemma StepOutbox(l: L.Ledger, step: L.Step)
    requires OutboxRouted(l.outbox) && OrderlyLedger(step)
    ensures OutboxRouted(L.Apply(l, step).outbox)
  {
    hide L.Submit, L.Mutate, L.TransitionRecord, L.ReconcileRecord;
    match step
    case SubmitStep(command, client, destination, at) => SubmitOutbox(l, command, client, destination, at);
    case MutateStep(k, action, actor, idempotencyKey, version, reason, at) =>
      MutateOutbox(l, k, action, actor, idempotencyKey, version, reason, at);
    case BusStep(index, intent) =>
      if 0 <= index < |l.outbox| { assert Routed(l.outbox[index]); }
    case _ =>
  }

  lemma StepMutations(l: L.Ledger, step: L.Step, m: L.MutationKey)
    requires m in L.Apply(l, step).mutations && m !in l.mutations
    ensures step.MutateStep? && m.key == step.idempotencyKey
  {
    hide L.MutatedOutbox, L.MutatedRecord, L.MutatedOperation, L.TransitionRecord, L.ReconcileRecord, L.NewRecord;
  }

  lemma OrderlyStepKeeps(l: L.Ledger, step: L.Step)
    requires Calm(l) && OrderlyLedger(step)
    ensures Calm(L.Apply(l, step))
  {
    hide L.Apply, OutboxRouted;
    var l' := L.Apply(l, step);
    StepOutbox(l, step);
    forall m | m in l'.mutations ensures CancelledFor(l', m) {
      if m in l.mutations {
        assert CancelledFor(l, m);
        if m.key.GroupWaitCancelKey? { CancelledStays(l, step, L.Key(m.tenant, m.id)); }
      } else {
        StepMutations(l, step, m);
      }
    }
  }

  // ---------------------------------------------------------------- incident operations in orderly runs

  lemma CalmSubmit(l: L.Ledger, command: L.Envelope, client: Name, now: Time)
    requires Calm(l)
    ensures Calm(L.Submit(l, command, client, L.TemporalCommand, now).0)
  {
    hide L.Submit, Calm;
    OrderlyStepKeeps(l, L.SubmitStep(command, client, L.TemporalCommand, now));
  }

  /** A new cancel of a pending command whose intents are not leased cancels it. */
  lemma UnleasedCancel(l: L.Ledger, k: L.Key, m: L.MutationKey, reason: Name, now: Time)
    requires k in l.records && Pending(l.records[k].operation.state) && !L.ActiveLease(l.outbox, k)
    requires m !in l.mutations && k == L.Key(m.tenant, m.id) && m.action.Cancel?
    ensures
      var l' := L.Mutate(l, k, L.Cancel, m.actor, m.key, l.records[k].operation.resourceVersion, reason, now).0;
      && k in l'.records && l'.records[k].operation.state.Cancelled?
      && (forall n :: n in l'.mutations ==> n in l.mutations || n == m)
  {
    hide L.MutatedOutbox, L.ActiveLease, L.Logged;
  }

  lemma CalmCancelOne(l: L.Ledger, key: L.Key, item: Notification, actor: Name, reason: Name, now: Time)
    requires Calm(l) && LI.Inv(l) && OperationKey(key, item) in l.records && IsNotification(item.operation)
    ensures Calm(CancelOne(l, key, item, actor, reason, now).0)
  {
    hide LI.Inv, OutboxRouted, L.Mutate, L.ActiveLease;
    if StillPending(l, key, item, now) {
      var k, m := OperationKey(key, item), CancelKey(key, item, actor);
      var version := l.records[k].operation.resourceVersion;
      MutateOutbox(l, k, L.Cancel, actor, m.key, version, reason, now);
      if m in l.mutations {
        RecordedCancelConflicts(l, k, m, reason, now);
      } else {
        Unleased(l, k);
        UnleasedCancel(l, k, m, reason, now);
        MutateKeepsCancelled(l, k, L.Cancel, actor, m.key, version, reason, now);
        StaysFinal(l, L.Mutate(l, k, L.Cancel, actor, m.key, version, reason, now).0, m);
      }
    }
  }

  lemma MutateKeepsCancelled(l: L.Ledger, k: L.Key, action: L.MutationAction, actor: Name, idempotencyKey: Name,
                             version: int, reason: Name, now: Time)
    ensures var l' := L.Mutate(l, k, action, actor, idempotencyKey, version, reason, now).0;
            forall j :: j in l.records && l.records[j].operation.state.Cancelled? ==>
                          j in l'.records && l'.records[j].operation.state.Cancelled?
  {
    hide L.Mutate;
    forall j | j in l.records && l.records[j].operation.state.Cancelled?
      ensures var l' := L.Mutate(l, k, action, actor, idempotencyKey, version, reason, now).0;
              j in l'.records && l'.records[j].operation.state.Cancelled?
    {
      CancelledStays(l, L.MutateStep(k, action, actor, idempotencyKey, version, reason, now), j);
    }
  }

  ghost predicate AllNotifications(items: seq<Notification>) {
    forall i :: 0 <= i < |items| ==> IsNotification(items[i].operation)
  }

  lemma {:induction false} CalmSweep(l: L.Ledger, key: L.Key, items: seq<Notification>, actor: Name, reason: Name,
                                     now: Time)
    requires Calm(l) && LI.Inv(l) && Known(l, key, items) && AllNotifications(items)
    ensures Calm(CancelPending(l, key, items, actor, reason, now).0)
  {
    hide Calm, LI.Inv, Swept, CancelOne, Calms;
    if items != [] {
      var n := |items| - 1;
      var before := CancelPending(l, key, items[..n], actor, reason, now);
      CalmSweep(l, key, items[..n], actor, reason, now);
      SweepKeeps(l, key, items[..n], actor, reason, now);
      SweptFacts(l, before.0, key, items[..n]);
      if before.1.None? { CalmCancelOne(before.0, key, items[n], actor, reason, now); }
    }
  }

  lemma SpentIsNotification(replays: map<ReplayKey, Replay>, tenant: Name, operation: Name)
    requires Spent(replays, tenant, operation)
    ensures IsNotification(operation)
  {
  }

  lemma CalmSweepOfIncident(y: Projection, key: L.Key, actor: Name, reason: Name, now: Time)
    requires Inv(y) && key in y.files && Calm(y.ledger)
    ensures Calm(CancelPending(y.ledger, key, y.files[key].notifications, actor, reason, now).0)
  {
    hide Inv, LI.Inv, Calm, CancelPending, FileOk, Accounted, Spent;
    InvFacts(y, key);
    var items := y.files[key].notifications;
    forall i | 0 <= i < |items| ensures IsNotification(items[i].operation) {
      SpentIsNotification(y.replays, key.tenant, items[i].operation);
    }
    CalmSweep(y.ledger, key, items, actor, reason, now);
  }

  lemma CalmOccur(y: Projection, w: Webhook, now: Time)
    requires Inv(y) && Calm(y.ledger)
    ensures Calm(Occur(y, w, now).0.ledger)
  {
    hide Inv, Calm, CancelPending, L.Submit, OccurredFile, OccurredNotifications, OccurrenceCommand;
    if KeyOf(w) in y.files { CalmSweepOfIncident(y, KeyOf(w), w.actor, RESOLVED_BEFORE_GROUP_WAIT, now); }
    CalmSubmit(OccurrenceCancel(y, w, now).0, OccurrenceCommand(y, w), w.client, now);
  }

  lemma CalmIngest(y: Projection, w: Webhook, now: Time)
    requires Inv(y) && Calm(y.ledger)
    ensures Calm(Ingest(y, w, now).0.ledger)
  {
    hide Inv, Calm, L.Submit, RenotifyCommand, RenotifiedFile, Occur, Latest, Filed;
    CalmOccur(y, w, now);
    if KeyOf(w) in y.files {
      CalmSubmit(y.ledger, RenotifyCommand(y.files[KeyOf(w)].incident, w, true), w.client, now);
      CalmSubmit(y.ledger, RenotifyCommand(y.files[KeyOf(w)].incident, w, false), w.client, now);
    }
  }

  lemma CalmStep(y: Projection, step: Step)
    requires Inv(y) && Calm(y.ledger) && Orderly(step)
    ensures Calm(Apply(y, step).ledger)
  {
    hide Inv, Calm, CancelPending, Ingest, L.Apply, OrderlyLedger, Reported, Acted, Allows, Outdated, Filed;
    match step
    case IngestStep(w, at) => CalmIngest(y, w, at);
    case StatusStep(s, at) =>
      var key := IncidentKey(s.tenant, s.item.fingerprint);
      if key in y.files { CalmSweepOfIncident(y, key, s.actor, LEFT_FIRING_BEFORE_GROUP_WAIT, at); }
    case OperatorStep(o, at) =>
      if o.key in y.files { CalmSweepOfIncident(y, o.key, o.actor, OPERATOR_RESOLVED, at); }
    case LedgerStep(step) => OrderlyStepKeeps(y.ledger, step);
  }

  lemma {:induction false} OrderlyRunsAreCalm(steps: seq<Step>)
    requires forall i :: 0 <= i < |steps| ==> Orderly(steps[i])
    ensures Calm(Run(START, steps).ledger)
  {
    if steps != [] {
      hide Calm, Inv, Apply, Orderly;
      var n := |steps| - 1;
      OrderlyRunsAreCalm(steps[..n]);
      Reachable(steps[..n]);
      CalmStep(Run(START, steps[..n]), steps[n]);
    }
  }

  /** In an orderly run no notification is ever pending with its cancel on record. */
  lemma OrderlyRunsAreNeverBlocked(steps: seq<Step>, key: L.Key, actor: Name, now: Time)
    requires forall i :: 0 <= i < |steps| ==> Orderly(steps[i])
    ensures !CancelBlocked(Run(START, steps), key, actor, now)
  {
    hide Run, Orderly, OutboxRouted;
    OrderlyRunsAreCalm(steps);
    var y := Run(START, steps);
    if key in y.files {
      var items := y.files[key].notifications;
      forall i | 0 <= i < |items| ensures !Blocked(y.ledger, key, items[i], actor, now) {
        var m := CancelKey(key, items[i], actor);
        assert m in y.ledger.mutations ==> CancelledFor(y.ledger, m);
      }
    }
  }

  /**
   So in an orderly run a permitted resolve always succeeds, and neither a snapshot nor a grouped
   resolution is ever refused by its cancellation.
   */
  lemma OrderlySweepsGoThrough(steps: seq<Step>, now: Time)
    requires forall i :: 0 <= i < |steps| ==> Orderly(steps[i])
    ensures forall o :: MayResolve(Run(START, steps), o) ==> Operate(Run(START, steps), o, now).1.Ok?
    ensures forall s :: !IsCommandRefusal(IngestStatus(Run(START, steps), s, now).1)
    ensures forall w :: OccurrenceCancel(Run(START, steps), w, now).1.None?
  {
    hide Run, Orderly, CancelBlocked, Operate, IngestStatus, MayResolve;
    var y := Run(START, steps);
    forall o | MayResolve(y, o) ensures Operate(y, o, now).1.Ok? {
      OrderlyRunsAreNeverBlocked(steps, o.key, o.actor, now);
      ResolveCancelsNotifications(steps, o, now);
    }
    forall s ensures !IsCommandRefusal(IngestStatus(y, s, now).1) {
      OrderlyRunsAreNeverBlocked(steps, IncidentKey(s.tenant, s.item.fingerprint), s.actor, now);
      SnapshotSweep(steps, s, now);
    }
    forall w ensures OccurrenceCancel(y, w, now).1.None? {
      OrderlyRunsAreNeverBlocked(steps, KeyOf(w), w.actor, now);
      OccurrenceSweep(steps, w, now);
    }
  }

  predicate IsCommandRefusal(r: Result<Incident, Refusal>) { r.Err? && r.error.CommandRefused? }

  lemma SnapshotSweep(steps: seq<Step>, s: Snapshot, now: Time)
    requires !CancelBlocked(Run(START, steps), IncidentKey(s.tenant, s.item.fingerprint), s.actor, now)
    ensures !IsCommandRefusal(IngestStatus(Run(START, steps), s, now).1)
  {
    hide Run, Inv, LI.Inv, CancelPending, NoneStillPending, CancelBlocked, Calms;
    var y := Run(START, steps);
    var key := IncidentKey(s.tenant, s.item.fingerprint);
    Reachable(steps);
    if key in y.files { SweepOfIncident(y, key, s.actor, LEFT_FIRING_BEFORE_GROUP_WAIT, now); }
  }

  lemma OccurrenceSweep(steps: seq<Step>, w: Webhook, now: Time)
    requires !CancelBlocked(Run(START, steps), KeyOf(w), w.actor, now)
    ensures OccurrenceCancel(Run(START, steps), w, now).1.None?
  {
    hide Run, Inv, LI.Inv, CancelPending, NoneStillPending, CancelBlocked, Calms;
    var y := Run(START, steps);
    Reachable(steps);
    if KeyOf(w) in y.files { SweepOfIncident(y, KeyOf(w), w.actor, RESOLVED_BEFORE_GROUP_WAIT, now); }
  }

  // ---------------------------------------------------------------- runs that end in a refusal

  lemma {:induction false} RunAppend(y: Projection, first: seq<Step>, second: seq<Step>)
    ensures Run(y, first + second) == Run(Run(y, first), second)
  {
    hide Apply;
    if second == [] {
      assert first + second == first;
    } else {
      var n := |second| - 1;
      assert (first + second)[..|first| + n] == first + second[..n];
      RunAppend(y, first, second[..n]);
    }
  }

  lemma RunFour(y: Projection, a: Step, b: Step, c: Step, d: Step)
    ensures Run(y, [a, b, c, d]) == Apply(Apply(Apply(Apply(y, a), b), c), d)
  {
    hide Apply;
    assert [a, b, c, d][..3] == [a, b, c] && [a, b, c][..2] == [a, b] && [a, b][..1] == [a] && [a][..0] == [];
    assert Run(y, [a]) == Apply(y, a);
    assert Run(y, [a, b]) == Apply(Run(y, [a]), b);
    assert Run(y, [a, b, c]) == Apply(Run(y, [a, b]), c);
  }

  function FirstCommand(w: Webhook): L.Envelope { BuildCommand(w, KeyOf(w).id, w.alert.startsAt) }

  function FirstNotification(w: Webhook, now: Time): Notification {
    Notification(1, FirstCommand(w).commandId, w.kind, now + w.policy.groupWait)
  }

  /** What the first webhook of an alert leaves behind. */
  predicate FreshlyOpened(y: Projection, w: Webhook, now: Time) {
    && KeyOf(w) in y.files && y.mutations == map[]
    && y.files[KeyOf(w)].incident.state.Firing? && y.files[KeyOf(w)].incident.version == 1
    && y.files[KeyOf(w)].notifications == [FirstNotification(w, now)]
  }

  /** A first grouped alert that is to be notified. */
  predicate FirstAlert(w: Webhook) { w.alert.firing && w.notify && w.kind.Grouped? && w.policy.groupWait > 0 }

  lemma FirstWebhook(w: Webhook, now: Time)
    requires FirstAlert(w)
    ensures var y := Ingest(START, w, now).0;
            && FreshlyOpened(y, w, now)
            && y.ledger == L.Submit(L.EMPTY, FirstCommand(w), w.client, L.TemporalCommand, now).0
  {
    hide BuildCommand, L.NewIntent, Occurred;
    var y := Ingest(START, w, now).0;
    assert y.files[KeyOf(w)].notifications == [] + [FirstNotification(w, now)];
    OccurredFacts(w, now);
  }

  lemma OccurredFacts(w: Webhook, now: Time)
    requires w.alert.firing
    ensures Occurred(None, w, now).state.Firing? && Occurred(None, w, now).version == 1
  {
  }

  lemma FirstSubmission(w: Webhook, now: Time)
    ensures var l := L.Submit(L.EMPTY, FirstCommand(w), w.client, L.TemporalCommand, now).0;
            var k := L.KeyOf(FirstCommand(w));
            && l.mutations == map[] && k in l.records && l.records[k].operation == L.NewOperation(FirstCommand(w), now)
  {
  }

  lemma CancelInFlight(l: L.Ledger, k: L.Key, m: L.MutationKey, reason: Name, now: Time)
    requires k in l.records && l.records[k].operation.state.Dispatching?
    requires m !in l.mutations && k == L.Key(m.tenant, m.id) && m.action.Cancel?
    ensures
      var l' := L.Mutate(l, k, L.Cancel, m.actor, m.key, l.records[k].operation.resourceVersion, reason, now).0;
      m in l'.mutations && k in l'.records && l'.records[k].operation.state.ReconciliationRequired?
  {
    hide L.MutatedOutbox, L.ActiveLease, L.Logged;
  }

  function Moving(k: L.Key, next: L.CommandState, actor: Name, reason: Name, now: Time): Step {
    LedgerStep(L.TransitionStep(k, next, actor, reason, None, None, None, now))
  }

  /** The command is dispatched, the operator cancels it under the cancel key, and it is queued again. */
  function SpendKey(w: Webhook, actor: Name, reason: Name, now: Time): seq<Step> {
    var k := L.KeyOf(FirstCommand(w));
    [Moving(k, L.Queued, actor, reason, now), Moving(k, L.Dispatching, actor, reason, now),
     LedgerStep(L.MutateStep(k, L.Cancel, actor, GroupWaitCancelKey(KeyOf(w).id, k.id), 1, reason, now)),
     Moving(k, L.Queued, actor, reason, now)]
  }

  lemma KeySpent(l: L.Ledger, k: L.Key, m: L.MutationKey, reason: Name, now: Time)
    requires l.mutations == map[] && k in l.records && k == L.Key(m.tenant, m.id) && m.action.Cancel?
    requires l.records[k].operation.state.Persisted? && l.records[k].operation.resourceVersion == 1
    ensures
      var l1 := L.Transition(l, k, L.Queued, m.actor, reason, None, None, None, now).0;
      var l2 := L.Transition(l1, k, L.Dispatching, m.actor, reason, None, None, None, now).0;
      var l3 := L.Mutate(l2, k, L.Cancel, m.actor, m.key, 1, reason, now).0;
      var l4 := L.Transition(l3, k, L.Queued, m.actor, reason, None, None, None, now).0;
      m in l4.mutations && k in l4.records && l4.records[k].operation.state.Queued?
  {
    hide L.Transition, L.Mutate;
    LT.AllowedMove(l, k, L.Queued, m.actor, reason, now);
    var l1 := L.Transition(l, k, L.Queued, m.actor, reason, None, None, None, now).0;
    LT.AllowedMove(l1, k, L.Dispatching, m.actor, reason, now);
    var l2 := L.Transition(l1, k, L.Dispatching, m.actor, reason, None, None, None, now).0;
    CancelInFlight(l2, k, m, reason, now);
    LT.AllowedMove(L.Mutate(l2, k, L.Cancel, m.actor, m.key, 1, reason, now).0, k, L.Queued, m.actor, reason, now);
  }

  /** A blocked first notification makes the resolve of its incident fail. */
  lemma BlockedResolve(y: Projection, w: Webhook, now: Time, o: Operator)
    requires LI.Inv(y.ledger) && FreshlyOpened(y, w, now)
    requires Blocked(y.ledger, KeyOf(w), FirstNotification(w, now), o.actor, now)
    requires o.key == KeyOf(w) && o.action.Resolve? && o.expectedVersion == 1
    ensures Operate(y, o, now).1 == Err(CommandRefused(L.Conflict))
  {
    hide LI.Inv, CancelOne, Acted, Filed, Blocked, FirstNotification;
    var items := y.files[KeyOf(w)].notifications;
    BlockedIsRefused(y.ledger, KeyOf(w), items[0], o.actor, OPERATOR_RESOLVED, now);
    assert items[..0] == [];
    assert CancelPending(y.ledger, KeyOf(w), [], o.actor, OPERATOR_RESOLVED, now) == (y.ledger, None);
  }

  /**
   A refusal can be reached: after the first webhook of a grouped alert its command is dispatched, the
   operator cancels the command itself under the notification's cancel key, and the command is queued
   again; the operator's resolve is then refused before the group wait is over.
   */
  lemma RefusalIsReachable(w: Webhook, actor: Name, reason: Name, now: Time, o: Operator)
    requires FirstAlert(w)
    requires o.key == KeyOf(w) && o.action.Resolve? && o.expectedVersion == 1 && o.actor == actor
    ensures var y := Run(START, [IngestStep(w, now)] + SpendKey(w, actor, reason, now));
            Operate(y, o, now).1 == Err(CommandRefused(L.Conflict))
  {
    var y1 := Ingest(START, w, now).0;
    FirstWebhook(w, now);
    SpentRun(y1, w, actor, reason, now);
    RunSingle(START, IngestStep(w, now));
    RunAppend(START, [IngestStep(w, now)], SpendKey(w, actor, reason, now));
    hide Run, Ingest, Operate, SpendKey, FirstCommand, Blocked, Inv;
    Reachable([IngestStep(w, now)] + SpendKey(w, actor, reason, now));
    var y := Run(START, [IngestStep(w, now)] + SpendKey(w, actor, reason, now));
    InvFacts(y, KeyOf(w));
    BlockedResolve(y, w, now, o);
  }

  lemma SpentRun(y: Projection, w: Webhook, actor: Name, reason: Name, now: Time)
    requires FirstAlert(w)
    requires y.ledger == L.Submit(L.EMPTY, FirstCommand(w), w.client, L.TemporalCommand, now).0
    ensures var y' := Run(y, SpendKey(w, actor, reason, now));
            && y' == y.(ledger := y'.ledger)
            && Blocked(y'.ledger, KeyOf(w), FirstNotification(w, now), actor, now)
  {
    hide Run, L.Submit, L.Transition, L.Mutate, FirstCommand;
    var k := L.KeyOf(FirstCommand(w));
    var m := CancelKey(KeyOf(w), FirstNotification(w, now), actor);
    FirstSubmission(w, now);
    FirstCommandKey(w);
    KeySpent(y.ledger, k, m, reason, now);
    var p := SpendKey(w, actor, reason, now);
    assert p == [p[0], p[1], p[2], p[3]];
    RunFour(y, p[0], p[1], p[2], p[3]);
  }

  lemma FirstCommandKey(w: Webhook)
    ensures FirstCommand(w).tenant == KeyOf(w).tenant
  {
  }

  lemma RunSingle(y: Projection, step: Step)
    ensures Run(y, [step]) == Apply(y, step)
  {
    hide Apply;
    assert [step][..0] == [];
    assert Run(y, []) == y;
  }

  /** A command on the adapter route whose intent the bus has leased. */
  function LeasedOnAdapter(command: L.Envelope, client: Name, owner: Name, now: Time): L.Ledger {
    var l := L.Submit(L.EMPTY, command, client, L.AdapterCommand, now).0;
    L.BusUpdate(l, 0, l.outbox[0].(leaseOwner := Some(owner)))
  }

  lemma LeasedFacts(command: L.Envelope, client: Name, owner: Name, now: Time)
    ensures var l, k := LeasedOnAdapter(command, client, owner, now), L.KeyOf(command);
            && l.mutations == map[] && k in l.records && l.records[k].operation == L.NewOperation(command, now)
            && L.ActiveLease(l.outbox, k)
  {
    var l, k := LeasedOnAdapter(command, client, owner, now), L.KeyOf(command);
    assert L.Mine(l.outbox[0], k) && L.Leased(l.outbox[0]);
  }

  lemma LeasedCancel(l: L.Ledger, key: L.Key, item: Notification, actor: Name, reason: Name, now: Time)
    requires StillPending(l, key, item, now) && L.ActiveLease(l.outbox, OperationKey(key, item))
    requires CancelKey(key, item, actor) !in l.mutations
    ensures var (l', failed) := CancelOne(l, key, item, actor, reason, now);
            && failed.None? && CancelKey(key, item, actor) in l'.mutations && OperationKey(key, item) in l'.records
            && l'.records[OperationKey(key, item)].operation.state.ReconciliationRequired?
  {
    hide L.ActiveLease, L.MutatedOutbox, L.Logged;
  }

  /**
   The route matters: on the adapter route a cancel can find the intent leased, leaves its record
   behind without cancelling, and blocks the next cancel once the command is queued again.
   */
  lemma AdapterRouteCanBlock(command: L.Envelope, client: Name, owner: Name, actor: Name, reason: Name, now: Time,
                             key: L.Key, item: Notification)
    requires key.tenant == command.tenant && item.operation == command.commandId && Waiting(item, now)
    ensures var l := LeasedOnAdapter(command, client, owner, now);
            var (l', failed) := CancelOne(l, key, item, actor, reason, now);
            && failed.None?
            && Blocked(L.Transition(l', L.KeyOf(command), L.Queued, actor, reason, None, None, None, now).0,
                       key, item, actor, now)
  {
    hide LeasedOnAdapter, CancelOne, L.Transition, L.ActiveLease;
    var l := LeasedOnAdapter(command, client, owner, now);
    LeasedFacts(command, client, owner, now);
    LeasedCancel(l, key, item, actor, reason, now);
    LT.AllowedMove(CancelOne(l, key, item, actor, reason, now).0, L.KeyOf(command), L.Queued, actor, reason, now);
  }
}
