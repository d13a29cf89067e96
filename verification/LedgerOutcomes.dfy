/**
 When each writer of the command ledger accepts a call and what it leaves behind: operation, attempts,
 audit log and outbox.  The transition table and the operator rules are written out here and do not
 refer to the functions that carry them out.
 */
module LedgerOutcomes {
  import opened Identities
  import opened CommandLedger
  import opened LedgerInvariants
  import opened LedgerTheorems

  // ---------------------------------------------------------------- the audit log obeys the rules

  /** ALLOWED_COMMAND_TRANSITIONS, pair by pair. */
  predicate MovesTo(s: CommandState, t: CommandState) {
    (s, t) in {(Persisted, Queued), (Persisted, Cancelled),
               (Queued, Dispatching), (Queued, DeadLettered), (Queued, Cancelled),
               (Dispatching, Accepted), (Dispatching, Failed), (Dispatching, ReconciliationRequired),
               (Accepted, ReadbackPending), (Accepted, ReconciliationRequired),
               (ReadbackPending, Completed), (ReadbackPending, Failed), (ReadbackPending, ReconciliationRequired),
               (ReconciliationRequired, Queued), (ReconciliationRequired, DeadLettered),
               (Failed, Queued), (Failed, DeadLettered)}
  }

  lemma AllowedIff(s: CommandState, t: CommandState)
    ensures t in AllowedNext(s) <==> MovesTo(s, t)
  {
  }

  /** The operator may take this action in this state. */
  predicate MayMutate(action: MutationAction, s: CommandState) {
    match action
    case Cancel => s in {Persisted, Queued, Dispatching, Accepted, ReadbackPending}
    case Reconcile => s in {Dispatching, Accepted, ReadbackPending, ReconciliationRequired}
    case Retry => s == Failed
  }

  /** An audit event is a submission, a move of the table, a readback, or an operator's action. */
  predicate Lawful(e: Event) {
    if e.previous.None? then e.next.Persisted? && e.action.None?
    else
      var s := e.previous.value;
      match e.action
      case None => MovesTo(s, e.next) || (s.ReconciliationRequired? && e.next in {Completed, ReconciliationRequired})
      case Some(action) =>
        && MayMutate(action, s)
        && (match action
            case Cancel => e.next.ReconciliationRequired? || (e.next.Cancelled? && s in {Persisted, Queued})
            case Reconcile => e.next.ReconciliationRequired?
            case Retry => e.next.Queued?)
  }

  lemma StepIsLawful(l: Ledger, step: Step, k: Key)
    requires k in Apply(l, step).records
    ensures var after := Apply(l, step).records[k].events;
            var before := if k in l.records then l.records[k].events else [];
            && |before| <= |after| <= |before| + 1 && after[..|before|] == before
            && (|after| > |before| ==> Lawful(after[|before|]))
  {
    hide MutatedOutbox, ActiveLease, BusMay, NewIntent, AllowedNext, MovesTo, TransitionAttempts, ReconcileAttempts,
      TransitionOperation, EntryOf;
    if step.TransitionStep? && k in l.records { AllowedIff(l.records[k].operation.state, step.next); }
  }

  /** In every reachable ledger each audit event is lawful. */
  lemma {:induction false} AuditIsLawful(steps: seq<Step>, k: Key, i: int)
    requires k in Run(EMPTY, steps).records && 0 <= i < |Run(EMPTY, steps).records[k].events|
    ensures Lawful(Run(EMPTY, steps).records[k].events[i])
  {
    hide Apply, Lawful;
    if steps != [] {
      var n := |steps| - 1;
      var l := Run(EMPTY, steps[..n]);
      StepIsLawful(l, steps[n], k);
      var before := if k in l.records then l.records[k].events else [];
      var after := Run(EMPTY, steps).records[k].events;
      assert i < |before| ==> after[i] == after[..|before|][i];
      if i < |before| { AuditIsLawful(steps[..n], k, i); }
    }
  }

  // ---------------------------------------------------------------- submissions

  /** A new submission puts the command on record as persisted, undispatched and with one live, unleased intent. */
  lemma SubmissionOutcome(l: Ledger, c: Envelope, client: Name, destination: Destination, now: Time)
    requires !destination.Unsupported?
    requires KeyOf(c) !in l.records && IdempotencyKey(c.tenant, c.idempotencyKey) !in l.index
    ensures var (l', r) := Submit(l, c, client, destination, now);
            && r.Ok? && KeyOf(c) in l'.records && l'.records == l.records[KeyOf(c) := l'.records[KeyOf(c)]]
            && l'.mutations == l.mutations
            && l'.records[KeyOf(c)].operation == r.value && l'.records[KeyOf(c)].attempts == []
            && |l'.records[KeyOf(c)].events| == 1
            && r.value.state.Persisted? && r.value.resourceVersion == 1
            && r.value.commandType == c.commandType && r.value.requestedBy == c.requestedBy
            && r.value.capability == c.capability && r.value.correlationId == c.correlationId
            && r.value.createdAt == now && r.value.updatedAt == now
            && r.value.readbackEvidence.None? && r.value.lastError.None?
            && r.value.cancelledAt.None? && r.value.providerOperationId.None?
            && |l'.outbox| == |l.outbox| + 1 && l'.outbox[..|l.outbox|] == l.outbox
            && var intent := l'.outbox[|l.outbox|];
               && Mine(intent, KeyOf(c)) && intent.destination == destination && intent.payload == c
               && intent.completedAt.None? && intent.deadLetteredAt.None? && intent.cancelledAt.None?
               && intent.leaseOwner.None? && intent.attemptCount == 0
  {
  }

  // ---------------------------------------------------------------- transitions

  /** What a transition makes of the operation. */
  predicate MovedAs(op: Operation, next: CommandState, reason: Name, provider: Option<Name>,
                    evidence: Option<Evidence>, now: Time, op': Operation) {
    && op'.state == next && op'.updatedAt == now && op'.resourceVersion == op.resourceVersion
    && op'.providerOperationId == (if provider.Some? then provider else op.providerOperationId)
    && op'.readbackEvidence == (if evidence.Some? then evidence else op.readbackEvidence)
    && op'.lastError == (if next in {Failed, ReconciliationRequired} then Some(reason) else None)
    && op'.cancelledAt == op.cancelledAt && op'.createdAt == op.createdAt
  }

  /** Only a dispatch adds an attempt; any other move is a move of the newest one. */
  predicate AttemptsMovedAs(before: seq<Attempt>, next: CommandState, provider: Option<Name>, now: Time,
                            after: seq<Attempt>) {
    if next.Dispatching? then
      && |after| == |before| + 1 && after[..|before|] == before
      && var a := after[|before|];
         a.number == |before| + 1 && a.state == next && a.providerOperationId == provider && a.startedAt == now
         && a.finishedAt.None?
    else if before == [] then after == []
    else
      var n := |before| - 1;
      && |after| == |before| && after[..n] == before[..n]
      && after[n].number == before[n].number && after[n].startedAt == before[n].startedAt && after[n].state == next
      && after[n].providerOperationId == (if provider.Some? then provider else before[n].providerOperationId)
      && after[n].finishedAt == (if next in {Completed, Failed, ReconciliationRequired} then Some(now) else None)
      && after[n].safeError == (if next in {Failed, ReconciliationRequired} then Some(OperationFailed) else None)
  }

  /**
   A transition is accepted exactly when the command is on record, the table allows the move, evidence
   comes only with a completion or a reconciliation, and the fencing token, if there is one and the move
   is no dispatch, is the number of attempts.  It moves the operation, its newest attempt and its audit
   log, and leaves version, outbox, mutations and every other command alone.
   */
  lemma TransitionOutcome(l: Ledger, k: Key, next: CommandState, actor: Name, reason: Name, provider: Option<Name>,
                          evidence: Option<Evidence>, fence: Option<int>, now: Time)
    ensures var (l', r) := Transition(l, k, next, actor, reason, provider, evidence, fence, now);
            && (r.Ok? <==>
                  && k in l.records && MovesTo(l.records[k].operation.state, next)
                  && (evidence.Some? ==> next in {Completed, ReconciliationRequired})
                  && (fence.Some? && next != Dispatching ==> fence.value == |l.records[k].attempts|))
            && (r.Err? ==> l' == l)
            && (r == Err(NotFound) <==>
                  k !in l.records && (evidence.Some? ==> next in {Completed, ReconciliationRequired}))
            && (r.Ok? ==>
                  && k in l'.records && l'.records == l.records[k := l'.records[k]] && l'.outbox == l.outbox
                  && l'.mutations == l.mutations && r.value == l'.records[k].operation
                  && MovedAs(l.records[k].operation, next, reason, provider, evidence, now, l'.records[k].operation)
                  && AttemptsMovedAs(l.records[k].attempts, next, provider, now, l'.records[k].attempts))
  {
    hide AllowedNext, MovesTo, MovedAs, AttemptsMovedAs, TransitionRecord;
    if k in l.records {
      AllowedIff(l.records[k].operation.state, next);
      RecordMoves(l.records[k], k, next, actor, reason, provider, evidence, now);
    }
  }

  lemma RecordMoves(r: Record, k: Key, next: CommandState, actor: Name, reason: Name, provider: Option<Name>,
                    evidence: Option<Evidence>, now: Time)
    ensures var r' := TransitionRecord(r, k, next, actor, reason, provider, evidence, now);
            && MovedAs(r.operation, next, reason, provider, evidence, now, r'.operation)
            && AttemptsMovedAs(r.attempts, next, provider, now, r'.attempts)
  {
    hide Logged;
  }

  // ---------------------------------------------------------------- readbacks

  /** What an accepted readback makes of a command. */
  predicate ReadAs(before: Record, matched: bool, reason: Name, provider: Option<Name>, evidence: Evidence, now: Time,
                   after: Record) {
    var op, op' := before.operation, after.operation;
    && (matched ==> op'.state.Completed? && op'.lastError.None?)
    && (!matched ==> && op'.state.ReconciliationRequired? && op'.lastError == Some(reason)
                     && op'.reconciliationReason == Some(reason))
    && op'.readbackEvidence == Some(evidence) && op'.readbackDigest == Some(evidence)
    && op'.resourceVersion == op.resourceVersion + 1
    && op'.providerOperationId == (if provider.Some? then provider else op.providerOperationId)
    && |after.attempts| == |before.attempts|
    && (before.attempts != [] ==>
          var a := after.attempts[|before.attempts| - 1];
          && a.finishedAt == Some(now)
          && (matched ==> a.state.Completed? && a.safeError.None?)
          && (!matched ==> a.state.ReconciliationRequired? && a.safeError == Some(ProviderReadbackMismatch)))
  }

  /**
   A readback is accepted exactly for a command that awaits reconciliation, under its version if one is
   given.  A matching one completes the command and its newest attempt and clears the error; any other
   leaves both awaiting reconciliation with the reason.  Either way the evidence is kept and a version is
   spent.
   */
  lemma ReadbackOutcome(l: Ledger, k: Key, matched: bool, actor: Name, reason: Name, provider: Option<Name>,
                        evidence: Evidence, version: Option<int>, now: Time)
    ensures var (l', r) := ReconcileReadback(l, k, matched, actor, reason, provider, evidence, version, now);
            && (r.Ok? <==> && k in l.records && l.records[k].operation.state.ReconciliationRequired?
                           && (version.Some? ==> version.value == l.records[k].operation.resourceVersion))
            && (r.Err? ==> l' == l && r == Err(if k in l.records then Conflict else NotFound))
            && (r.Ok? ==>
                  && k in l'.records && l'.records == l.records[k := l'.records[k]] && l'.outbox == l.outbox
                  && l'.mutations == l.mutations && r.value == l'.records[k].operation
                  && ReadAs(l.records[k], matched, reason, provider, evidence, now, l'.records[k]))
  {
    hide ReconcileRecord, ReadAs;
    if k in l.records { RecordReads(l.records[k], k, matched, actor, reason, provider, evidence, now); }
  }

  lemma RecordReads(r: Record, k: Key, matched: bool, actor: Name, reason: Name, provider: Option<Name>,
                    evidence: Evidence, now: Time)
    ensures ReadAs(r, matched, reason, provider, evidence, now,
                   ReconcileRecord(r, k, matched, actor, reason, provider, evidence, now))
  {
    hide Logged;
  }

  // ---------------------------------------------------------------- operator mutations

  /** What an operator's action makes of the operation; `leased`: some unfinished intent is leased. */
  predicate MutatedAs(op: Operation, action: MutationAction, leased: bool, reason: Name, now: Time, op': Operation) {
    && op'.resourceVersion == op.resourceVersion + 1 && op'.updatedAt == now && op'.createdAt == op.createdAt
    && op'.readbackEvidence == op.readbackEvidence && op'.providerOperationId == op.providerOperationId
    && match action
       case Cancel =>
         && op'.cancellationReason == Some(reason)
         && (if op.state in {Persisted, Queued} && !leased
             then op'.state.Cancelled? && op'.cancelledAt == Some(now)
             else op'.state.ReconciliationRequired? && op'.cancelledAt.None?)
       case Reconcile =>
         && op'.state.ReconciliationRequired? && op'.reconciliationRequestedAt == Some(now)
         && op'.reconciliationReason == Some(reason)
       case Retry => op'.state.Queued? && op'.lastError.None?
  }

  predicate IsNewMutation(l: Ledger, k: Key, action: MutationAction, actor: Name, key: Name) {
    MutationKey(k.tenant, k.id, action, actor, key) !in l.mutations
  }

  lemma MutationChanges(op: Operation, action: MutationAction, leased: bool, reason: Name, now: Time)
    ensures MutatedOperation(op, action, leased, reason, now).Some? <==> MayMutate(action, op.state)
    ensures MayMutate(action, op.state) ==>
              MutatedAs(op, action, leased, reason, now, MutatedOperation(op, action, leased, reason, now).value)
  {
  }

  /**
   A new operator mutation is accepted exactly when the command is on record in a state that allows the
   action and under the version it expects.  A cancel takes effect at once only before dispatch and
   without a lease; otherwise the command awaits reconciliation.
   */
  lemma MutationOutcome(l: Ledger, k: Key, action: MutationAction, actor: Name, key: Name, version: int, reason: Name,
                        now: Time)
    requires IsNewMutation(l, k, action, actor, key)
    ensures var (l', r) := Mutate(l, k, action, actor, key, version, reason, now);
            && (r.Ok? <==> && k in l.records && l.records[k].operation.resourceVersion == version
                           && MayMutate(action, l.records[k].operation.state))
            && (r.Err? ==> l' == l && r == Err(if k in l.records then Conflict else NotFound))
            && (r.Ok? ==>
                  && k in l'.records && l'.records == l.records[k := l'.records[k]]
                  && r.value == l'.records[k].operation && l'.records[k].attempts == l.records[k].attempts
                  && MutatedAs(l.records[k].operation, action, ActiveLease(l.outbox, k), reason, now, r.value)
                  && !IsNewMutation(l', k, action, actor, key))
  {
    hide MutatedOutbox, ActiveLease, Logged, MutatedOperation, MutatedAs, MayMutate;
    if k in l.records {
      MutationChanges(l.records[k].operation, action, ActiveLease(l.outbox, k), reason, now);
    }
  }

  lemma StepKeepsMutation(l: Ledger, step: Step, m: MutationKey)
    requires m in l.mutations
    ensures m in Apply(l, step).mutations && Apply(l, step).mutations[m] == l.mutations[m]
  {
    hide MutatedOutbox, ActiveLease, BusMay, MutatedOperation, TransitionRecord, ReconcileRecord, MutatedRecord;
  }

  lemma StepKeepsRecord(l: Ledger, step: Step, k: Key)
    requires k in l.records
    ensures k in Apply(l, step).records
  {
    hide Apply, Extends;
    StepExtends(l, step, k);
  }

  lemma {:induction false} RunKeepsMutation(l: Ledger, steps: seq<Step>, m: MutationKey)
    requires m in l.mutations && Key(m.tenant, m.id) in l.records
    ensures m in Run(l, steps).mutations && Run(l, steps).mutations[m] == l.mutations[m]
    ensures Key(m.tenant, m.id) in Run(l, steps).records
  {
    hide Apply;
    if steps != [] {
      RunKeepsMutation(l, steps[..|steps| - 1], m);
      StepKeepsMutation(Run(l, steps[..|steps| - 1]), steps[|steps| - 1], m);
      StepKeepsRecord(Run(l, steps[..|steps| - 1]), steps[|steps| - 1], Key(m.tenant, m.id));
    }
  }

  /**
   However a run goes on, repeating an accepted operator mutation gets the first answer, marked as a
   duplicate, and changes nothing; with another version or reason it conflicts.
   */
  lemma RepeatedMutation(l: Ledger, k: Key, action: MutationAction, actor: Name, key: Name, version: int, reason: Name,
                         now: Time, later: seq<Step>, other: int, why: Name, at: Time)
    requires IsNewMutation(l, k, action, actor, key)
    requires Mutate(l, k, action, actor, key, version, reason, now).1.Ok?
    ensures var (l', r) := Mutate(l, k, action, actor, key, version, reason, now);
            var z := Run(l', later);
            Mutate(z, k, action, actor, key, other, why, at)
            == (z, if other == version && why == reason then Ok(r.value.(duplicate := true)) else Err(Conflict))
  {
    RecordsMutation(l, k, action, actor, key, version, reason, now);
    RunKeepsMutation(Mutate(l, k, action, actor, key, version, reason, now).0, later,
                     MutationKey(k.tenant, k.id, action, actor, key));
    hide Run, MutatedOutbox, ActiveLease, MutatedOperation, MutatedRecord;
  }

  lemma RecordsMutation(l: Ledger, k: Key, action: MutationAction, actor: Name, key: Name, version: int, reason: Name,
                        now: Time)
    requires IsNewMutation(l, k, action, actor, key)
    requires Mutate(l, k, action, actor, key, version, reason, now).1.Ok?
    ensures var (l', r) := Mutate(l, k, action, actor, key, version, reason, now);
            var m := MutationKey(k.tenant, k.id, action, actor, key);
            && k in l'.records && m in l'.mutations
            && l'.mutations[m] == Mutation(MutationRequest(version, reason), r.value)
  {
    hide MutatedOutbox, ActiveLease, MutatedOperation, MutatedRecord;
  }

  // ---------------------------------------------------------------- the outbox after a mutation

  /** The intent is unchanged but for a cancellation stamp. */
  predicate Stamped(before: Intent, after: Intent) {
    after.cancelledAt.Some? && after == before.(cancelledAt := after.cancelledAt)
  }

  /** The intent is unchanged but for a reconciliation stamp and a lease taken away. */
  predicate Quarantined(before: Intent, after: Intent) {
    && after.reconciliationRequiredAt.Some? && after.leaseOwner.None? && after.leaseUntil.None?
    && after == before.(reconciliationRequiredAt := after.reconciliationRequiredAt, leaseOwner := None,
                        leaseUntil := None)
  }

  predicate Unfinished(intent: Intent) {
    intent.completedAt.None? && intent.deadLetteredAt.None? && intent.cancelledAt.None?
  }

  /**
   What an accepted mutation does to the outbox: a cancel that takes effect stamps every intent of the
   command that is neither completed nor cancelled, and any other cancel leaves the outbox alone; a
   reconciliation quarantines the command's unfinished intents; a retry appends one live, unleased intent
   with the recorded content on the route of the earlier ones.  Intents of other commands never change.
   */
  lemma MutationOutbox(l: Ledger, k: Key, action: MutationAction, actor: Name, key: Name, version: int, reason: Name,
                       now: Time)
    requires Inv(l) && IsNewMutation(l, k, action, actor, key)
    requires Mutate(l, k, action, actor, key, version, reason, now).1.Ok?
    ensures var (l', r) := Mutate(l, k, action, actor, key, version, reason, now);
            && |l'.outbox| == |l.outbox| + (if action.Retry? then 1 else 0)
            && (forall i :: 0 <= i < |l.outbox| ==>
                  var before, after := l.outbox[i], l'.outbox[i];
                  if before.tenant != k.tenant || before.commandId != k.id || action.Retry? then after == before
                  else if action.Reconcile?
                  then if Unfinished(before) then Quarantined(before, after) else after == before
                  else if r.value.state.Cancelled? && before.completedAt.None? && before.cancelledAt.None?
                  then Stamped(before, after) else after == before)
            && (action.Retry? ==>
                  var intent := l'.outbox[|l.outbox|];
                  && intent.tenant == k.tenant && intent.commandId == k.id && Unfinished(intent)
                  && intent.leaseOwner.None?
                  && k in l.records && intent.payload == l.records[k].digest.command
                  && (forall i :: 0 <= i < |l.outbox| && Mine(l.outbox[i], k) ==>
                        intent.destination == l.outbox[i].destination))
  {
    hide Inv;
    var l' := Mutate(l, k, action, actor, key, version, reason, now).0;
    match action
    case Cancel => CancelOutbox(l, k, actor, key, version, reason, now);
    case Reconcile =>
    case Retry => RetryOutbox(l, k, actor, key, version, reason, now);
  }

  lemma CancelOutbox(l: Ledger, k: Key, actor: Name, key: Name, version: int, reason: Name, now: Time)
    requires IsNewMutation(l, k, Cancel, actor, key)
    requires Mutate(l, k, Cancel, actor, key, version, reason, now).1.Ok?
    ensures var (l', r) := Mutate(l, k, Cancel, actor, key, version, reason, now);
            && |l'.outbox| == |l.outbox|
            && (forall i :: 0 <= i < |l.outbox| ==>
                  if && Mine(l.outbox[i], k) && r.value.state.Cancelled? && l.outbox[i].completedAt.None?
                     && l.outbox[i].cancelledAt.None?
                  then Stamped(l.outbox[i], l'.outbox[i]) else l'.outbox[i] == l.outbox[i])
  {
    hide Logged;
    var (l', r) := Mutate(l, k, Cancel, actor, key, version, reason, now);
    if r.value.state.Cancelled? {
      forall i | 0 <= i < |l.outbox| && Mine(l.outbox[i], k) && l.outbox[i].completedAt.None?
        ensures l.outbox[i].leaseOwner.None?
      {
        assert !ActiveLease(l.outbox, k);
      }
    }
  }

  lemma RetryOutbox(l: Ledger, k: Key, actor: Name, key: Name, version: int, reason: Name, now: Time)
    requires Inv(l) && IsNewMutation(l, k, Retry, actor, key)
    requires Mutate(l, k, Retry, actor, key, version, reason, now).1.Ok?
    ensures var l' := Mutate(l, k, Retry, actor, key, version, reason, now).0;
            && k in l.records && |l'.outbox| == |l.outbox| + 1 && l'.outbox[..|l.outbox|] == l.outbox
            && var intent := l'.outbox[|l.outbox|];
               && Mine(intent, k) && Unfinished(intent) && intent.leaseOwner.None?
               && intent.payload == l.records[k].digest.command
               && (forall i :: 0 <= i < |l.outbox| && Mine(l.outbox[i], k) ==>
                     intent.destination == l.outbox[i].destination)
  {
    hide Logged, Inv;
    var source := LastIntent(l.outbox, k);
    CommandHasIntent(l, k);
    assert source.Some?;
    var n :| 0 <= n < |l.outbox| && l.outbox[n] == source.value;
    IntentsAgree(l, k, n);
  }

  lemma {:induction false} NoneCounted(outbox: seq<Intent>, k: Key)
    requires forall i :: 0 <= i < |outbox| ==> !Mine(outbox[i], k)
    ensures CountOf(outbox, k) == 0
  {
    if outbox != [] { NoneCounted(outbox[..|outbox| - 1], k); }
  }

  lemma CommandHasIntent(l: Ledger, k: Key)
    requires Inv(l) && k in l.records
    ensures exists i :: 0 <= i < |l.outbox| && Mine(l.outbox[i], k)
  {
    hide RecordOk, IndexInv, MutationInv, Mine, CountOf;
    if forall i :: 0 <= i < |l.outbox| ==> !Mine(l.outbox[i], k) { NoneCounted(l.outbox, k); }
  }

  lemma IntentsAgree(l: Ledger, k: Key, n: int)
    requires Inv(l) && k in l.records && 0 <= n < |l.outbox| && Mine(l.outbox[n], k)
    ensures l.outbox[n].payload == l.records[k].digest.command
    ensures forall i :: 0 <= i < |l.outbox| && Mine(l.outbox[i], k) ==>
              l.outbox[n].destination == l.outbox[i].destination
  {
    assert IntentOk(l, n);
    forall i | 0 <= i < |l.outbox| && Mine(l.outbox[i], k) ensures l.outbox[n].destination == l.outbox[i].destination {
      assert SameRoute(l, n, i);
    }
  }
}
