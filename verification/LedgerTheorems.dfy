/**
 What the command ledger promises over whole runs: submission behaves as a single map, terminal
 commands are final, history is append-only, a version is spent once, and the outbox is conserved.
 */
module LedgerTheorems {
  import opened Identities
  import opened CommandLedger
  import opened LedgerInvariants

  /** Every ledger the middleware can reach satisfies the invariant. */
  lemma Reachable(steps: seq<Step>)
    ensures Inv(Run(EMPTY, steps))
  {
    assert Inv(EMPTY);
    RunKeeps(EMPTY, steps);
  }

  // ---------------------------------------------------------------- submit as a single map

  /** The ledger as one map from command identity to content digest and current operation. */
  function View(l: Ledger): map<Key, Entry> {
    map k | k in l.records :: EntryOf(l.records[k])
  }

  /** Some stored command of the tenant already carries this identity or this idempotency key. */
  ghost predicate Clashes(v: map<Key, Entry>, command: Envelope) {
    exists k :: k in v && k.tenant == command.tenant
                && (k.id == command.commandId || v[k].operation.idempotencyKey == command.idempotencyKey)
  }

  /** Submission as it is meant: no index, no stale copies. */
  ghost function SpecSubmit(v: map<Key, Entry>, command: Envelope, client: Name, destination: Destination, now: Time)
    : (map<Key, Entry>, Result<Operation, Error>)
  {
    var key := KeyOf(command);
    if destination.Unsupported? then (v, Err(Conflict))
    else if !Clashes(v, command) then
      (v[key := Entry(Authenticated(command, client), NewOperation(command, now))], Ok(NewOperation(command, now)))
    else if key in v && v[key].digest == Authenticated(command, client) then
      (v, Ok(v[key].operation.(duplicate := true)))
    else (v, Err(Conflict))
  }

  lemma ClashIff(l: Ledger, command: Envelope)
    requires IndexInv(l)
    requires forall k :: k in l.records ==> Identified(k, l.records[k].digest, l.records[k].operation)
    ensures Clashes(View(l), command) <==>
              (KeyOf(command) in l.records || IdempotencyKey(command.tenant, command.idempotencyKey) in l.index)
  {
    var v := View(l);
    var index := IdempotencyKey(command.tenant, command.idempotencyKey);
    if KeyOf(command) in l.records { assert KeyOf(command) in v; }
    if index in l.index {
      assert Indexed(l, index);
      assert Key(index.tenant, l.index[index].operation.commandId) in v;
    }
    if Clashes(v, command) {
      var k :| k in v && k.tenant == command.tenant
               && (k.id == command.commandId || v[k].operation.idempotencyKey == command.idempotencyKey);
      assert Findable(l, k);
    }
  }

  lemma KnownSubmitCase(l: Ledger, command: Envelope, client: Name, destination: Destination, now: Time)
    requires !destination.Unsupported? && Clashes(View(l), command)
    requires var key := KeyOf(command);
             key in l.records ==> Findable(l, key) && Identified(key, l.records[key].digest, l.records[key].operation)
    requires var index := IdempotencyKey(command.tenant, command.idempotencyKey);
             && (KeyOf(command) in l.records || index in l.index)
             && (index in l.index ==>
                   l.index[index].digest.Authenticated?
                   && l.index[index].digest.command.commandId == l.index[index].operation.commandId
                   && (l.index[index].operation.commandId == command.commandId ==> KeyOf(command) in l.records))
    ensures SpecSubmit(View(l), command, client, destination, now)
            == (View(Submit(l, command, client, destination, now).0),
                Submit(l, command, client, destination, now).1)
  {
    hide Clashes, View;
    ViewAt(l, KeyOf(command));
  }

  lemma KnownSubmitRefines(l: Ledger, command: Envelope, client: Name, destination: Destination, now: Time)
    requires IndexInv(l) && !destination.Unsupported?
    requires forall k :: k in l.records ==> Identified(k, l.records[k].digest, l.records[k].operation)
    requires KeyOf(command) in l.records || IdempotencyKey(command.tenant, command.idempotencyKey) in l.index
    ensures SpecSubmit(View(l), command, client, destination, now)
            == (View(Submit(l, command, client, destination, now).0),
                Submit(l, command, client, destination, now).1)
  {
    hide Clashes, View, SpecSubmit, Submit;
    var key := KeyOf(command);
    var index := IdempotencyKey(command.tenant, command.idempotencyKey);
    ClashIff(l, command);
    if index in l.index {
      assert Indexed(l, index);
      var owner := Key(index.tenant, l.index[index].operation.commandId);
      assert Identified(owner, l.records[owner].digest, l.records[owner].operation);
    }
    KnownSubmitCase(l, command, client, destination, now);
  }

  lemma ViewAt(l: Ledger, k: Key)
    ensures k in View(l) <==> k in l.records
    ensures k in l.records ==> View(l)[k] == EntryOf(l.records[k])
  {
  }

  lemma NewSubmitRefines(l: Ledger, command: Envelope, client: Name, destination: Destination, now: Time)
    requires IndexInv(l) && !destination.Unsupported?
    requires forall k :: k in l.records ==> Identified(k, l.records[k].digest, l.records[k].operation)
    requires KeyOf(command) !in l.records && IdempotencyKey(command.tenant, command.idempotencyKey) !in l.index
    ensures SpecSubmit(View(l), command, client, destination, now)
            == (View(Submit(l, command, client, destination, now).0),
                Submit(l, command, client, destination, now).1)
  {
    hide Clashes, IndexInv, Identified;
    ClashIff(l, command);
    var l' := Submit(l, command, client, destination, now).0;
    var record := NewRecord(command, client, now);
    assert l'.records == l.records[KeyOf(command) := record];
    assert View(l') == View(l)[KeyOf(command) := EntryOf(record)];
  }

  /**
   In every reachable ledger submit acts as the single-map specification: a repeated submission
   returns the current operation and never a stale index copy, and any mismatch of identity, key,
   content or client is a conflict that changes nothing.
   */
  lemma SubmitRefinesSingleMap(steps: seq<Step>, command: Envelope, client: Name, destination: Destination, now: Time)
    ensures var l := Run(EMPTY, steps);
            SpecSubmit(View(l), command, client, destination, now)
            == (View(Submit(l, command, client, destination, now).0),
                Submit(l, command, client, destination, now).1)
  {
    hide IndexInv, MutationInv, OutboxInv, Run, Submit, SpecSubmit, Chained, Numbered, Attested;
    var l := Run(EMPTY, steps);
    Reachable(steps);
    forall k | k in l.records ensures Identified(k, l.records[k].digest, l.records[k].operation) {
      assert RecordOk(k, l.records[k]);
    }
    if destination.Unsupported? { UnsupportedSubmit(l, command, client, destination, now); }
    else if KeyOf(command) in l.records || IdempotencyKey(command.tenant, command.idempotencyKey) in l.index {
      KnownSubmitRefines(l, command, client, destination, now);
    } else {
      NewSubmitRefines(l, command, client, destination, now);
    }
  }

  lemma UnsupportedSubmit(l: Ledger, command: Envelope, client: Name, destination: Destination, now: Time)
    requires destination.Unsupported?
    ensures SpecSubmit(View(l), command, client, destination, now)
            == (View(Submit(l, command, client, destination, now).0),
                Submit(l, command, client, destination, now).1)
  {
  }

  lemma RecordIdentity(l: Ledger, k: Key)
    requires Inv(l) && k in l.records
    ensures l.records[k].operation.commandId == k.id
    ensures l.records[k].digest.Authenticated? && KeyOf(l.records[k].digest.command) == k
  {
    hide Chained, Numbered, Attested, IndexInv, MutationInv, OutboxInv;
    assert RecordOk(k, l.records[k]);
  }

  lemma IndexIdentity(l: Ledger, index: IdempotencyKey)
    requires Inv(l) && index in l.index
    ensures var entry := l.index[index];
            var k := Key(index.tenant, entry.operation.commandId);
            && k in l.records && entry.digest == l.records[k].digest
            && entry.digest.Authenticated? && KeyOf(entry.digest.command) == k
  {
    assert Indexed(l, index);
    RecordIdentity(l, Key(index.tenant, l.index[index].operation.commandId));
  }

  lemma SubmissionCases(l: Ledger, command: Envelope, client: Name, destination: Destination, now: Time)
    requires var key := KeyOf(command);
             key in l.records ==>
               l.records[key].operation.commandId == command.commandId && l.records[key].digest.Authenticated?
    requires var index := IdempotencyKey(command.tenant, command.idempotencyKey);
             index in l.index ==>
               var entry := l.index[index];
               var k := Key(index.tenant, entry.operation.commandId);
               && k in l.records && entry.digest == l.records[k].digest
               && entry.digest.Authenticated? && KeyOf(entry.digest.command) == k
    ensures var (l', r) := Submit(l, command, client, destination, now);
            && (forall k :: k in l.records ==> k in l'.records && l'.records[k] == l.records[k])
            && (r.Ok? ==> && r.value.commandId == command.commandId && KeyOf(command) in l'.records
                          && l'.records[KeyOf(command)].digest == Authenticated(command, client))
            && (r.Err? ==> l' == l && r == Err(Conflict))
  {
  }

  /**
   An accepted submission returns the operation of the submitted command, leaves the command on
   record with the submitted content, and touches no other record; a refused one changes nothing.
   */
  lemma AcceptedSubmission(l: Ledger, command: Envelope, client: Name, destination: Destination, now: Time)
    requires Inv(l)
    ensures var (l', r) := Submit(l, command, client, destination, now);
            && Inv(l')
            && (forall k :: k in l.records ==> k in l'.records && l'.records[k] == l.records[k])
            && (r.Ok? ==> && r.value.commandId == command.commandId && KeyOf(command) in l'.records
                          && l'.records[KeyOf(command)].digest == Authenticated(command, client))
            && (r.Err? ==> l' == l && r == Err(Conflict))
  {
    hide Inv, RecordOk, Submit;
    SubmitKeeps(l, command, client, destination, now);
    var index := IdempotencyKey(command.tenant, command.idempotencyKey);
    if KeyOf(command) in l.records { RecordIdentity(l, KeyOf(command)); }
    if index in l.index { IndexIdentity(l, index); }
    SubmissionCases(l, command, client, destination, now);
  }

  // ---------------------------------------------------------------- finality and history

  /** What a step may do to a stored command: nothing but extend its history. */
  predicate Extends(r: Record, r': Record) {
    && r.events <= r'.events
    && |r.attempts| <= |r'.attempts|
    && (forall n :: 0 <= n < |r.attempts| - 1 ==> r'.attempts[n] == r.attempts[n])
    && r.operation.resourceVersion <= r'.operation.resourceVersion
    && r'.digest == r.digest
    && (Absorbing(r.operation.state) ==> r' == r)
  }

  lemma StepExtends(l: Ledger, step: Step, k: Key)
    requires k in l.records
    ensures k in Apply(l, step).records && Extends(l.records[k], Apply(l, step).records[k])
  {
    hide MutatedOutbox, ActiveLease, BusMay, NewIntent, NewRecord;
  }

  lemma ExtendsTransitive(a: Record, b: Record, c: Record)
    requires Extends(a, b) && Extends(b, c)
    ensures Extends(a, c)
  {
  }

  /**
   Over any run a command that reached completed, dead_lettered or cancelled keeps its operation,
   events and attempts for good; for every other command the audit log only grows at the end and
   attempts before the newest never change.
   */
  lemma {:induction false} HistoryIsFinal(l: Ledger, steps: seq<Step>, k: Key)
    requires k in l.records
    ensures k in Run(l, steps).records && Extends(l.records[k], Run(l, steps).records[k])
  {
    hide Extends, Apply;
    if steps == [] {
      SelfExtends(l.records[k]);
    } else {
      var before := Run(l, steps[..|steps| - 1]);
      HistoryIsFinal(l, steps[..|steps| - 1], k);
      StepExtends(before, steps[|steps| - 1], k);
      ExtendsTransitive(l.records[k], before.records[k], Run(l, steps).records[k]);
    }
  }

  lemma SelfExtends(r: Record)
    ensures Extends(r, r)
  {
  }

  /** The step relation is the transition table widened by the two operator edges and the readback edge. */
  predicate Edge(s: CommandState, t: CommandState) {
    || t in AllowedNext(s)
    || (t.ReconciliationRequired? && (s.Persisted? || s.Queued? || Reconcilable(s)))
    || (s.ReconciliationRequired? && t.Completed?)
  }

  lemma StepFollowsEdges(l: Ledger, step: Step, k: Key)
    requires k in l.records
    ensures k in Apply(l, step).records
    ensures var s, t := l.records[k].operation.state, Apply(l, step).records[k].operation.state;
            s == t || Edge(s, t)
  {
  }

  /** An unfenced transition that the table allows goes through and touches nothing but its command. */
  lemma AllowedMove(l: Ledger, k: Key, next: CommandState, actor: Name, reason: Name, now: Time)
    requires k in l.records && next in AllowedNext(l.records[k].operation.state)
    ensures var (l', r) := Transition(l, k, next, actor, reason, None, None, None, now);
            && r.Ok? && l'.mutations == l.mutations && l'.outbox == l.outbox
            && k in l'.records && l'.records == l.records[k := l'.records[k]]
            && l'.records[k].operation.state == next
            && l'.records[k].operation.resourceVersion == l.records[k].operation.resourceVersion
            && |l'.records[k].attempts| == |l.records[k].attempts| + if next.Dispatching? then 1 else 0
  {
    hide Logged;
  }

  lemma {:induction false} UndispatchedEvents(events: seq<Event>)
    ensures Dispatches(events) == 0 <==> forall i :: 0 <= i < |events| ==> !events[i].next.Dispatching?
  {
    if events != [] {
      var n := |events| - 1;
      UndispatchedEvents(events[..n]);
      assert forall i :: 0 <= i < n ==> events[..n][i] == events[i];
    }
  }

  /** A reachable command was never dispatched exactly when it has no attempts. */
  lemma UndispatchedIff(l: Ledger, k: Key)
    requires Inv(l) && k in l.records
    ensures l.records[k].attempts == []
       <==> forall i :: 0 <= i < |l.records[k].events| ==> !l.records[k].events[i].next.Dispatching?
  {
    hide IndexInv, MutationInv, OutboxInv, Attested, Chained, Identified;
    assert RecordOk(k, l.records[k]);
    UndispatchedEvents(l.records[k].events);
  }

  /** A command that is still persisted was never dispatched. */
  lemma {:induction false} PersistedIsUndispatched(steps: seq<Step>, k: Key)
    requires k in Run(EMPTY, steps).records && Run(EMPTY, steps).records[k].operation.state.Persisted?
    ensures Run(EMPTY, steps).records[k].attempts == []
  {
    hide Apply;
    if steps != [] {
      var n := |steps| - 1;
      PersistedStep(Run(EMPTY, steps[..n]), steps[n], k);
      if k in Run(EMPTY, steps[..n]).records { PersistedIsUndispatched(steps[..n], k); }
    }
  }

  lemma PersistedStep(l: Ledger, step: Step, k: Key)
    requires k in Apply(l, step).records && Apply(l, step).records[k].operation.state.Persisted?
    ensures if k in l.records then Apply(l, step).records[k] == l.records[k]
            else Apply(l, step).records[k].attempts == []
  {
    hide MutatedOutbox, ActiveLease, BusMay, NewIntent, Logged, TransitionAttempts, ReconcileAttempts;
  }

  /**
   Audit log of a reachable command: events numbered 1..n, an unbroken chain ending in the current
   state, as many attempts, numbered 1..m, as the log has dispatching events, and operation, newest
   event and newest attempt in agreement.
   */
  lemma AuditLog(steps: seq<Step>, k: Key)
    requires k in Run(EMPTY, steps).records
    ensures var r := Run(EMPTY, steps).records[k];
            Chained(r.events, r.operation.state) && Numbered(r.attempts, r.events) && Attested(r)
  {
    hide Run, Chained, Numbered, Attested, Identified, IndexInv, MutationInv, OutboxInv;
    Reachable(steps);
    assert RecordOk(k, Run(EMPTY, steps).records[k]);
  }

  /** A fenced transition other than a dispatch goes through only with the current dispatch count. */
  lemma FencedTransition(steps: seq<Step>, key: Key, next: CommandState, actor: Name, reason: Name,
                         provider: Option<Name>, evidence: Option<Evidence>, token: int, now: Time)
    requires !next.Dispatching?
    requires Transition(Run(EMPTY, steps), key, next, actor, reason, provider, evidence, Some(token), now).1.Ok?
    ensures key in Run(EMPTY, steps).records
    ensures token == Dispatches(Run(EMPTY, steps).records[key].events)
  {
    AuditLog(steps, key);
  }

  // ---------------------------------------------------------------- versions and outbox

  /** No two accepted mutations of a command, of whatever action, actor or key, spent the same version. */
  lemma OneMutationPerVersion(steps: seq<Step>, m: MutationKey, n: MutationKey)
    requires var l := Run(EMPTY, steps);
             m in l.mutations && n in l.mutations && m != n && m.tenant == n.tenant && m.id == n.id
    ensures var l := Run(EMPTY, steps);
            l.mutations[m].request.expectedVersion != l.mutations[n].request.expectedVersion
  {
    Reachable(steps);
    assert Exclusive(Run(EMPTY, steps), m, n);
  }

  /** A recorded mutation always asks for a version below the current one, so no later request repeats it. */
  lemma RecordedMutationIsStale(l: Ledger, m: MutationKey)
    requires Inv(l) && m in l.mutations
    ensures Key(m.tenant, m.id) in l.records
    ensures l.mutations[m].request.expectedVersion < l.records[Key(m.tenant, m.id)].operation.resourceVersion
  {
    assert MutationOk(l, m);
  }

  /** A command has one intent plus one per accepted retry, all with its destination and its content. */
  lemma OutboxConserved(steps: seq<Step>, k: Key)
    requires k in Run(EMPTY, steps).records
    ensures var l := Run(EMPTY, steps);
            && CountOf(l.outbox, k) == 1 + Retries(l.records[k].events)
            && (forall i :: 0 <= i < |l.outbox| && Mine(l.outbox[i], k) ==>
                  l.outbox[i].payload == l.records[k].digest.command)
            && (forall i, j :: (&& 0 <= i < |l.outbox| && 0 <= j < |l.outbox|
                                && Mine(l.outbox[i], k) && Mine(l.outbox[j], k))
                  ==> l.outbox[i].destination == l.outbox[j].destination)
  {
    Reachable(steps);
    var l := Run(EMPTY, steps);
    forall i | 0 <= i < |l.outbox| && Mine(l.outbox[i], k) ensures l.outbox[i].payload == l.records[k].digest.command {
      assert IntentOk(l, i);
    }
    forall i, j | 0 <= i < |l.outbox| && 0 <= j < |l.outbox| && Mine(l.outbox[i], k) && Mine(l.outbox[j], k)
      ensures l.outbox[i].destination == l.outbox[j].destination
    {
      assert SameRoute(l, i, j);
    }
  }

  ghost predicate Quiet(l: Ledger, k: Key) {
    forall i :: 0 <= i < |l.outbox| && Mine(l.outbox[i], k) ==> !Live(l.outbox[i])
  }

  lemma CancelledIsQuiet(l: Ledger, k: Key)
    requires Inv(l) && k in l.records && l.records[k].operation.cancelledAt.Some?
    ensures Quiet(l, k)
  {
    forall i | 0 <= i < |l.outbox| && Mine(l.outbox[i], k) ensures !Live(l.outbox[i]) { assert IntentOk(l, i); }
  }

  /** After an operator cancel that yields `cancelled`, no run ever makes an intent of the command live. */
  lemma CancelStaysQuiet(l: Ledger, k: Key, actor: Name, idempotencyKey: Name, version: int, reason: Name,
                         now: Time, later: seq<Step>)
    requires Inv(l) && MutationKey(k.tenant, k.id, Cancel, actor, idempotencyKey) !in l.mutations
    requires var r := Mutate(l, k, Cancel, actor, idempotencyKey, version, reason, now).1;
             r.Ok? && r.value.state.Cancelled?
    ensures Quiet(Run(Mutate(l, k, Cancel, actor, idempotencyKey, version, reason, now).0, later), k)
  {
    hide Inv, Quiet, Run;
    var l' := Mutate(l, k, Cancel, actor, idempotencyKey, version, reason, now).0;
    MutateKeeps(l, k, Cancel, actor, idempotencyKey, version, reason, now);
    RunKeeps(l', later);
    HistoryIsFinal(l', later, k);
    CancelledIsQuiet(Run(l', later), k);
  }

  /**
   `transition` to cancelled is no such cancel: it leaves the outbox alone, so the command is quiet
   afterwards exactly when it was quiet before.
   */
  lemma TransitionCancelQuietIff(l: Ledger, k: Key, actor: Name, reason: Name, provider: Option<Name>,
                                 fence: Option<int>, now: Time)
    requires Transition(l, k, Cancelled, actor, reason, provider, None, fence, now).1.Ok?
    ensures Quiet(Transition(l, k, Cancelled, actor, reason, provider, None, fence, now).0, k) <==> Quiet(l, k)
  {
  }

  /** A freshly submitted command that is cancelled by `transition` still has a live intent. */
  lemma TransitionCancelLeavesLiveIntent(command: Envelope, client: Name, actor: Name, reason: Name, now: Time)
    ensures var l := Submit(EMPTY, command, client, AdapterCommand, now).0;
            var (l', r) := Transition(l, KeyOf(command), Cancelled, actor, reason, None, None, None, now);
            r.Ok? && r.value.state.Cancelled? && !Quiet(l', KeyOf(command))
  {
    var l := Submit(EMPTY, command, client, AdapterCommand, now).0;
    var l' := Transition(l, KeyOf(command), Cancelled, actor, reason, None, None, None, now).0;
    assert Mine(l'.outbox[0], KeyOf(command)) && Live(l'.outbox[0]);
  }
}
