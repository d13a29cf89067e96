/**
 What every step of the command ledger keeps.  The invariant has four parts: the record with its
 audit log, the index, the recorded mutations, and the outbox.
 */
module LedgerInvariants {
  import opened Identities
  import opened CommandLedger

  // ---------------------------------------------------------------- one record

  /** Events are numbered 1..n, start from nothing, link up, and end in `last`. */
  predicate Chained(events: seq<Event>, last: CommandState) {
    && |events| > 0
    && events[0].previous == None && events[0].next == Persisted
    && (forall i :: 0 <= i < |events| ==> events[i].eventId == i + 1)
    && (forall i :: 0 < i < |events| ==> events[i].previous == Some(events[i - 1].next))
    && events[|events| - 1].next == last
  }

  function Dispatches(events: seq<Event>): nat {
    if events == [] then 0
    else Dispatches(events[..|events| - 1]) + (if events[|events| - 1].next.Dispatching? then 1 else 0)
  }

  function Retries(events: seq<Event>): nat {
    if events == [] then 0
    else Retries(events[..|events| - 1]) + (if events[|events| - 1].action == Some(Retry) then 1 else 0)
  }

  predicate Numbered(attempts: seq<Attempt>, events: seq<Event>) {
    && |attempts| == Dispatches(events)
    && (forall i :: 0 <= i < |attempts| ==> attempts[i].number == i + 1 && attempts[i].attemptId == i + 1)
  }

  /** The state that the newest event other than an operator mutation led to. */
  function LastMoved(events: seq<Event>): CommandState {
    if events == [] then Persisted
    else if events[|events| - 1].action.None? then events[|events| - 1].next
    else LastMoved(events[..|events| - 1])
  }

  /** An attempt is finished exactly in the states that end it, and has an error exactly in the bad ones. */
  predicate AttemptOk(a: Attempt) {
    && (a.finishedAt.Some? <==> a.state.Completed? || a.state.Failed? || a.state.ReconciliationRequired?)
    && (a.safeError.Some? <==> a.state.Failed? || a.state.ReconciliationRequired?)
  }

  /** Operation, events and attempts tell one story: stamps, evidence, the newest attempt and its provider. */
  predicate Attested(r: Record) {
    && |r.events| > 0
    && r.operation.createdAt == r.events[0].createdAt
    && r.operation.updatedAt == r.events[|r.events| - 1].createdAt
    && r.operation.readbackDigest == r.operation.readbackEvidence
    && (forall i :: 0 <= i < |r.attempts| ==> AttemptOk(r.attempts[i]))
    && (|r.attempts| > 0 ==>
          var newest := r.attempts[|r.attempts| - 1];
          && newest.state == LastMoved(r.events)
          && (newest.providerOperationId.Some? ==> newest.providerOperationId == r.operation.providerOperationId))
  }

  /** The operation stored under a key is the one the recorded content digest speaks of. */
  predicate Identified(key: Key, digest: CommandDigest, op: Operation) {
    && digest.Authenticated?
    && KeyOf(digest.command) == key
    && op.commandId == key.id
    && op.tenant == key.tenant
    && op.idempotencyKey == digest.command.idempotencyKey
    && op.commandType == digest.command.commandType
    && !op.duplicate
    && (op.cancelledAt.Some? ==> op.state.Cancelled?)
  }

  predicate RecordOk(key: Key, r: Record) {
    && Identified(key, r.digest, r.operation) && Chained(r.events, r.operation.state) && Numbered(r.attempts, r.events)
    && Attested(r)
  }

  /** `r'` may replace `r` under `key`: it speaks of the same command and is not older. */
  predicate Evolves(key: Key, r: Record, r': Record) {
    && r'.digest == r.digest
    && r'.operation.commandId == r.operation.commandId == key.id
    && r'.operation.idempotencyKey == r.operation.idempotencyKey
    && r'.operation.resourceVersion >= r.operation.resourceVersion
  }

  /** A change that is not an operator mutation. */
  predicate Unmutated(r: Record, r': Record) {
    Retries(r'.events) == Retries(r.events) && r'.operation.cancelledAt == r.operation.cancelledAt
  }

  lemma Appended(events: seq<Event>, e: Event)
    ensures Dispatches(events + [e]) == Dispatches(events) + (if e.next.Dispatching? then 1 else 0)
    ensures Retries(events + [e]) == Retries(events) + (if e.action == Some(Retry) then 1 else 0)
    ensures LastMoved(events + [e]) == if e.action.None? then e.next else LastMoved(events)
  {
    assert (events + [e])[..|events|] == events;
  }

  lemma NewRecordOk(command: Envelope, client: Name, now: Time)
    ensures RecordOk(KeyOf(command), NewRecord(command, client, now))
    ensures Retries(NewRecord(command, client, now).events) == 0
  {
    var e := Event(1, command.commandId, None, Persisted, command.requestedBy, None, None, now);
    Appended([], e);
    assert [] + [e] == [e];
  }

  lemma TransitionAttested(r: Record, key: Key, next: CommandState, actor: Name, reason: Name,
                           provider: Option<Name>, evidence: Option<Evidence>, now: Time)
    requires Attested(r)
    ensures Attested(TransitionRecord(r, key, next, actor, reason, provider, evidence, now))
  {
    hide Dispatches, Retries;
    Appended(r.events, Event(|r.events| + 1, key.id, Some(r.operation.state), next, actor, Some(reason), None, now));
  }

  lemma ReconcileAttested(r: Record, key: Key, matched: bool, actor: Name, reason: Name,
                          provider: Option<Name>, evidence: Evidence, now: Time)
    requires Attested(r)
    ensures Attested(ReconcileRecord(r, key, matched, actor, reason, provider, evidence, now))
  {
    hide Dispatches, Retries;
    var next := if matched then Completed else ReconciliationRequired;
    Appended(r.events, Event(|r.events| + 1, key.id, Some(ReconciliationRequired), next, actor, Some(reason), None,
                             now));
  }

  lemma MutatedAttested(r: Record, key: Key, action: MutationAction, lease: bool, actor: Name, reason: Name, now: Time)
    requires Attested(r) && MutatedOperation(r.operation, action, lease, reason, now).Some?
    ensures Attested(MutatedRecord(r, key, MutatedOperation(r.operation, action, lease, reason, now).value, action,
                                   actor, reason, now))
  {
    hide Dispatches, Retries;
    var op' := MutatedOperation(r.operation, action, lease, reason, now).value;
    Appended(r.events, Event(|r.events| + 1, key.id, Some(r.operation.state), op'.state, actor, Some(reason),
                             Some(action), now));
  }

  lemma TransitionRecordOk(r: Record, key: Key, next: CommandState, actor: Name, reason: Name,
                           provider: Option<Name>, evidence: Option<Evidence>, now: Time)
    requires RecordOk(key, r) && next in AllowedNext(r.operation.state)
    ensures var r' := TransitionRecord(r, key, next, actor, reason, provider, evidence, now);
            RecordOk(key, r') && Evolves(key, r, r') && Unmutated(r, r')
  {
    hide Attested, LastMoved;
    TransitionAttested(r, key, next, actor, reason, provider, evidence, now);
    Appended(r.events, Event(|r.events| + 1, key.id, Some(r.operation.state), next, actor, Some(reason), None, now));
  }

  lemma ReconcileRecordOk(r: Record, key: Key, matched: bool, actor: Name, reason: Name,
                          provider: Option<Name>, evidence: Evidence, now: Time)
    requires RecordOk(key, r) && r.operation.state.ReconciliationRequired?
    ensures var r' := ReconcileRecord(r, key, matched, actor, reason, provider, evidence, now);
            RecordOk(key, r') && Evolves(key, r, r') && Unmutated(r, r')
  {
    hide Attested, LastMoved;
    ReconcileAttested(r, key, matched, actor, reason, provider, evidence, now);
    var next := if matched then Completed else ReconciliationRequired;
    Appended(r.events, Event(|r.events| + 1, key.id, Some(ReconciliationRequired), next, actor, Some(reason), None,
                             now));
  }

  lemma MutatedRecordOk(r: Record, key: Key, action: MutationAction, lease: bool, actor: Name, reason: Name, now: Time)
    requires RecordOk(key, r) && MutatedOperation(r.operation, action, lease, reason, now).Some?
    ensures
      var r' := MutatedRecord(r, key, MutatedOperation(r.operation, action, lease, reason, now).value,
                              action, actor, reason, now);
      RecordOk(key, r') && Retries(r'.events) == Retries(r.events) + if action.Retry? then 1 else 0
  {
    hide Attested, LastMoved;
    MutatedAttested(r, key, action, lease, actor, reason, now);
    var op' := MutatedOperation(r.operation, action, lease, reason, now).value;
    Appended(r.events, Event(|r.events| + 1, key.id, Some(r.operation.state), op'.state, actor, Some(reason),
                             Some(action), now));
  }

  // ---------------------------------------------------------------- the whole ledger

  ghost predicate RecordsInv(l: Ledger) {
    forall k :: k in l.records ==> RecordOk(k, l.records[k])
  }

  /** An index entry may be stale, but its identity and content are those of a stored record. */
  predicate Indexed(l: Ledger, i: IdempotencyKey) requires i in l.index {
    var key := Key(i.tenant, l.index[i].operation.commandId);
    && key in l.records
    && l.index[i].digest == l.records[key].digest
    && l.records[key].operation.idempotencyKey == i.key
  }

  predicate Findable(l: Ledger, k: Key) requires k in l.records {
    var i := IdempotencyKey(k.tenant, l.records[k].operation.idempotencyKey);
    i in l.index && l.index[i].operation.commandId == k.id
  }

  ghost predicate IndexInv(l: Ledger) {
    && (forall i :: i in l.index ==> Indexed(l, i))
    && (forall k :: k in l.records ==> Findable(l, k))
  }

  predicate MutationOk(l: Ledger, m: MutationKey) requires m in l.mutations {
    var key := Key(m.tenant, m.id);
    && key in l.records
    && l.mutations[m].operation.resourceVersion == l.mutations[m].request.expectedVersion + 1
    && l.mutations[m].operation.resourceVersion <= l.records[key].operation.resourceVersion
  }

  /** Two recorded mutations of one command that expect one version are the same mutation. */
  predicate Exclusive(l: Ledger, m: MutationKey, n: MutationKey)
    requires m in l.mutations && n in l.mutations
  {
    (&& m.tenant == n.tenant && m.id == n.id
     && l.mutations[m].request.expectedVersion == l.mutations[n].request.expectedVersion) ==> m == n
  }

  ghost predicate MutationInv(l: Ledger) {
    && (forall m :: m in l.mutations ==> MutationOk(l, m))
    && (forall m, n :: m in l.mutations && n in l.mutations ==> Exclusive(l, m, n))
  }

  function CountOf(outbox: seq<Intent>, key: Key): nat {
    if outbox == [] then 0
    else CountOf(outbox[..|outbox| - 1], key) + (if Mine(outbox[|outbox| - 1], key) then 1 else 0)
  }

  function OwnerOf(intent: Intent): Key { Key(intent.tenant, intent.commandId) }

  predicate IntentOk(l: Ledger, i: int) requires 0 <= i < |l.outbox| {
    var k := OwnerOf(l.outbox[i]);
    && l.outbox[i].id == i + 1
    && k in l.records
    && l.outbox[i].payload == l.records[k].digest.command
    && (l.records[k].operation.cancelledAt.Some? ==> !Live(l.outbox[i]))
  }

  predicate SameRoute(l: Ledger, i: int, j: int) requires 0 <= i < |l.outbox| && 0 <= j < |l.outbox| {
    OwnerOf(l.outbox[i]) == OwnerOf(l.outbox[j]) ==> l.outbox[i].destination == l.outbox[j].destination
  }

  ghost predicate OutboxInv(l: Ledger) {
    && (forall i :: 0 <= i < |l.outbox| ==> IntentOk(l, i))
    && (forall i, j :: 0 <= i < |l.outbox| && 0 <= j < |l.outbox| ==> SameRoute(l, i, j))
    && (forall k :: k in l.records ==> CountOf(l.outbox, k) == 1 + Retries(l.records[k].events))
  }

  ghost predicate Inv(l: Ledger) {
    RecordsInv(l) && IndexInv(l) && MutationInv(l) && OutboxInv(l)
  }

  // ---------------------------------------------------------------- counting intents

  lemma {:induction false} CountSame(a: seq<Intent>, b: seq<Intent>, key: Key)
    requires |a| == |b|
    requires forall i :: 0 <= i < |a| ==> OwnerOf(a[i]) == OwnerOf(b[i])
    ensures CountOf(a, key) == CountOf(b, key)
  {
    if a != [] {
      assert OwnerOf(a[|a| - 1]) == OwnerOf(b[|a| - 1]);
      CountSame(a[..|a| - 1], b[..|b| - 1], key);
    }
  }

  lemma CountAppend(a: seq<Intent>, x: Intent, key: Key)
    ensures CountOf(a + [x], key) == CountOf(a, key) + (if Mine(x, key) then 1 else 0)
  {
    assert (a + [x])[..|a|] == a;
  }

  lemma {:induction false} CountNone(a: seq<Intent>, key: Key)
    requires forall i :: 0 <= i < |a| ==> !Mine(a[i], key)
    ensures CountOf(a, key) == 0
  {
    if a != [] { CountNone(a[..|a| - 1], key); }
  }

  // ---------------------------------------------------------------- storing a changed record

  lemma StoreKeepsIndex(l: Ledger, l': Ledger, key: Key, r: Record)
    requires IndexInv(l) && key in l.records && Evolves(key, l.records[key], r)
    requires l'.records == l.records[key := r] && l'.index == l.index
    ensures IndexInv(l')
  {
    forall i | i in l'.index ensures Indexed(l', i) { assert Indexed(l, i); }
    forall k | k in l'.records ensures Findable(l', k) { assert Findable(l, k); }
  }

  lemma PutKeepsIndex(l: Ledger, key: Key, r: Record)
    requires IndexInv(l) && key in l.records && Evolves(key, l.records[key], r)
    ensures IndexInv(Put(l, key, r))
  {
    var l' := Put(l, key, r);
    var index := IdempotencyKey(key.tenant, r.operation.idempotencyKey);
    forall i | i in l'.index ensures Indexed(l', i) {
      if i != index { assert Indexed(l, i); }
    }
    forall k | k in l'.records ensures Findable(l', k) { assert Findable(l, k); assert Findable(l, key); }
  }

  lemma StoreKeepsMutations(l: Ledger, l': Ledger, key: Key, r: Record)
    requires MutationInv(l) && key in l.records && Evolves(key, l.records[key], r)
    requires l'.records == l.records[key := r] && l'.mutations == l.mutations
    ensures MutationInv(l')
  {
    forall m | m in l'.mutations ensures MutationOk(l', m) { assert MutationOk(l, m); }
    forall m, n | m in l'.mutations && n in l'.mutations ensures Exclusive(l', m, n) { assert Exclusive(l, m, n); }
  }

  lemma StoreKeepsOutbox(l: Ledger, l': Ledger, key: Key, r: Record)
    requires OutboxInv(l) && key in l.records && Evolves(key, l.records[key], r)
    requires l'.records == l.records[key := r] && l'.outbox == l.outbox
    requires Unmutated(l.records[key], r)
    ensures OutboxInv(l')
  {
    forall i | 0 <= i < |l'.outbox| ensures IntentOk(l', i) { assert IntentOk(l, i); }
    forall i, j | 0 <= i < |l'.outbox| && 0 <= j < |l'.outbox| ensures SameRoute(l', i, j) {
      assert SameRoute(l, i, j);
    }
  }

  lemma PutKeeps(l: Ledger, key: Key, r: Record)
    requires Inv(l) && key in l.records && Evolves(key, l.records[key], r) && RecordOk(key, r)
    requires Unmutated(l.records[key], r)
    ensures Inv(Put(l, key, r))
  {
    hide IndexInv, MutationInv, OutboxInv, Chained, Numbered, Attested;
    var l' := Put(l, key, r);
    PutKeepsIndex(l, key, r);
    StoreKeepsMutations(l, l', key, r);
    StoreKeepsOutbox(l, l', key, r);
  }

  // ---------------------------------------------------------------- each operation keeps the invariant

  lemma TransitionKeeps(l: Ledger, key: Key, next: CommandState, actor: Name, reason: Name,
                        provider: Option<Name>, evidence: Option<Evidence>,
                        expectedAttempt: Option<int>, now: Time)
    requires Inv(l)
    ensures Inv(Transition(l, key, next, actor, reason, provider, evidence, expectedAttempt, now).0)
  {
    hide IndexInv, MutationInv, OutboxInv, RecordOk, Evolves, Unmutated, TransitionRecord, ReconcileRecord;
    if key in l.records && next in AllowedNext(l.records[key].operation.state) {
      var r := l.records[key];
      assert RecordOk(key, r);
      TransitionRecordOk(r, key, next, actor, reason, provider, evidence, now);
      PutKeeps(l, key, TransitionRecord(r, key, next, actor, reason, provider, evidence, now));
    }
  }

  lemma ReconcileKeeps(l: Ledger, key: Key, matched: bool, actor: Name, reason: Name,
                       provider: Option<Name>, evidence: Evidence,
                       expectedVersion: Option<int>, now: Time)
    requires Inv(l)
    ensures Inv(ReconcileReadback(l, key, matched, actor, reason, provider, evidence, expectedVersion, now).0)
  {
    hide IndexInv, MutationInv, OutboxInv, RecordOk, Evolves, Unmutated, TransitionRecord, ReconcileRecord;
    if key in l.records && l.records[key].operation.state.ReconciliationRequired? {
      var r := l.records[key];
      assert RecordOk(key, r);
      ReconcileRecordOk(r, key, matched, actor, reason, provider, evidence, now);
      PutKeeps(l, key, ReconcileRecord(r, key, matched, actor, reason, provider, evidence, now));
    }
  }

  lemma AcceptedMutationKeepsMutations(l: Ledger, l': Ledger, key: Key, r: Record, added: MutationKey, reason: Name)
    requires MutationInv(l) && key in l.records && Evolves(key, l.records[key], r)
    requires r.operation.resourceVersion == l.records[key].operation.resourceVersion + 1
    requires added.tenant == key.tenant && added.id == key.id && added !in l.mutations
    requires l'.records == l.records[key := r]
    requires l'.mutations == l.mutations[added := Mutation(
                               MutationRequest(l.records[key].operation.resourceVersion, reason), r.operation)]
    ensures MutationInv(l')
  {
    forall m | m in l'.mutations ensures MutationOk(l', m) {
      if m != added { assert MutationOk(l, m); }
    }
    forall m, n | m in l'.mutations && n in l'.mutations ensures Exclusive(l', m, n) {
      if m != added { assert MutationOk(l, m); }
      if n != added { assert MutationOk(l, n); }
      if m != added && n != added { assert Exclusive(l, m, n); }
    }
  }

  /** Rewriting intents in place: owners, routes, payloads and stamps already set survive. */
  ghost predicate Restamps(a: seq<Intent>, b: seq<Intent>) {
    && |a| == |b|
    && forall i :: 0 <= i < |a| ==>
         && OwnerOf(a[i]) == OwnerOf(b[i]) && a[i].id == b[i].id
         && a[i].destination == b[i].destination && a[i].payload == b[i].payload
         && (!Live(a[i]) ==> !Live(b[i]))
  }

  lemma RestampKeepsOutbox(l: Ledger, l': Ledger, key: Key, r: Record)
    requires OutboxInv(l) && key in l.records && Evolves(key, l.records[key], r)
    requires l'.records == l.records[key := r] && Restamps(l.outbox, l'.outbox)
    requires Retries(r.events) == Retries(l.records[key].events)
    requires r.operation.cancelledAt.None?
             || forall i :: 0 <= i < |l'.outbox| && Mine(l'.outbox[i], key) ==> !Live(l'.outbox[i])
    ensures OutboxInv(l')
  {
    forall i | 0 <= i < |l'.outbox| ensures IntentOk(l', i) { assert IntentOk(l, i); }
    forall i, j | 0 <= i < |l'.outbox| && 0 <= j < |l'.outbox| ensures SameRoute(l', i, j) {
      assert SameRoute(l, i, j);
    }
    forall k | k in l'.records ensures CountOf(l'.outbox, k) == 1 + Retries(l'.records[k].events) {
      CountSame(l.outbox, l'.outbox, k);
    }
  }

  lemma RetryKeepsOutbox(l: Ledger, l': Ledger, key: Key, r: Record, actor: Name, idempotencyKey: Name)
    requires OutboxInv(l) && key in l.records && Evolves(key, l.records[key], r)
    requires l'.records == l.records[key := r] && r.operation.cancelledAt.None?
    requires l'.outbox == l.outbox + [RetryIntent(l.outbox, key, l.records[key], actor, idempotencyKey)]
    requires Retries(r.events) == Retries(l.records[key].events) + 1
    ensures OutboxInv(l')
  {
    var intent := RetryIntent(l.outbox, key, l.records[key], actor, idempotencyKey);
    if LastIntent(l.outbox, key).None? { CountNone(l.outbox, key); assert false; }
    var n :| 0 <= n < |l.outbox| && l.outbox[n] == LastIntent(l.outbox, key).value;
    assert IntentOk(l, n);
    forall i | 0 <= i < |l'.outbox| ensures IntentOk(l', i) {
      if i < |l.outbox| { assert IntentOk(l, i); }
    }
    forall i, j | 0 <= i < |l'.outbox| && 0 <= j < |l'.outbox| ensures SameRoute(l', i, j) {
      var i', j' := if i < |l.outbox| then i else n, if j < |l.outbox| then j else n;
      assert SameRoute(l, i', j');
    }
    forall k | k in l'.records ensures CountOf(l'.outbox, k) == 1 + Retries(l'.records[k].events) {
      CountAppend(l.outbox, intent, k);
    }
  }

  lemma CancelRestamps(outbox: seq<Intent>, key: Key)
    ensures Restamps(outbox, CancelIntents(outbox, key))
    ensures !ActiveLease(outbox, key) ==>
              forall i :: 0 <= i < |outbox| && Mine(CancelIntents(outbox, key)[i], key)
                          ==> !Live(CancelIntents(outbox, key)[i])
  {
    forall i | 0 <= i < |outbox| && Mine(CancelIntents(outbox, key)[i], key) && !ActiveLease(outbox, key)
      ensures !Live(CancelIntents(outbox, key)[i])
    {
      assert Mine(outbox[i], key) && !Leased(outbox[i]);
    }
  }

  lemma MutateKeepsOutbox(l: Ledger, l': Ledger, key: Key, r: Record, action: MutationAction, actor: Name,
                          idempotencyKey: Name, reason: Name, now: Time)
    requires OutboxInv(l) && key in l.records && Evolves(key, l.records[key], r)
    requires Identified(key, l.records[key].digest, l.records[key].operation)
    requires l'.records == l.records[key := r]
    requires var lease := ActiveLease(l.outbox, key);
             MutatedOperation(l.records[key].operation, action, lease, reason, now) == Some(r.operation)
    requires l'.outbox == MutatedOutbox(l.outbox, key, l.records[key], action, r.operation.state, actor, idempotencyKey)
    requires Retries(r.events) == Retries(l.records[key].events) + if action.Retry? then 1 else 0
    ensures OutboxInv(l')
  {
    match action
    case Cancel =>
      if r.operation.state.Cancelled? { CancelRestamps(l.outbox, key); }
      RestampKeepsOutbox(l, l', key, r);
    case Reconcile => RestampKeepsOutbox(l, l', key, r);
    case Retry => RetryKeepsOutbox(l, l', key, r, actor, idempotencyKey);
  }

  lemma AcceptedMutationKeeps(l: Ledger, l': Ledger, key: Key, action: MutationAction, actor: Name,
                              idempotencyKey: Name, reason: Name, now: Time)
    requires Inv(l) && key in l.records
    requires MutationKey(key.tenant, key.id, action, actor, idempotencyKey) !in l.mutations
    requires MutatedOperation(l.records[key].operation, action, ActiveLease(l.outbox, key), reason, now).Some?
    requires
      var op := l.records[key].operation;
      var op' := MutatedOperation(op, action, ActiveLease(l.outbox, key), reason, now).value;
      l' == Ledger(
        l.records[key := MutatedRecord(l.records[key], key, op', action, actor, reason, now)],
        l.index,
        l.mutations[MutationKey(key.tenant, key.id, action, actor, idempotencyKey)
                    := Mutation(MutationRequest(op.resourceVersion, reason), op')],
        MutatedOutbox(l.outbox, key, l.records[key], action, op'.state, actor, idempotencyKey))
    ensures Inv(l')
  {
    hide IndexInv, MutationInv, OutboxInv, Chained, Numbered, Attested, ActiveLease, MutatedOutbox, Retries, Dispatches;
    var added := MutationKey(key.tenant, key.id, action, actor, idempotencyKey);
    var r := l'.records[key];
    assert RecordOk(key, l.records[key]);
    MutatedRecordOk(l.records[key], key, action, ActiveLease(l.outbox, key), actor, reason, now);
    StoreKeepsIndex(l, l', key, r);
    AcceptedMutationKeepsMutations(l, l', key, r, added, reason);
    MutateKeepsOutbox(l, l', key, r, action, actor, idempotencyKey, reason, now);
  }

  lemma MutateKeeps(l: Ledger, key: Key, action: MutationAction, actor: Name, idempotencyKey: Name,
                    expectedVersion: int, reason: Name, now: Time)
    requires Inv(l)
    ensures Inv(Mutate(l, key, action, actor, idempotencyKey, expectedVersion, reason, now).0)
  {
    hide Inv, MutatedOutbox, MutatedRecord;
    var (l', result) := Mutate(l, key, action, actor, idempotencyKey, expectedVersion, reason, now);
    var added := MutationKey(key.tenant, key.id, action, actor, idempotencyKey);
    if result.Ok? && added !in l.mutations {
      AcceptedMutationKeeps(l, l', key, action, actor, idempotencyKey, reason, now);
    }
  }

  /** `l'` is `l` with a first record and a first intent for a new command. */
  predicate Opens(l: Ledger, l': Ledger, key: Key, r: Record, x: Intent) {
    && key !in l.records && Retries(r.events) == 0 && r.operation.cancelledAt.None?
    && l'.records == l.records[key := r] && l'.outbox == l.outbox + [x]
    && x.id == |l.outbox| + 1 && OwnerOf(x) == key && x.payload == r.digest.command
  }

  lemma OpensIntents(l: Ledger, l': Ledger, key: Key, r: Record, x: Intent)
    requires OutboxInv(l) && Opens(l, l', key, r, x)
    ensures forall i :: 0 <= i < |l'.outbox| ==> IntentOk(l', i)
  {
    hide Retries, CountOf, SameRoute;
    forall i | 0 <= i < |l'.outbox| ensures IntentOk(l', i) {
      if i < |l.outbox| { assert IntentOk(l, i); }
    }
  }

  lemma OpensUnowned(l: Ledger, l': Ledger, key: Key, r: Record, x: Intent)
    requires OutboxInv(l) && Opens(l, l', key, r, x)
    ensures forall i :: 0 <= i < |l.outbox| ==> !Mine(l.outbox[i], key)
  {
    hide Retries, CountOf, SameRoute;
    forall i | 0 <= i < |l.outbox| ensures !Mine(l.outbox[i], key) { assert IntentOk(l, i); }
  }

  lemma OpensRoutes(l: Ledger, l': Ledger, key: Key, r: Record, x: Intent)
    requires OutboxInv(l) && Opens(l, l', key, r, x)
    ensures forall i, j :: 0 <= i < |l'.outbox| && 0 <= j < |l'.outbox| ==> SameRoute(l', i, j)
  {
    OpensUnowned(l, l', key, r, x);
    hide Retries, CountOf, IntentOk;
    forall i, j | 0 <= i < |l'.outbox| && 0 <= j < |l'.outbox| ensures SameRoute(l', i, j) {
      if i < |l.outbox| && j < |l.outbox| { assert SameRoute(l, i, j); }
    }
  }

  lemma SubmitKeepsOutbox(l: Ledger, l': Ledger, key: Key, r: Record, x: Intent)
    requires OutboxInv(l) && Opens(l, l', key, r, x)
    ensures OutboxInv(l')
  {
    hide IntentOk, SameRoute, CountOf, Retries;
    OpensIntents(l, l', key, r, x);
    OpensRoutes(l, l', key, r, x);
    OpensUnowned(l, l', key, r, x);
    CountNone(l.outbox, key);
    forall k | k in l'.records ensures CountOf(l'.outbox, k) == 1 + Retries(l'.records[k].events) {
      CountAppend(l.outbox, x, k);
    }
  }

  lemma SubmitKeepsIndex(l: Ledger, l': Ledger, key: Key, r: Record, index: IdempotencyKey)
    requires IndexInv(l) && key !in l.records && index !in l.index
    requires index == IdempotencyKey(key.tenant, r.operation.idempotencyKey) && r.operation.commandId == key.id
    requires l'.records == l.records[key := r] && l'.index == l.index[index := EntryOf(r)]
    ensures IndexInv(l')
  {
    forall i | i in l'.index ensures Indexed(l', i) { if i != index { assert Indexed(l, i); } }
    forall k | k in l'.records ensures Findable(l', k) { if k != key { assert Findable(l, k); } }
  }

  lemma GrowthKeepsMutations(l: Ledger, l': Ledger)
    requires MutationInv(l) && l'.mutations == l.mutations
    requires forall k :: k in l.records ==> k in l'.records && l'.records[k] == l.records[k]
    ensures MutationInv(l')
  {
    forall m | m in l'.mutations ensures MutationOk(l', m) { assert MutationOk(l, m); }
    forall m, n | m in l'.mutations && n in l'.mutations ensures Exclusive(l', m, n) { assert Exclusive(l, m, n); }
  }

  lemma SubmitKeeps(l: Ledger, command: Envelope, client: Name, destination: Destination, now: Time)
    requires Inv(l)
    ensures Inv(Submit(l, command, client, destination, now).0)
  {
    hide IndexInv, MutationInv, OutboxInv, RecordOk;
    var key := KeyOf(command);
    var index := IdempotencyKey(command.tenant, command.idempotencyKey);
    if !destination.Unsupported? && key !in l.records && index !in l.index {
      var l' := Submit(l, command, client, destination, now).0;
      NewRecordOk(command, client, now);
      SubmitKeepsOutbox(l, l', key, l'.records[key], l'.outbox[|l.outbox|]);
      SubmitKeepsIndex(l, l', key, l'.records[key], index);
      GrowthKeepsMutations(l, l');
    }
  }

  lemma BusKeepsCount(l: Ledger, position: int, intent: Intent, k: Key)
    ensures CountOf(BusUpdate(l, position, intent).outbox, k) == CountOf(l.outbox, k)
  {
    CountSame(l.outbox, BusUpdate(l, position, intent).outbox, k);
  }

  lemma BusKeepsOutbox(l: Ledger, position: int, intent: Intent)
    requires OutboxInv(l)
    ensures OutboxInv(BusUpdate(l, position, intent))
  {
    var l' := BusUpdate(l, position, intent);
    forall i | 0 <= i < |l'.outbox| ensures IntentOk(l', i) { assert IntentOk(l, i); }
    forall i, j | 0 <= i < |l'.outbox| && 0 <= j < |l'.outbox| ensures SameRoute(l', i, j) {
      assert SameRoute(l, i, j);
    }
    forall k | k in l.records ensures CountOf(l'.outbox, k) == 1 + Retries(l'.records[k].events) {
      BusKeepsCount(l, position, intent, k);
    }
  }

  lemma SameIndex(l: Ledger, l': Ledger)
    requires IndexInv(l) && l'.records == l.records && l'.index == l.index
    ensures IndexInv(l')
  {
    forall i | i in l'.index ensures Indexed(l', i) { assert Indexed(l, i); }
    forall k | k in l'.records ensures Findable(l', k) { assert Findable(l, k); }
  }

  lemma BusKeeps(l: Ledger, position: int, intent: Intent)
    requires Inv(l)
    ensures Inv(BusUpdate(l, position, intent))
  {
    hide IndexInv, MutationInv, OutboxInv, RecordOk;
    var l' := BusUpdate(l, position, intent);
    BusKeepsOutbox(l, position, intent);
    GrowthKeepsMutations(l, l');
    SameIndex(l, l');
  }

  lemma StepKeeps(l: Ledger, step: Step)
    requires Inv(l)
    ensures Inv(Apply(l, step))
  {
    hide Inv;
    match step
    case SubmitStep(command, client, destination, at) => SubmitKeeps(l, command, client, destination, at);
    case TransitionStep(key, next, actor, reason, provider, evidence, expectedAttempt, at) =>
      TransitionKeeps(l, key, next, actor, reason, provider, evidence, expectedAttempt, at);
    case ReconcileStep(key, matched, actor, reason, provider, readback, expectedVersion, at) =>
      ReconcileKeeps(l, key, matched, actor, reason, provider, readback, expectedVersion, at);
    case MutateStep(key, action, actor, idempotencyKey, version, reason, at) =>
      MutateKeeps(l, key, action, actor, idempotencyKey, version, reason, at);
    case BusStep(index, intent) => BusKeeps(l, index, intent);
  }

  /** Every run from a good ledger ends in a good ledger. */
  lemma {:induction false} RunKeeps(l: Ledger, steps: seq<Step>)
    requires Inv(l)
    ensures Inv(Run(l, steps))
  {
    hide Inv;
    if steps != [] {
      RunKeeps(l, steps[..|steps| - 1]);
      StepKeeps(Run(l, steps[..|steps| - 1]), steps[|steps| - 1]);
    }
  }
}
