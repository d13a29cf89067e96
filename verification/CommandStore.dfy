/**
 `MemoryCommandStore` with the dictionaries and lists it updates in place.  Four of its dictionaries
 are keyed by command; `Snapshot` gathers what they hold for one command into a single record, and
 every method is proved to act on that view as the ledger function of the same name.
 */
module CommandStore {
  import opened Identities
  import opened CommandLedger

  /** The per-command dictionaries as one map of records. */
  ghost function Gather(commands: map<Key, Entry>, events: map<Key, seq<Event>>, attempts: map<Key, seq<Attempt>>)
    : map<Key, Record>
    requires events.Keys == commands.Keys && attempts.Keys == commands.Keys
  {
    map k | k in commands :: Record(commands[k].digest, commands[k].operation, events[k], attempts[k])
  }

  lemma GatherAt(commands: map<Key, Entry>, events: map<Key, seq<Event>>, attempts: map<Key, seq<Attempt>>, key: Key)
    requires events.Keys == commands.Keys && attempts.Keys == commands.Keys
    ensures key in Gather(commands, events, attempts) <==> key in commands
    ensures key in commands ==>
              Gather(commands, events, attempts)[key]
              == Record(commands[key].digest, commands[key].operation, events[key], attempts[key])
  {
  }

  lemma GatherUpdate(commands: map<Key, Entry>, events: map<Key, seq<Event>>, attempts: map<Key, seq<Attempt>>,
                     key: Key, r: Record)
    requires events.Keys == commands.Keys && attempts.Keys == commands.Keys
    ensures Gather(commands[key := EntryOf(r)], events[key := r.events], attempts[key := r.attempts])
         == Gather(commands, events, attempts)[key := r]
  {
  }

  class MemoryCommandStore {
    var commands: map<Key, Entry>
    var idempotency: map<IdempotencyKey, Entry>
    var events: map<Key, seq<Event>>
    var attempts: map<Key, seq<Attempt>>
    var mutations: map<MutationKey, Mutation>
    var outbox: seq<Intent>

    ghost predicate Valid() reads this {
      events.Keys == commands.Keys && attempts.Keys == commands.Keys
    }

    ghost function Snapshot(): Ledger
      reads this
      requires Valid()
    {
      Ledger(Gather(commands, events, attempts), idempotency, mutations, outbox)
    }

    constructor ()
      ensures Valid() && Snapshot() == EMPTY
    {
      commands, idempotency, events, attempts, mutations, outbox := map[], map[], map[], map[], map[], [];
    }

    method Get(key: Key) returns (r: Result<Operation, Error>)
      requires Valid()
      ensures r == if key in Snapshot().records then Ok(Snapshot().records[key].operation) else Err(NotFound)
    {
      if key !in commands { return Err(NotFound); }
      return Ok(commands[key].operation);
    }

    /** Writes the entry, the audit log and the attempts of one command. */
    method Store(key: Key, r: Record)
      requires Valid()
      modifies this`commands, this`events, this`attempts
      ensures Valid()
      ensures Snapshot() == old(Snapshot()).(records := old(Snapshot()).records[key := r])
    {
      GatherUpdate(commands, events, attempts, key, r);
      commands := commands[key := EntryOf(r)];
      events := events[key := r.events];
      attempts := attempts[key := r.attempts];
    }

    /** What the dictionaries hold for a known command. */
    method Load(key: Key) returns (r: Option<Record>)
      requires Valid()
      ensures r == if key in Snapshot().records then Some(Snapshot().records[key]) else None
    {
      if key !in commands { return None; }
      return Some(Record(commands[key].digest, commands[key].operation, events[key], attempts[key]));
    }

    method Submit(command: Envelope, client: Name, destination: Destination, now: Time)
      returns (r: Result<Operation, Error>)
      requires Valid()
      modifies this
      ensures Valid()
      ensures Snapshot() == CommandLedger.Submit(old(Snapshot()), command, client, destination, now).0
      ensures r == CommandLedger.Submit(old(Snapshot()), command, client, destination, now).1
    {
      hide Gather, NewRecord, NewIntent, DigestMatches;
      if destination.Unsupported? { return Err(Conflict); }
      var key := KeyOf(command);
      var index := IdempotencyKey(command.tenant, command.idempotencyKey);
      var stored := Load(key);
      if stored.Some? && index in idempotency
         && stored.value.operation.commandId != idempotency[index].operation.commandId
      {
        return Err(Conflict);
      }
      if stored.Some? || index in idempotency {
        var existing := if stored.Some? then EntryOf(stored.value) else idempotency[index];
        if !DigestMatches(existing.digest, command, client) { return Err(Conflict); }
        return Ok(existing.operation.(duplicate := true));
      }
      var record := NewRecord(command, client, now);
      Store(key, record);
      idempotency := idempotency[index := EntryOf(record)];
      outbox := outbox + [NewIntent(|outbox| + 1, key, destination, command.commandType,
                                    command.idempotencyKey, command)];
      return Ok(record.operation);
    }

    /** The operation, event and attempt that an allowed transition writes. */
    method TransitionColumns(r: Record, key: Key, next: CommandState, actor: Name, reason: Name, provider: Option<Name>,
                             evidence: Option<Evidence>, now: Time)
      returns (after: Record)
      ensures after == TransitionRecord(r, key, next, actor, reason, provider, evidence, now)
    {
      var operation, events, attempts := r.operation, r.events, r.attempts;
      operation := operation.(state := next, lastError := None, updatedAt := now);
      if provider.Some? { operation := operation.(providerOperationId := provider); }
      if evidence.Some? { operation := operation.(readbackEvidence := evidence, readbackDigest := evidence); }
      if next.Failed? || next.ReconciliationRequired? { operation := operation.(lastError := Some(reason)); }
      events := events + [Event(|events| + 1, key.id, Some(r.operation.state), next, actor, Some(reason), None, now)];
      if next.Dispatching? {
        attempts := attempts + [Attempt(|attempts| + 1, key.id, |attempts| + 1, next, provider, None, now, None)];
      } else if |attempts| > 0 {
        var newest := attempts[|attempts| - 1].(state := next, safeError := None, finishedAt := None);
        if provider.Some? { newest := newest.(providerOperationId := provider); }
        if next.Failed? || next.ReconciliationRequired? { newest := newest.(safeError := Some(OperationFailed)); }
        if next.Completed? || next.Failed? || next.ReconciliationRequired? {
          newest := newest.(finishedAt := Some(now));
        }
        attempts := attempts[|attempts| - 1 := newest];
      }
      return Record(r.digest, operation, events, attempts);
    }

    method Transition(key: Key, next: CommandState, actor: Name, reason: Name, provider: Option<Name>,
                      evidence: Option<Evidence>, expectedAttempt: Option<int>, now: Time)
      returns (r: Result<Operation, Error>)
      requires Valid()
      modifies this
      ensures Valid()
      ensures Snapshot() == CommandLedger.Transition(old(Snapshot()), key, next, actor, reason, provider, evidence,
                                                     expectedAttempt, now).0
      ensures r == CommandLedger.Transition(old(Snapshot()), key, next, actor, reason, provider, evidence,
                                            expectedAttempt, now).1
    {
      hide Gather, TransitionRecord, TransitionRefused;
      if evidence.Some? && !next.Completed? && !next.ReconciliationRequired? { return Err(Conflict); }
      var stored := Load(key);
      if stored.None? { return Err(NotFound); }
      if TransitionRefused(stored.value, next, expectedAttempt) { return Err(Conflict); }
      var updated := TransitionColumns(stored.value, key, next, actor, reason, provider, evidence, now);
      Store(key, updated);
      idempotency := idempotency[IdempotencyKey(key.tenant, updated.operation.idempotencyKey) := EntryOf(updated)];
      return Ok(updated.operation);
    }

    /** The operation, event and attempt that a readback writes. */
    method ReconcileColumns(r: Record, key: Key, matched: bool, actor: Name, reason: Name, provider: Option<Name>,
                            evidence: Evidence, now: Time)
      returns (after: Record)
      ensures after == ReconcileRecord(r, key, matched, actor, reason, provider, evidence, now)
    {
      var operation, events, attempts := r.operation, r.events, r.attempts;
      var state := if matched then Completed else ReconciliationRequired;
      operation := operation.(state := state, readbackEvidence := Some(evidence), readbackDigest := Some(evidence));
      if provider.Some? { operation := operation.(providerOperationId := provider); }
      if matched {
        operation := operation.(lastError := None);
      } else {
        operation := operation.(lastError := Some(reason), reconciliationReason := Some(reason));
      }
      operation := operation.(resourceVersion := operation.resourceVersion + 1, updatedAt := now);
      events := events + [Event(|events| + 1, key.id, Some(ReconciliationRequired), state, actor, Some(reason), None,
                                now)];
      if |attempts| > 0 {
        var newest := attempts[|attempts| - 1].(state := state, finishedAt := Some(now));
        if provider.Some? { newest := newest.(providerOperationId := provider); }
        newest := newest.(safeError := if matched then None else Some(ProviderReadbackMismatch));
        attempts := attempts[|attempts| - 1 := newest];
      }
      return Record(r.digest, operation, events, attempts);
    }

    method ReconcileReadback(key: Key, matched: bool, actor: Name, reason: Name, provider: Option<Name>,
                             evidence: Evidence, expectedVersion: Option<int>, now: Time)
      returns (r: Result<Operation, Error>)
      requires Valid()
      modifies this
      ensures Valid()
      ensures Snapshot() == CommandLedger.ReconcileReadback(old(Snapshot()), key, matched, actor, reason, provider,
                                                            evidence, expectedVersion, now).0
      ensures r == CommandLedger.ReconcileReadback(old(Snapshot()), key, matched, actor, reason, provider, evidence,
                                                   expectedVersion, now).1
    {
      hide Gather, ReconcileRecord;
      var stored := Load(key);
      if stored.None? { return Err(NotFound); }
      var operation := stored.value.operation;
      if !operation.state.ReconciliationRequired? { return Err(Conflict); }
      if expectedVersion.Some? && operation.resourceVersion != expectedVersion.value { return Err(Conflict); }
      var updated := ReconcileColumns(stored.value, key, matched, actor, reason, provider, evidence, now);
      Store(key, updated);
      idempotency := idempotency[IdempotencyKey(key.tenant, updated.operation.idempotencyKey) := EntryOf(updated)];
      return Ok(updated.operation);
    }

    method HasActiveLease(key: Key) returns (active: bool)
      ensures active == ActiveLease(outbox, key)
    {
      active := false;
      for i := 0 to |outbox|
        invariant !active
        invariant forall j :: 0 <= j < i ==> !(Mine(outbox[j], key) && Leased(outbox[j]))
      {
        if Mine(outbox[i], key) && Leased(outbox[i]) { return true; }
      }
    }

    /** Stamps every unleased, unfinished intent of the command as cancelled. */
    method CancelOwned(key: Key)
      modifies this`outbox
      ensures outbox == CancelIntents(old(outbox), key)
    {
      for i := 0 to |outbox|
        invariant |outbox| == |old(outbox)|
        invariant forall j :: 0 <= j < i ==> outbox[j] == CancelIntent(old(outbox)[j], key)
        invariant forall j :: i <= j < |outbox| ==> outbox[j] == old(outbox)[j]
      {
        var item := outbox[i];
        if Mine(item, key) && item.completedAt.None? && item.leaseOwner.None? && item.cancelledAt.None? {
          outbox := outbox[i := item.(cancelledAt := Some(0))];
        }
      }
    }

    /** Quarantines every live intent of the command and takes away its lease. */
    method QuarantineOwned(key: Key)
      modifies this`outbox
      ensures outbox == QuarantineIntents(old(outbox), key)
    {
      for i := 0 to |outbox|
        invariant |outbox| == |old(outbox)|
        invariant forall j :: 0 <= j < i ==> outbox[j] == QuarantineIntent(old(outbox)[j], key)
        invariant forall j :: i <= j < |outbox| ==> outbox[j] == old(outbox)[j]
      {
        var item := outbox[i];
        if Mine(item, key) && Live(item) {
          if item.reconciliationRequiredAt.None? { item := item.(reconciliationRequiredAt := Some(0)); }
          outbox := outbox[i := item.(leaseOwner := None, leaseUntil := None)];
        }
      }
    }

    /** Appends the intent of an accepted retry, copied from the newest intent of the command. */
    method AppendRetry(key: Key, record: Record, actor: Name, idempotencyKey: Name)
      modifies this`outbox
      ensures outbox == old(outbox) + [RetryIntent(old(outbox), key, record, actor, idempotencyKey)]
    {
      var source: Option<Intent> := None;
      for i := 0 to |outbox|
        invariant source == LastIntent(outbox[..i], key)
      {
        assert outbox[..i + 1][..i] == outbox[..i];
        if Mine(outbox[i], key) { source := Some(outbox[i]); }
      }
      assert outbox[..|outbox|] == outbox;
      outbox := outbox + [NewIntent(|outbox| + 1, key,
                                    if source.Some? then source.value.destination else TemporalCommand,
                                    record.operation.commandType, RetryKey(key.tenant, key.id, actor, idempotencyKey),
                                    if source.Some? then source.value.payload else record.digest.command)];
    }

    method UpdateOutbox(key: Key, record: Record, action: MutationAction, after: CommandState, actor: Name,
                        idempotencyKey: Name)
      modifies this`outbox
      ensures outbox == MutatedOutbox(old(outbox), key, record, action, after, actor, idempotencyKey)
    {
      match action
      case Cancel => if after.Cancelled? { CancelOwned(key); }
      case Reconcile => QuarantineOwned(key);
      case Retry => AppendRetry(key, record, actor, idempotencyKey);
    }

    /** The operation that an operator mutation writes, or None when the state forbids it. */
    method MutationColumns(before: Operation, action: MutationAction, activeLease: bool, reason: Name, now: Time)
      returns (changed: Option<Operation>)
      ensures changed == MutatedOperation(before, action, activeLease, reason, now)
    {
      var operation, state := before, before.state;
      match action {
        case Cancel =>
          if state.Completed? || state.Failed? || state.ReconciliationRequired? || state.DeadLettered?
             || state.Cancelled?
          {
            return None;
          }
          if (state.Persisted? || state.Queued?) && !activeLease {
            operation := operation.(state := Cancelled, cancelledAt := Some(now));
          } else {
            operation := operation.(state := ReconciliationRequired, cancelledAt := None);
          }
          operation := operation.(cancellationReason := Some(reason));
        case Reconcile =>
          if !state.Dispatching? && !state.Accepted? && !state.ReadbackPending? && !state.ReconciliationRequired? {
            return None;
          }
          operation := operation.(state := ReconciliationRequired, reconciliationRequestedAt := Some(now));
          operation := operation.(reconciliationReason := Some(reason));
        case Retry =>
          if !state.Failed? { return None; }
          operation := operation.(state := Queued, lastError := None);
      }
      operation := operation.(resourceVersion := operation.resourceVersion + 1, updatedAt := now);
      return Some(operation);
    }

    method MutateOperation(key: Key, action: MutationAction, actor: Name, idempotencyKey: Name,
                           expectedVersion: int, reason: Name, now: Time)
      returns (r: Result<Operation, Error>)
      requires Valid()
      modifies this
      ensures Valid()
      ensures Snapshot() == CommandLedger.Mutate(old(Snapshot()), key, action, actor, idempotencyKey,
                                                 expectedVersion, reason, now).0
      ensures r == CommandLedger.Mutate(old(Snapshot()), key, action, actor, idempotencyKey, expectedVersion, reason,
                                        now).1
    {
      hide Gather, Logged, MutatedOperation, MutatedOutbox, ActiveLease;
      var stored := Load(key);
      if stored.None? { return Err(NotFound); }
      var request := MutationRequest(expectedVersion, reason);
      var mutation := MutationKey(key.tenant, key.id, action, actor, idempotencyKey);
      if mutation in mutations {
        if mutations[mutation].request != request { return Err(Conflict); }
        return Ok(mutations[mutation].operation.(duplicate := true));
      }
      var record := stored.value;
      if record.operation.resourceVersion != expectedVersion { return Err(Conflict); }
      var active := HasActiveLease(key);
      var changed := MutationColumns(record.operation, action, active, reason, now);
      if changed.None? { return Err(Conflict); }
      UpdateOutbox(key, record, action, changed.value.state, actor, idempotencyKey);
      var events := Logged(record.events, key, record.operation.state, changed.value.state, actor, reason,
                           Some(action), now);
      Store(key, record.(operation := changed.value, events := events));
      mutations := mutations[mutation := Mutation(request, changed.value)];
      return Ok(changed.value);
    }
  }
}
