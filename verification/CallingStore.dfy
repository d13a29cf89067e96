/**
 `CallingLedger` with the document cache it extends in place, on top of the memory command store.  Each
 method acts on its `View` as the operation of the value model of the same name.
 */
module CallingStore {
  import opened Identities
  import L = CommandLedger
  import CommandStore
  import C = CallingLedger
  import opened CallingLedger

  class MemoryCalling {
    const commands: CommandStore.MemoryCommandStore
    var documents: map<L.Key, L.Envelope>
    var order: seq<L.Key>

    /** `order` lists the documents in the order they were added. */
    ghost predicate Valid() reads this, commands {
      && commands.Valid()
      && (forall k :: k in documents <==> k in order)
      && (forall k :: k in documents ==> k in commands.Snapshot().records)
      && Indexed(commands.Snapshot())
    }

    ghost function View(): Calls
      reads this, commands
      requires Valid()
    {
      Calls(commands.Snapshot(), documents)
    }

    constructor (commands: CommandStore.MemoryCommandStore)
      requires commands.Valid() && Indexed(commands.Snapshot())
      ensures this.commands == commands
      ensures Valid() && View() == Calls(commands.Snapshot(), map[])
    {
      this.commands := commands;
      documents, order := map[], [];
    }

    method Get(principal: L.Principal, id: Name) returns (r: Result<Found, Refusal>)
      requires Valid()
      ensures r == C.Get(View(), principal, id)
    {
      hide HangsUp, Owns, Indexed;
      var key := L.Key(principal.tenant, id);
      if key !in documents { return Err(NotFound); }
      var document := documents[key];
      var operation := commands.Get(key);
      if operation.Err? { return Err(NotFound); }
      if document.commandType == ORIGINATE {
        return if Owns(document, principal) then Ok(Found(document, operation.value)) else Err(NotFound);
      }
      if document.target != TARGET || document.commandType != HANGUP || !document.payload.HangupCall? {
        return Err(NotFound);
      }
      var origin := L.Key(principal.tenant, document.payload.originOperation);
      if origin !in documents || !Owns(documents[origin], principal) { return Err(NotFound); }
      var originalOperation := commands.Get(origin);
      if originalOperation.Err? { return Err(NotFound); }
      if !HangsUp(document, documents[origin], originalOperation.value) { return Err(NotFound); }
      return Ok(Found(document, operation.value));
    }

    method ReplayOf(principal: L.Principal, body: L.CallRequest, key: Name, correlationId: Name)
      returns (r: Result<Option<L.Operation>, Refusal>)
      requires Valid()
      ensures r == Replay(View(), principal, body, key, correlationId)
    {
      hide C.Get;
      var known := Get(principal, OperationIdentity(principal, key));
      if known.Err? { return Ok(None); }
      var document := known.value.document;
      if RequestOf(document) != Some(body) || document.idempotencyKey != key
         || document.correlationId != correlationId
      {
        return Err(Conflict);
      }
      return Ok(Some(known.value.operation.(duplicate := true)));
    }

    /** Goes through the recorded originates of the tenant and stops at the first that stands in the way. */
    method IsBlocked(o: Originating) returns (blocked: bool)
      requires Valid()
      ensures blocked <==> exists k :: k in documents && Blocks(View(), k, o)
    {
      hide Terminal, Indexed;
      for i := 0 to |order|
        invariant forall j :: 0 <= j < i ==> order[j] in documents && !Blocks(View(), order[j], o)
      {
        var k := order[i];
        var prior := documents[k];
        if k.tenant != o.principal.tenant { continue; }
        if prior.commandType != ORIGINATE || !prior.payload.OriginateCall? { continue; }
        if prior.payload.authorizationReference == o.grant.reference {
          assert Blocks(View(), k, o);
          return true;
        }
        if SharesAgent(prior, o.principal) {
          var operation := commands.Get(k);
          if !Terminal(operation.value) {
            assert Blocks(View(), k, o);
            return true;
          }
        }
      }
      return false;
    }

    method Document(key: L.Key, command: L.Envelope)
      requires Valid() && key in commands.Snapshot().records
      modifies this
      ensures Valid() && View() == Calls(old(commands.Snapshot()), old(documents)[key := command])
    {
      hide Indexed;
      if key !in documents { order := order + [key]; }
      documents := documents[key := command];
    }

    /** The calling command is on record once the store has accepted it. */
    method SubmitCommand(command: L.Envelope, now: Time) returns (r: Result<L.Operation, Refusal>)
      requires Valid()
      modifies this, commands
      ensures Valid()
      ensures r == var s := L.Submit(old(commands.Snapshot()), command, CLIENT_ID, L.TemporalCommand, now);
                   if s.1.Err? then Err(Conflict) else Ok(s.1.value)
      ensures View() == var s := L.Submit(old(commands.Snapshot()), command, CLIENT_ID, L.TemporalCommand, now);
                        if s.1.Err? then old(View()).(ledger := s.0) else Documented(old(View()), s.0, command)
    {
      hide L.Submit, Indexed;
      SubmitKeepsRecords(commands.Snapshot(), command, now);
      var operation := commands.Submit(command, CLIENT_ID, L.TemporalCommand, now);
      if operation.Err? { return Err(Conflict); }
      Document(L.KeyOf(command), command);
      return Ok(operation.value);
    }

    method Originate(o: Originating, now: Time) returns (r: Result<L.Operation, Refusal>)
      requires Valid()
      modifies this, commands
      ensures Valid()
      ensures View() == C.Originate(old(View()), o, now).0
      ensures r == C.Originate(old(View()), o, now).1
    {
      hide L.Submit, Replay, Authorizes, Blocks, OriginateCommand, Indexed, Documented;
      if !o.valid { return Err(Invalid); }
      var duplicate := ReplayOf(o.principal, o.body, o.key, o.correlationId);
      if duplicate.Err? { return Err(duplicate.error); }
      if duplicate.value.Some? { return Ok(duplicate.value.value); }
      if !Authorizes(o.grant, o.principal, o.body, now) { return Err(Unauthorized); }
      var blocked := IsBlocked(o);
      if blocked { return Err(Conflict); }
      r := SubmitCommand(OriginateCommand(o), now);
    }

    method HangUp(h: HangingUp, now: Time) returns (r: Result<L.Operation, Refusal>)
      requires Valid()
      modifies this, commands
      ensures Valid()
      ensures View() == C.HangUp(old(View()), h, now).0
      ensures r == C.HangUp(old(View()), h, now).1
    {
      hide L.Submit, Terminal, Indexed, Documented, HangsUp, Owns, C.Get, HangupCommand;
      var known := Get(h.principal, h.operation);
      if known.Err? { return Err(known.error); }
      var current := known.value.operation;
      if known.value.document.commandType != ORIGINATE || !CallKnown(current) { return Err(Conflict); }
      if !h.valid { return Err(Invalid); }
      FoundOriginate(View(), h.principal, h.operation);
      var command := HangupCommand(h, known.value.document, current);
      var existing := commands.Get(L.KeyOf(command));
      if existing.Err? {
        if Terminal(current) { return Err(Conflict); }
        if current.resourceVersion != h.expectedVersion { return Err(Conflict); }
      }
      r := SubmitCommand(command, now);
    }
  }

  /** Every entry of the idempotency index is of a recorded command with that content. */
  ghost predicate Indexed(l: L.Ledger) {
    forall i :: i in l.index ==>
      && l.index[i].digest.Authenticated?
      && L.KeyOf(l.index[i].digest.command) == L.Key(i.tenant, l.index[i].operation.commandId)
      && L.KeyOf(l.index[i].digest.command) in l.records
  }

  lemma SubmitKeepsRecords(l: L.Ledger, command: L.Envelope, now: Time)
    requires Indexed(l)
    ensures var s := L.Submit(l, command, CLIENT_ID, L.TemporalCommand, now);
            && (forall k :: k in l.records ==> k in s.0.records)
            && (s.1.Ok? ==> L.KeyOf(command) in s.0.records)
            && Indexed(s.0)
  {
  }

  lemma FoundOriginate(y: Calls, principal: L.Principal, id: Name)
    requires C.Get(y, principal, id).Ok? && C.Get(y, principal, id).value.document.commandType == ORIGINATE
    ensures C.Get(y, principal, id).value.document.payload.OriginateCall?
  {
  }
}
