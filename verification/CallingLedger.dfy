/**
 The calling facade (`CallingLedger` in app/calling_ledger.py, memory branch) over the command ledger:
 single-use grants and one live call per agent.
 */
module CallingLedger {
  import opened Identities
  import L = CommandLedger

  const CLIENT_ID := Text("odoo-integration")
  const ORIGINATE := Text("telephony-internal.calls.originate")
  const HANGUP := Text("telephony-internal.calls.hangup")
  const CAPABILITY := Text("INTERNAL_TELEPHONY_CALLS")
  const TARGET := Text("vicidial-restricted")
  const INTERNAL_TEST := Text("internal_test")
  const TERMINAL_CALL_STATES := {Text("completed"), Text("failed"), Text("busy"), Text("no_answer"), Text("canceled"),
                                 Text("rejected"), Text("missed"), Text("cancelled"), Text("transferred")}

  datatype Refusal = NotFound | Conflict | Unauthorized | Invalid

  /** `documents` are the calling commands accepted so far. */
  datatype Calls = Calls(ledger: L.Ledger, documents: map<L.Key, L.Envelope>)

  const START := Calls(L.EMPTY, map[])

  // ---------------------------------------------------------------- rules

  /** Cancelled before dispatch, or completed with authoritative evidence that the call is over. */
  predicate Terminal(operation: L.Operation) {
    || operation.state.Cancelled?
    || (&& operation.state.Completed? && operation.readbackDigest.Some? && operation.readbackEvidence.Some?
        && var evidence := operation.readbackEvidence.value;
           && evidence.callState.Some? && evidence.callState.value in TERMINAL_CALL_STATES
           && evidence.operationId == Some(operation.commandId)
           && evidence.tenant == Some(operation.tenant)
           && evidence.internalOnly == Some(true)
           && evidence.externalDialing == Some(false))
  }

  function OperationIdentity(principal: L.Principal, key: Name): Name {
    CallId(CLIENT_ID, principal.tenant, principal.subject, key)
  }

  predicate Authorizes(grant: L.CallGrant, principal: L.Principal, body: L.CallRequest, now: Time) {
    && grant.notBefore <= now < grant.expiresAt
    && grant.principal == principal
    && body.destinationClass == INTERNAL_TEST
    && body.destination == grant.destination && body.callerId == grant.callerId && body.leadId == grant.leadId
    && body.employee == principal.employee && body.campaign == principal.campaign
    && body.businessUnit == principal.businessUnit
  }

  predicate Owns(document: L.Envelope, principal: L.Principal) {
    && document.target == TARGET && document.commandType == ORIGINATE
    && document.tenant == principal.tenant && document.requestedBy == principal.subject
    && document.payload.OriginateCall? && document.payload.actor == principal
  }

  /** The hangup document repeats what the originate document says and names the call it led to. */
  predicate HangsUp(document: L.Envelope, original: L.Envelope, originalOperation: L.Operation) {
    && document.payload.HangupCall? && original.payload.OriginateCall?
    && document.tenant == original.tenant && document.requestedBy == original.requestedBy
    && document.correlationId == original.correlationId
    && document.payload.actor == original.payload.actor
    && document.payload.originate == original.payload.originate
    && document.payload.authorizationReference == original.payload.authorizationReference
    && document.payload.policy == original.payload.policy
    && originalOperation.providerOperationId == Some(document.payload.callId)
  }

  datatype Found = Found(document: L.Envelope, operation: L.Operation)

  function Get(y: Calls, principal: L.Principal, id: Name): Result<Found, Refusal> {
    var key := L.Key(principal.tenant, id);
    if key !in y.documents || key !in y.ledger.records then Err(NotFound)
    else
      var document, found := y.documents[key], Found(y.documents[key], y.ledger.records[key].operation);
      if document.commandType == ORIGINATE then
        if Owns(document, principal) then Ok(found) else Err(NotFound)
      else if document.target != TARGET || document.commandType != HANGUP || !document.payload.HangupCall?
      then Err(NotFound)
      else
        var origin := L.Key(principal.tenant, document.payload.originOperation);
        if origin !in y.documents || !Owns(y.documents[origin], principal) then Err(NotFound)
        else if origin !in y.ledger.records then Err(NotFound)
        else if !HangsUp(document, y.documents[origin], y.ledger.records[origin].operation) then Err(NotFound)
        else Ok(found)
  }

  function RequestOf(document: L.Envelope): Option<L.CallRequest> {
    match document.payload
    case OriginateCall(_, originate, _, _) => Some(originate)
    case HangupCall(_, originate, _, _, _, _, _) => Some(originate)
    case _ => None
  }

  /** The recorded operation of a repeated request, if there is one. */
  function Replay(y: Calls, principal: L.Principal, body: L.CallRequest, key: Name, correlationId: Name)
    : Result<Option<L.Operation>, Refusal>
  {
    var known := Get(y, principal, OperationIdentity(principal, key));
    if known.Err? then Ok(None)
    else
      var document := known.value.document;
      if RequestOf(document) != Some(body) || document.idempotencyKey != key || document.correlationId != correlationId
      then Err(Conflict)
      else Ok(Some(known.value.operation.(duplicate := true)))
  }

  // ---------------------------------------------------------------- originate

  datatype Originating = Originating(
    principal: L.Principal, body: L.CallRequest, key: Name, correlationId: Name, grant: L.CallGrant, valid: bool)

  function OriginateCommand(o: Originating): L.Envelope {
    L.Envelope(OperationIdentity(o.principal, o.key), ORIGINATE, TARGET, o.principal.tenant, o.principal.subject,
               o.correlationId, o.key, CAPABILITY,
               L.OriginateCall(o.principal, o.body, o.grant.reference, o.grant))
  }

  predicate SharesAgent(document: L.Envelope, principal: L.Principal) {
    document.payload.OriginateCall?
    && (|| document.payload.actor.employee == principal.employee
        || document.payload.actor.extension == principal.extension)
  }

  /** A recorded originate stands in the way: it spent the grant, or the agent's call may still be live. */
  predicate Blocks(y: Calls, k: L.Key, o: Originating) requires k in y.documents {
    var prior := y.documents[k];
    && k.tenant == o.principal.tenant && prior.commandType == ORIGINATE && prior.payload.OriginateCall?
    && (|| prior.payload.authorizationReference == o.grant.reference
        || (SharesAgent(prior, o.principal)
            && !(k in y.ledger.records && Terminal(y.ledger.records[k].operation))))
  }

  function Documented(y: Calls, ledger: L.Ledger, command: L.Envelope): Calls {
    Calls(ledger, y.documents[L.KeyOf(command) := command])
  }

  function Originate(y: Calls, o: Originating, now: Time): (Calls, Result<L.Operation, Refusal>) {
    if !o.valid then (y, Err(Invalid))
    else
      var replay := Replay(y, o.principal, o.body, o.key, o.correlationId);
      if replay.Err? then (y, Err(replay.error))
      else if replay.value.Some? then (y, Ok(replay.value.value))
      else if !Authorizes(o.grant, o.principal, o.body, now) then (y, Err(Unauthorized))
      else if exists k :: k in y.documents && Blocks(y, k, o) then (y, Err(Conflict))
      else
        var submitted := L.Submit(y.ledger, OriginateCommand(o), CLIENT_ID, L.TemporalCommand, now);
        if submitted.1.Err? then (y.(ledger := submitted.0), Err(Conflict))
        else (Documented(y, submitted.0, OriginateCommand(o)), Ok(submitted.1.value))
  }

  // ---------------------------------------------------------------- hangup

  datatype HangingUp = HangingUp(
    principal: L.Principal, operation: Name, key: Name, expectedVersion: int, reason: Name, valid: bool)

  predicate CallKnown(operation: L.Operation) {
    operation.providerOperationId.Some? && operation.providerOperationId.value != Text("")
  }

  function HangupCommand(h: HangingUp, original: L.Envelope, current: L.Operation): L.Envelope
    requires original.payload.OriginateCall? && current.providerOperationId.Some?
  {
    L.Envelope(OperationIdentity(h.principal, h.key), HANGUP, TARGET, h.principal.tenant, h.principal.subject,
               original.correlationId, h.key, CAPABILITY,
               L.HangupCall(original.payload.actor, original.payload.originate, h.operation,
                            current.providerOperationId.value, original.payload.authorizationReference,
                            original.payload.policy, h.reason))
  }

  function HangUp(y: Calls, h: HangingUp, now: Time): (Calls, Result<L.Operation, Refusal>) {
    var known := Get(y, h.principal, h.operation);
    if known.Err? then (y, Err(known.error))
    else if known.value.document.commandType != ORIGINATE then (y, Err(Conflict))
    else if !CallKnown(known.value.operation) then (y, Err(Conflict))
    else if !h.valid then (y, Err(Invalid))
    else
      var current := known.value.operation;
      var command := HangupCommand(h, known.value.document, current);
      if L.KeyOf(command) !in y.ledger.records
         && (Terminal(current) || current.resourceVersion != h.expectedVersion) then (y, Err(Conflict))
      else
        var submitted := L.Submit(y.ledger, command, CLIENT_ID, L.TemporalCommand, now);
        if submitted.1.Err? then (y.(ledger := submitted.0), Err(Conflict))
        else (Documented(y, submitted.0, command), Ok(submitted.1.value))
  }

  // ---------------------------------------------------------------- runs

  datatype Step =
    | OriginateStep(o: Originating, at: Time)
    | HangupStep(h: HangingUp, at: Time)
    | LedgerStep(step: L.Step)

  function Apply(y: Calls, step: Step): Calls {
    match step
    case OriginateStep(o, at) => Originate(y, o, at).0
    case HangupStep(h, at) => HangUp(y, h, at).0
    case LedgerStep(step) => y.(ledger := L.Apply(y.ledger, step))
  }

  function Run(y: Calls, steps: seq<Step>): Calls {
    if steps == [] then y else Apply(Run(y, steps[..|steps| - 1]), steps[|steps| - 1])
  }
}
