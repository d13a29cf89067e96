/**
 What the calling facade keeps on file, when it accepts an originate or a hangup, what a caller can look
 up, and how repetitions are answered.  The rules are written out here and do not refer to the functions
 that carry them out.
 */
module CallingOutcomes {
  import opened Identities
  import L = CommandLedger
  import LI = LedgerInvariants
  import LT = LedgerTheorems
  import opened CallingLedger
  import opened CallingTheorems

  // ---------------------------------------------------------------- what is on file

  /** The request is within the grant and speaks for the agent that the grant was given to. */
  predicate Covers(grant: L.CallGrant, actor: L.Principal, request: L.CallRequest) {
    && grant.principal == actor
    && request.destination == grant.destination && request.callerId == grant.callerId
    && request.leadId == grant.leadId && request.destinationClass == Text("internal_test")
    && request.employee == actor.employee && request.campaign == actor.campaign
    && request.businessUnit == actor.businessUnit
  }

  /** The document is addressed to the telephony target on behalf of the agent it names. */
  predicate Addressed(k: L.Key, c: L.Envelope, commandType: Name, actor: L.Principal) {
    && c.commandType == commandType && c.target == Text("vicidial-restricted")
    && c.capability == Text("INTERNAL_TELEPHONY_CALLS")
    && c.tenant == k.tenant == actor.tenant && c.requestedBy == actor.subject
    && c.commandId == k.id == CallId(Text("odoo-integration"), actor.tenant, actor.subject, c.idempotencyKey)
  }

  /** An originate is covered by the grant it carries; a hangup repeats the originate it belongs to. */
  predicate Proper(y: Calls, k: L.Key) requires k in y.documents {
    var c := y.documents[k];
    match c.payload
    case OriginateCall(actor, originate, reference, grant) =>
      && Addressed(k, c, Text("telephony-internal.calls.originate"), actor)
      && Covers(grant, actor, originate) && reference == grant.reference
    case HangupCall(actor, originate, origin, callId, reference, grant, reason) =>
      && Addressed(k, c, Text("telephony-internal.calls.hangup"), actor)
      && callId != Text("")
      && var o := L.Key(k.tenant, origin);
         && o in y.documents && y.documents[o].correlationId == c.correlationId
         && y.documents[o].payload == L.OriginateCall(actor, originate, reference, grant)
    case _ => false
  }

  ghost predicate AllProper(y: Calls) { forall k :: k in y.documents ==> Proper(y, k) }

  /** The document is in order beside the documents of `y`. */
  predicate Fits(y: Calls, c: L.Envelope) {
    match c.payload
    case OriginateCall(actor, originate, reference, grant) =>
      && Addressed(L.KeyOf(c), c, Text("telephony-internal.calls.originate"), actor)
      && Covers(grant, actor, originate) && reference == grant.reference
    case HangupCall(actor, originate, origin, callId, reference, grant, reason) =>
      && Addressed(L.KeyOf(c), c, Text("telephony-internal.calls.hangup"), actor)
      && callId != Text("")
      && var o := L.Key(c.tenant, origin);
         && o in y.documents && y.documents[o].correlationId == c.correlationId
         && y.documents[o].payload == L.OriginateCall(actor, originate, reference, grant)
    case _ => false
  }

  lemma DocumentedIsProper(y: Calls, l: L.Ledger, c: L.Envelope)
    requires AllProper(y) && Fits(y, c) && (L.KeyOf(c) in y.documents ==> y.documents[L.KeyOf(c)] == c)
    ensures AllProper(Documented(y, l, c))
  {
    hide Addressed, Covers;
    var y' := Documented(y, l, c);
    forall k | k in y'.documents ensures Proper(y', k) {
      if k != L.KeyOf(c) { assert Proper(y, k); }
    }
  }

  lemma OriginateFits(y: Calls, o: Originating, now: Time)
    requires Authorizes(o.grant, o.principal, o.body, now)
    ensures Fits(y, OriginateCommand(o))
  {
  }

  lemma HangupFits(y: Calls, h: HangingUp)
    requires AllProper(y) && Get(y, h.principal, h.operation).Ok?
    requires var known := Get(y, h.principal, h.operation).value;
             known.document.commandType == ORIGINATE && CallKnown(known.operation)
    ensures var known := Get(y, h.principal, h.operation).value;
            Fits(y, HangupCommand(h, known.document, known.operation))
  {
    hide Covers, HangsUp, Get;
    FoundOwn(y, h.principal, h.operation);
    assert Proper(y, L.Key(h.principal.tenant, h.operation));
  }

  lemma FoundOwn(y: Calls, principal: L.Principal, id: Name)
    requires Get(y, principal, id).Ok? && Get(y, principal, id).value.document.commandType == ORIGINATE
    ensures var k := L.Key(principal.tenant, id);
            && k in y.documents && k in y.ledger.records && Owns(y.documents[k], principal)
            && Get(y, principal, id).value == Found(y.documents[k], y.ledger.records[k].operation)
  {
  }

  lemma StepIsProper(y: Calls, step: Step)
    requires Inv(y) && AllProper(y)
    ensures AllProper(Apply(y, step))
  {
    hide Inv, L.Submit, L.Apply, LI.Inv, Replay, Blocks, Authorizes, HangsUp, Terminal, MovedOn, Fits, Proper;
    match step
    case OriginateStep(o, at) =>
      SubmissionMovesOn(y, OriginateCommand(o), at);
      if Authorizes(o.grant, o.principal, o.body, at)
         && L.Submit(y.ledger, OriginateCommand(o), CLIENT_ID, L.TemporalCommand, at).1.Ok? {
        OriginateFits(y, o, at);
        DocumentedIsProper(y, L.Submit(y.ledger, OriginateCommand(o), CLIENT_ID, L.TemporalCommand, at).0,
                           OriginateCommand(o));
      }
      LedgerIgnored(y, L.Submit(y.ledger, OriginateCommand(o), CLIENT_ID, L.TemporalCommand, at).0);
    case HangupStep(h, at) =>
      var known := Get(y, h.principal, h.operation);
      if known.Ok? && known.value.document.commandType == ORIGINATE && CallKnown(known.value.operation) {
        OwnedOriginate(y, h);
        var command := HangupCommand(h, known.value.document, known.value.operation);
        SubmissionMovesOn(y, command, at);
        HangupFits(y, h);
        var submitted := L.Submit(y.ledger, command, CLIENT_ID, L.TemporalCommand, at);
        LedgerIgnored(y, submitted.0);
        if submitted.1.Ok? { DocumentedIsProper(y, submitted.0, command); }
      }
    case LedgerStep(step) => LedgerIgnored(y, L.Apply(y.ledger, step));
  }

  lemma OwnedOriginate(y: Calls, h: HangingUp)
    requires Get(y, h.principal, h.operation).Ok?
    requires Get(y, h.principal, h.operation).value.document.commandType == ORIGINATE
    ensures Get(y, h.principal, h.operation).value.document.payload.OriginateCall?
  {
  }

  lemma LedgerIgnored(y: Calls, l: L.Ledger)
    requires AllProper(y)
    ensures AllProper(y.(ledger := l))
  {
    hide Addressed, Covers;
    forall k | k in y.documents ensures Proper(y.(ledger := l), k) { assert Proper(y, k); }
  }

  /**
   In every reachable state every originate on file speaks for the agent and within the destination,
   caller id, lead and class of the grant it carries, and every hangup repeats actor, request, grant and
   correlation of an originate on file.
   */
  lemma {:induction false} DocumentsAreProper(steps: seq<Step>)
    ensures AllProper(Run(START, steps))
  {
    hide Apply, Proper, Inv;
    if steps != [] {
      DocumentsAreProper(steps[..|steps| - 1]);
      Reachable(steps[..|steps| - 1]);
      StepIsProper(Run(START, steps[..|steps| - 1]), steps[|steps| - 1]);
    }
  }

  // ---------------------------------------------------------------- lookups

  /** The principal is the agent for whom the originate was made. */
  predicate IsOwner(y: Calls, principal: L.Principal, k: L.Key) {
    k in y.documents && y.documents[k].payload.OriginateCall? && y.documents[k].payload.actor == principal
  }

  lemma GetProper(y: Calls, principal: L.Principal, id: Name)
    requires AllProper(y) && forall k :: k in y.documents ==> k in y.ledger.records
    ensures var k := L.Key(principal.tenant, id);
            Get(y, principal, id).Ok? <==>
              && k in y.documents
              && (|| IsOwner(y, principal, k)
                  || (&& y.documents[k].payload.HangupCall?
                      && var origin := L.Key(principal.tenant, y.documents[k].payload.originOperation);
                         && IsOwner(y, principal, origin)
                         && y.ledger.records[origin].operation.providerOperationId
                            == Some(y.documents[k].payload.callId)))
  {
    hide Get, Proper;
    var k := L.Key(principal.tenant, id);
    if k !in y.documents {
      GetUnknown(y, principal, id);
    } else {
      assert Proper(y, k);
      OneOfTwo(y, k);
      if y.documents[k].payload.OriginateCall? {
        GetOriginate(y, principal, id);
      } else {
        var origin := L.Key(principal.tenant, y.documents[k].payload.originOperation);
        assert origin in y.documents ==> Proper(y, origin);
        GetHangup(y, principal, id);
      }
    }
  }

  lemma OneOfTwo(y: Calls, k: L.Key)
    requires k in y.documents && Proper(y, k)
    ensures y.documents[k].payload.OriginateCall? || y.documents[k].payload.HangupCall?
  {
  }

  lemma GetUnknown(y: Calls, principal: L.Principal, id: Name)
    requires L.Key(principal.tenant, id) !in y.documents
    ensures Get(y, principal, id).Err?
  {
  }

  lemma GetOriginate(y: Calls, principal: L.Principal, id: Name)
    requires var k := L.Key(principal.tenant, id);
             k in y.documents && k in y.ledger.records && Proper(y, k) && y.documents[k].payload.OriginateCall?
    ensures Get(y, principal, id).Ok? <==> IsOwner(y, principal, L.Key(principal.tenant, id))
  {
    hide Covers, HangsUp;
  }

  lemma GetHangup(y: Calls, principal: L.Principal, id: Name)
    requires var k := L.Key(principal.tenant, id);
             k in y.documents && k in y.ledger.records && Proper(y, k) && y.documents[k].payload.HangupCall?
    requires var origin := L.Key(principal.tenant,
                                 y.documents[L.Key(principal.tenant, id)].payload.originOperation);
             origin in y.documents ==> origin in y.ledger.records && Proper(y, origin)
    ensures var callId := y.documents[L.Key(principal.tenant, id)].payload.callId;
            var origin := L.Key(principal.tenant,
                                y.documents[L.Key(principal.tenant, id)].payload.originOperation);
            Get(y, principal, id).Ok? <==>
              && IsOwner(y, principal, origin)
              && y.ledger.records[origin].operation.providerOperationId == Some(callId)
  {
    hide Covers;
  }

  lemma AllBacked(y: Calls)
    requires Inv(y)
    ensures forall k :: k in y.documents ==> k in y.ledger.records
  {
    hide LI.Inv, Apart;
    forall k | k in y.documents ensures k in y.ledger.records { assert Backed(y, k); }
  }

  /**
   In every reachable state a lookup finds exactly the principal's own calls: an originate made for that
   very principal, or a hangup of one whose call id is still the provider's.
   */
  lemma LookupFindsOwn(steps: seq<Step>, principal: L.Principal, id: Name)
    ensures var y := Run(START, steps);
            var k := L.Key(principal.tenant, id);
            && (forall k :: k in y.documents ==> k in y.ledger.records)
            && (Get(y, principal, id).Ok? <==>
                  && k in y.documents
                  && (|| IsOwner(y, principal, k)
                      || (&& y.documents[k].payload.HangupCall?
                          && var origin := L.Key(principal.tenant, y.documents[k].payload.originOperation);
                             && IsOwner(y, principal, origin)
                             && y.ledger.records[origin].operation.providerOperationId
                                == Some(y.documents[k].payload.callId))))
  {
    hide Run, Inv, AllProper, Get, IsOwner;
    Reachable(steps);
    DocumentsAreProper(steps);
    AllBacked(Run(START, steps));
    GetProper(Run(START, steps), principal, id);
  }

  // ---------------------------------------------------------------- originates

  /** No originate of the tenant used this grant, and those of the same employee or extension are over. */
  ghost predicate Free(y: Calls, o: Originating) {
    forall k :: IsOriginate(y, k) && k.tenant == o.principal.tenant ==>
      && y.documents[k].payload.authorizationReference != o.grant.reference
      && (|| y.documents[k].payload.actor.employee == o.principal.employee
          || y.documents[k].payload.actor.extension == o.principal.extension
          ==> Finished(y.ledger, k))
  }

  lemma FreeIff(y: Calls, o: Originating)
    requires Inv(y)
    ensures (exists k :: k in y.documents && Blocks(y, k, o)) <==> !Free(y, o)
  {
    hide LI.Inv, Finished, Terminal, Apart;
    LedgerInOrder(y);
    forall k | k in y.documents
      ensures Blocks(y, k, o) <==>
                && IsOriginate(y, k) && k.tenant == o.principal.tenant
                && !(&& y.documents[k].payload.authorizationReference != o.grant.reference
                     && (|| y.documents[k].payload.actor.employee == o.principal.employee
                         || y.documents[k].payload.actor.extension == o.principal.extension
                         ==> Finished(y.ledger, k)))
    {
      assert Backed(y, k);
      OverIff(y, k);
    }
  }

  /** The command that an originate puts on record. */
  predicate Commands(c: L.Envelope, o: Originating) {
    && Addressed(L.KeyOf(c), c, Text("telephony-internal.calls.originate"), o.principal)
    && c.idempotencyKey == o.key && c.correlationId == o.correlationId
    && c.payload == L.OriginateCall(o.principal, o.body, o.grant.reference, o.grant)
  }

  lemma OriginateCommandIs(o: Originating)
    ensures Commands(OriginateCommand(o), o)
  {
  }

  lemma NewHasNoReplay(y: Calls, o: Originating)
    requires L.KeyOf(OriginateCommand(o)) !in y.documents
    ensures Replay(y, o.principal, o.body, o.key, o.correlationId) == Ok(None)
  {
  }

  /**
   A new originate is accepted exactly when the command is valid, the grant covers the request and is in
   force, no originate of the tenant has used it, every call of the same employee or extension is over by
   what the ledger shows, and the ledger takes the command.  It then is on record and on file with the
   caller's request and grant; a refused one leaves the documents alone.
   */
  lemma OriginateAcceptedIff(steps: seq<Step>, o: Originating, now: Time)
    requires L.KeyOf(OriginateCommand(o)) !in Run(START, steps).documents
    ensures var y := Run(START, steps);
            var (y', r) := Originate(y, o, now);
            var k := L.KeyOf(OriginateCommand(o));
            && (r.Ok? <==>
                  && o.valid && Covers(o.grant, o.principal, o.body)
                  && o.grant.notBefore <= now < o.grant.expiresAt && Free(y, o)
                  && L.Submit(y.ledger, OriginateCommand(o), CLIENT_ID, L.TemporalCommand, now).1.Ok?)
            && (r.Ok? ==> && k in y'.documents && y'.documents == y.documents[k := y'.documents[k]]
                          && Commands(y'.documents[k], o) && k in y'.ledger.records
                          && y'.ledger.records[k].digest == L.Authenticated(y'.documents[k], CLIENT_ID))
            && (r.Err? ==> y' == y)
  {
    hide Run, Inv, LI.Inv, L.Submit, Free, Replay, Blocks, OriginateCommand, MovedOn, Commands;
    var y := Run(START, steps);
    Reachable(steps);
    NewHasNoReplay(y, o);
    FreeIff(y, o);
    OriginateCommandIs(o);
    SubmissionMovesOn(y, OriginateCommand(o), now);
    LedgerInOrder(y);
    LT.AcceptedSubmission(y.ledger, OriginateCommand(o), CLIENT_ID, L.TemporalCommand, now);
  }

  lemma ReplayOwn(y: Calls, o: Originating, body: L.CallRequest, correlationId: Name)
    requires var k := L.KeyOf(OriginateCommand(o));
             k in y.documents && Commands(y.documents[k], o) && k in y.ledger.records
    ensures Replay(y, o.principal, body, o.key, correlationId)
         == if body == o.body && correlationId == o.correlationId
            then Ok(Some(y.ledger.records[L.KeyOf(OriginateCommand(o))].operation.(duplicate := true)))
            else Err(Conflict)
  {
  }

  /**
   However a run goes on after an accepted new originate, the agent's repetition of it gets the current
   operation, whatever the grant and the time, and one with another request or correlation conflicts;
   neither changes anything.
   */
  lemma RepeatedOriginate(steps: seq<Step>, o: Originating, now: Time, later: seq<Step>, again: Originating, at: Time)
    requires L.KeyOf(OriginateCommand(o)) !in Run(START, steps).documents
    requires Originate(Run(START, steps), o, now).1.Ok?
    requires again.principal == o.principal && again.key == o.key && again.valid
    ensures var z := Run(Originate(Run(START, steps), o, now).0, later);
            var k := L.KeyOf(OriginateCommand(o));
            && k in z.ledger.records
            && Originate(z, again, at)
               == (z, if again.body == o.body && again.correlationId == o.correlationId
                      then Ok(z.ledger.records[k].operation.(duplicate := true)) else Err(Conflict))
  {
    hide Run, Inv, LI.Inv, L.Submit, Free, Blocks, Commands, Authorizes, Backed, Replay;
    var y := Run(START, steps);
    var y', k := Originate(y, o, now).0, L.KeyOf(OriginateCommand(o));
    Reachable(steps);
    OriginateAcceptedIff(steps, o, now);
    OriginateKeeps(y, o, now);
    var z := Run(y', later);
    DocumentsAreFinal(y', later, k);
    RunKeeps(y', later);
    AllBacked(z);
    ReplayOwn(z, o, again.body, again.correlationId);
  }

  // ---------------------------------------------------------------- hangups

  /** The command that a hangup of this originate puts on record. */
  predicate Ends(c: L.Envelope, h: HangingUp, original: L.Envelope, callId: Name)
    requires original.payload.OriginateCall?
  {
    && Addressed(L.KeyOf(c), c, Text("telephony-internal.calls.hangup"), h.principal)
    && c.idempotencyKey == h.key && c.correlationId == original.correlationId
    && c.payload == L.HangupCall(original.payload.actor, original.payload.originate, h.operation, callId,
                                 original.payload.authorizationReference, original.payload.policy, h.reason)
  }

  /** The call behind the originate is known to the provider. */
  predicate Dialled(l: L.Ledger, k: L.Key) {
    && k in l.records && l.records[k].operation.providerOperationId.Some?
    && l.records[k].operation.providerOperationId != Some(Text(""))
  }

  /**
   A new hangup is accepted exactly from the agent for whom the originate on file was made, when the
   provider's call id is known, the command is valid, the call is not over by what the ledger shows, the
   expected version is the current one, and the ledger takes the command; the grant need not be in force
   any more.  It then is on file with that call id and the originate's own content.
   */
  lemma HangupAcceptedIff(steps: seq<Step>, h: HangingUp, now: Time)
    requires L.Key(h.principal.tenant, OperationIdentity(h.principal, h.key)) !in Run(START, steps).ledger.records
    ensures var y := Run(START, steps);
            var k := L.Key(h.principal.tenant, h.operation);
            var (y', r) := HangUp(y, h, now);
            && (r.Ok? ==> IsOwner(y, h.principal, k) && Dialled(y.ledger, k))
            && (IsOwner(y, h.principal, k) && Dialled(y.ledger, k) ==>
                  var original, operation := y.documents[k], y.ledger.records[k].operation;
                  var c := HangupCommand(h, original, operation);
                  && Ends(c, h, original, operation.providerOperationId.value)
                  && (r.Ok? <==> && h.valid && !Finished(y.ledger, k)
                                 && operation.resourceVersion == h.expectedVersion
                                 && L.Submit(y.ledger, c, CLIENT_ID, L.TemporalCommand, now).1.Ok?)
                  && (r.Ok? ==> y'.documents == y.documents[L.KeyOf(c) := c]))
            && (r.Err? ==> y' == y)
  {
    hide Run, Inv, LI.Inv, L.Submit, Terminal, Finished, Get, AllProper, Proper, Ends;
    var y := Run(START, steps);
    var k := L.Key(h.principal.tenant, h.operation);
    Reachable(steps);
    DocumentsAreProper(steps);
    AllBacked(y);
    LedgerInOrder(y);
    OverIff(y, k);
    ProperAt(y, k);
    WhoMayHangUp(y, h.principal, h.operation);
    if IsOwner(y, h.principal, k) && Dialled(y.ledger, k) {
      HangupCommandEnds(y, h);
      LT.AcceptedSubmission(y.ledger, HangupCommand(h, y.documents[k], y.ledger.records[k].operation), CLIENT_ID,
                            L.TemporalCommand, now);
    }
  }

  lemma WhoMayHangUp(y: Calls, principal: L.Principal, id: Name)
    requires var k := L.Key(principal.tenant, id); k in y.documents ==> k in y.ledger.records && Proper(y, k)
    ensures var k, r := L.Key(principal.tenant, id), Get(y, principal, id);
            if IsOwner(y, principal, k)
            then && r == Ok(Found(y.documents[k], y.ledger.records[k].operation))
                 && y.documents[k].commandType == ORIGINATE
            else r.Err? || r.value.document.commandType != ORIGINATE
  {
    hide Covers, HangsUp;
  }

  lemma HangupCommandEnds(y: Calls, h: HangingUp)
    requires var k := L.Key(h.principal.tenant, h.operation);
             IsOwner(y, h.principal, k) && Proper(y, k) && Dialled(y.ledger, k)
    ensures var k := L.Key(h.principal.tenant, h.operation);
            var operation := y.ledger.records[k].operation;
            var c := HangupCommand(h, y.documents[k], operation);
            && Ends(c, h, y.documents[k], operation.providerOperationId.value)
            && c.tenant == h.principal.tenant && c.commandId == OperationIdentity(h.principal, h.key)
  {
    hide Covers;
  }

  lemma ProperAt(y: Calls, k: L.Key)
    requires AllProper(y)
    ensures k in y.documents ==> Proper(y, k)
  {
  }
}
