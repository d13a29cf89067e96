/**
 What the calling facade promises in every reachable state, however the steps of the ledger, of the
 execution bus and of other clients interleave with it.
 */
module CallingTheorems {
  import opened Identities
  import L = CommandLedger
  import LI = LedgerInvariants
  import LT = LedgerTheorems
  import opened CallingLedger

  /** A document is the content under which its command is on record. */
  predicate Backed(y: Calls, k: L.Key) requires k in y.documents {
    && k == L.KeyOf(y.documents[k])
    && k in y.ledger.records
    && y.ledger.records[k].digest == L.Authenticated(y.documents[k], CLIENT_ID)
    && (y.documents[k].payload.OriginateCall? <==> y.documents[k].commandType == ORIGINATE)
  }

  predicate IsOriginate(y: Calls, k: L.Key) { k in y.documents && y.documents[k].payload.OriginateCall? }

  /** Two originates of one tenant that share an employee or an extension. */
  predicate Rivals(y: Calls, a: L.Key, b: L.Key) {
    && IsOriginate(y, a) && IsOriginate(y, b) && a != b && a.tenant == b.tenant
    && (|| y.documents[a].payload.actor.employee == y.documents[b].payload.actor.employee
        || y.documents[a].payload.actor.extension == y.documents[b].payload.actor.extension)
  }

  predicate Over(y: Calls, k: L.Key) { k in y.ledger.records && Terminal(y.ledger.records[k].operation) }

  /** Two originates never share a grant, and of two rivals one is over. */
  predicate Apart(y: Calls, a: L.Key, b: L.Key) {
    (IsOriginate(y, a) && IsOriginate(y, b) && a != b && a.tenant == b.tenant) ==>
      && y.documents[a].payload.authorizationReference != y.documents[b].payload.authorizationReference
      && (Rivals(y, a, b) ==> Over(y, a) || Over(y, b))
  }

  ghost predicate Inv(y: Calls) {
    && LI.Inv(y.ledger)
    && (forall k :: k in y.documents ==> Backed(y, k))
    && (forall a, b :: a in y.documents && b in y.documents ==> Apart(y, a, b))
  }

  /** The ledger moved on: records are kept, and what is final stayed as it was. */
  ghost predicate MovedOn(y: Calls, l: L.Ledger) {
    && LI.Inv(l)
    && (forall k :: k in y.ledger.records ==>
          && k in l.records && l.records[k].digest == y.ledger.records[k].digest
          && (L.Absorbing(y.ledger.records[k].operation.state) ==> l.records[k] == y.ledger.records[k]))
  }

  lemma MovedOnKeeps(y: Calls, l: L.Ledger)
    requires Inv(y) && MovedOn(y, l)
    ensures Inv(y.(ledger := l))
  {
    hide LI.Inv;
    var y' := y.(ledger := l);
    forall k | k in y'.documents ensures Backed(y', k) { assert Backed(y, k); }
    forall a, b | a in y'.documents && b in y'.documents ensures Apart(y', a, b) {
      assert Apart(y, a, b);
    }
  }

  lemma SubmissionMovesOn(y: Calls, command: L.Envelope, now: Time)
    requires Inv(y)
    ensures var (l, r) := L.Submit(y.ledger, command, CLIENT_ID, L.TemporalCommand, now);
            && MovedOn(y, l)
            && (r.Ok? ==> && L.KeyOf(command) in l.records
                          && l.records[L.KeyOf(command)].digest == L.Authenticated(command, CLIENT_ID)
                          && (L.KeyOf(command) in y.documents ==> y.documents[L.KeyOf(command)] == command))
  {
    hide LI.Inv, L.Submit, Apart;
    LT.AcceptedSubmission(y.ledger, command, CLIENT_ID, L.TemporalCommand, now);
    if L.KeyOf(command) in y.documents { assert Backed(y, L.KeyOf(command)); }
  }

  /** Documenting an accepted command that no recorded originate stands in the way of. */
  lemma DocumentedKeeps(y: Calls, l: L.Ledger, command: L.Envelope)
    requires Inv(y) && MovedOn(y, l)
    requires var c := L.KeyOf(command);
             && c in l.records && l.records[c].digest == L.Authenticated(command, CLIENT_ID)
             && (c in y.documents ==> y.documents[c] == command)
    requires command.payload.OriginateCall? <==> command.commandType == ORIGINATE
    requires command.payload.OriginateCall? ==>
               forall k :: IsOriginate(y, k) && k.tenant == command.tenant && k != L.KeyOf(command) ==>
                 && y.documents[k].payload.authorizationReference != command.payload.authorizationReference
                 && (SharesAgent(y.documents[k], command.payload.actor) ==> Over(y, k))
    ensures Inv(Documented(y, l, command))
  {
    hide LI.Inv;
    var y' := Documented(y, l, command);
    var c := L.KeyOf(command);
    MovedOnKeeps(y, l);
    var moved := y.(ledger := l);
    forall k | k in y'.documents ensures Backed(y', k) {
      if k != c { assert Backed(moved, k); }
    }
    forall a, b | a in y'.documents && b in y'.documents ensures Apart(y', a, b) {
      if a != c && b != c { assert Apart(moved, a, b); }
      else if a != c && IsOriginate(y, a) { NewcomerApart(y, l, command, a); }
      else if b != c && IsOriginate(y, b) { NewcomerApart(y, l, command, b); }
    }
  }

  lemma NewcomerApart(y: Calls, l: L.Ledger, command: L.Envelope, k: L.Key)
    requires MovedOn(y, l) && IsOriginate(y, k) && k != L.KeyOf(command)
    requires (command.payload.OriginateCall? && k.tenant == command.tenant) ==>
               && y.documents[k].payload.authorizationReference != command.payload.authorizationReference
               && (SharesAgent(y.documents[k], command.payload.actor) ==> Over(y, k))
    ensures Apart(Documented(y, l, command), k, L.KeyOf(command))
    ensures Apart(Documented(y, l, command), L.KeyOf(command), k)
  {
    hide LI.Inv;
  }

  lemma OriginateKeeps(y: Calls, o: Originating, now: Time)
    requires Inv(y)
    ensures Inv(Originate(y, o, now).0)
  {
    hide LI.Inv, L.Submit, MovedOn, Authorizes, Replay, Terminal;
    var command := OriginateCommand(o);
    SubmissionMovesOn(y, command, now);
    var submitted := L.Submit(y.ledger, command, CLIENT_ID, L.TemporalCommand, now);
    if submitted.1.Err? {
      MovedOnKeeps(y, submitted.0);
    } else if !exists k :: k in y.documents && Blocks(y, k, o) {
      forall k | IsOriginate(y, k) && k.tenant == command.tenant && k != L.KeyOf(command)
        ensures y.documents[k].payload.authorizationReference != command.payload.authorizationReference
        ensures SharesAgent(y.documents[k], command.payload.actor) ==> Over(y, k)
      {
        assert Backed(y, k);
        assert !Blocks(y, k, o);
      }
      DocumentedKeeps(y, submitted.0, command);
    }
  }

  lemma HangUpKeeps(y: Calls, h: HangingUp, now: Time)
    requires Inv(y)
    ensures Inv(HangUp(y, h, now).0)
  {
    hide LI.Inv, L.Submit, MovedOn, Terminal, HangsUp, Apart, Backed;
    var known := Get(y, h.principal, h.operation);
    if known.Ok? && known.value.document.commandType == ORIGINATE && CallKnown(known.value.operation) {
      var command := HangupCommand(h, known.value.document, known.value.operation);
      SubmissionMovesOn(y, command, now);
      var submitted := L.Submit(y.ledger, command, CLIENT_ID, L.TemporalCommand, now);
      MovedOnKeeps(y, submitted.0);
      if submitted.1.Ok? { DocumentedKeeps(y, submitted.0, command); }
    }
  }

  lemma LedgerStepKeeps(y: Calls, step: L.Step)
    requires Inv(y)
    ensures Inv(y.(ledger := L.Apply(y.ledger, step)))
  {
    hide LI.Inv, L.Apply, Apart, Backed;
    LI.StepKeeps(y.ledger, step);
    forall k | k in y.ledger.records
      ensures k in L.Apply(y.ledger, step).records
      ensures LT.Extends(y.ledger.records[k], L.Apply(y.ledger, step).records[k])
    {
      LT.StepExtends(y.ledger, step, k);
    }
    MovedOnKeeps(y, L.Apply(y.ledger, step));
  }

  lemma {:induction false} RunKeeps(y: Calls, steps: seq<Step>)
    requires Inv(y)
    ensures Inv(Run(y, steps))
  {
    hide Inv, Originate, HangUp, L.Apply;
    if steps != [] {
      var n := |steps| - 1;
      RunKeeps(y, steps[..n]);
      match steps[n]
      case OriginateStep(o, at) => OriginateKeeps(Run(y, steps[..n]), o, at);
      case HangupStep(h, at) => HangUpKeeps(Run(y, steps[..n]), h, at);
      case LedgerStep(step) => LedgerStepKeeps(Run(y, steps[..n]), step);
    }
  }

  lemma Reachable(steps: seq<Step>)
    ensures Inv(Run(START, steps))
  {
    assert Inv(START);
    RunKeeps(START, steps);
  }

  /**
   What the ledger itself shows of a call that is over: it was cancelled, or it was completed with recorded
   evidence that names this very command, speaks of an internal call without external dialing, and reports
   one of the states in which a call has ended.
   */
  predicate Finished(l: L.Ledger, k: L.Key) {
    && k in l.records
    && var op := l.records[k].operation;
       || op.state.Cancelled?
       || (&& op.state.Completed? && op.readbackDigest.Some? && op.readbackEvidence.Some?
           && var evidence := op.readbackEvidence.value;
              && evidence.callState.Some?
              && evidence.callState.value in {Text("completed"), Text("failed"), Text("busy"), Text("no_answer"),
                                              Text("canceled"), Text("rejected"), Text("missed"), Text("cancelled"),
                                              Text("transferred")}
              && evidence.operationId == Some(k.id) && evidence.tenant == Some(k.tenant)
              && evidence.internalOnly == Some(true) && evidence.externalDialing == Some(false))
  }

  /** The terminal test of the facade is exactly what the ledger shows. */
  lemma OverIff(y: Calls, k: L.Key)
    requires LI.Inv(y.ledger)
    ensures Over(y, k) <==> Finished(y.ledger, k)
  {
    hide LI.Chained, LI.Numbered, LI.Attested, LI.IndexInv, LI.MutationInv, LI.OutboxInv;
    if k in y.ledger.records { assert LI.RecordOk(k, y.ledger.records[k]); }
  }

  /**
   In every reachable state, of any two originates of a tenant that share an employee or an extension
   at least one is over by what the ledger shows of it.
   */
  lemma OneLiveCall(steps: seq<Step>, a: L.Key, b: L.Key)
    requires Rivals(Run(START, steps), a, b)
    ensures Finished(Run(START, steps).ledger, a) || Finished(Run(START, steps).ledger, b)
  {
    hide Run, LI.Inv, Backed, Finished, Over;
    Reachable(steps);
    assert Apart(Run(START, steps), a, b);
    OverIff(Run(START, steps), a);
    OverIff(Run(START, steps), b);
  }

  /** No authorization reference backs two originates of a tenant. */
  lemma GrantSpentOnce(steps: seq<Step>, a: L.Key, b: L.Key)
    requires var y := Run(START, steps);
             && IsOriginate(y, a) && IsOriginate(y, b) && a.tenant == b.tenant
             && y.documents[a].payload.authorizationReference == y.documents[b].payload.authorizationReference
    ensures a == b
  {
    hide Run, LI.Inv, Backed;
    Reachable(steps);
    assert Apart(Run(START, steps), a, b);
  }

  /** A calling document never changes, and it is always the recorded content of its command. */
  lemma {:induction false} DocumentsAreFinal(y: Calls, steps: seq<Step>, k: L.Key)
    requires Inv(y) && k in y.documents
    ensures k in Run(y, steps).documents && Run(y, steps).documents[k] == y.documents[k]
    ensures Backed(Run(y, steps), k)
  {
    hide Inv, Backed, L.Apply;
    if steps != [] {
      var n := |steps| - 1;
      DocumentsAreFinal(y, steps[..n], k);
      RunKeeps(y, steps[..n]);
      StepKeepsDocument(Run(y, steps[..n]), steps[n], k);
    }
    RunKeeps(y, steps);
    BackedFact(Run(y, steps), k);
  }

  lemma {:induction false} LedgerFinal(y: Calls, steps: seq<Step>, k: L.Key)
    requires Inv(y) && k in y.ledger.records && L.Absorbing(y.ledger.records[k].operation.state)
    ensures k in Run(y, steps).ledger.records && Run(y, steps).ledger.records[k] == y.ledger.records[k]
  {
    hide Inv, L.Absorbing, L.Apply, LT.Extends;
    if steps != [] {
      var n := |steps| - 1;
      LedgerFinal(y, steps[..n], k);
      RunKeeps(y, steps[..n]);
      StepFinal(Run(y, steps[..n]), steps[n], k);
    }
  }

  lemma StepFinal(y: Calls, step: Step, k: L.Key)
    requires Inv(y) && k in y.ledger.records && L.Absorbing(y.ledger.records[k].operation.state)
    ensures k in Apply(y, step).ledger.records && Apply(y, step).ledger.records[k] == y.ledger.records[k]
  {
    hide Inv, L.Submit, L.Apply, Terminal, HangsUp, Authorizes, Replay, Blocks, LI.Inv;
    match step
    case OriginateStep(o, at) => SubmissionMovesOn(y, OriginateCommand(o), at);
    case HangupStep(h, at) =>
      var known := Get(y, h.principal, h.operation);
      if known.Ok? && known.value.document.commandType == ORIGINATE && CallKnown(known.value.operation) {
        SubmissionMovesOn(y, HangupCommand(h, known.value.document, known.value.operation), at);
      }
    case LedgerStep(step) => LT.StepExtends(y.ledger, step, k);
  }

  /**
   An originate that ended without authoritative evidence of a finished call - dead-lettered, or
   completed with other evidence - blocks its agent for good: no run lets an originate through that
   shares its employee or its extension.
   */
  lemma UnknownOutcomeBlocksAgent(y: Calls, k: L.Key, steps: seq<Step>, o: Originating, now: Time)
    requires Inv(y) && IsOriginate(y, k) && k.tenant == o.principal.tenant && SharesAgent(y.documents[k], o.principal)
    requires k in y.ledger.records && !Finished(y.ledger, k)
    requires y.ledger.records[k].operation.state in {L.Completed, L.DeadLettered}
    ensures Originate(Run(y, steps), o, now).0 == Run(y, steps)
  {
    hide Inv, LI.Inv, Run, Terminal, Finished, SharesAgent, Replay, Authorizes, L.Submit, Originate;
    LedgerInOrder(y);
    OverIff(y, k);
    var later := Run(y, steps);
    LedgerFinal(y, steps, k);
    DocumentsAreFinal(y, steps, k);
    assert Blocks(later, k, o);
    BlockedChangesNothing(later, k, o, now);
  }

  lemma LedgerInOrder(y: Calls)
    requires Inv(y)
    ensures LI.Inv(y.ledger)
  {
    hide LI.Inv, Apart, Backed;
  }

  lemma BlockedChangesNothing(y: Calls, k: L.Key, o: Originating, now: Time)
    requires k in y.documents && Blocks(y, k, o)
    ensures Originate(y, o, now).0 == y
  {
    hide Blocks, Replay, Authorizes, L.Submit;
  }

  lemma BackedFact(y: Calls, k: L.Key)
    requires Inv(y) && k in y.documents
    ensures Backed(y, k)
  {
  }

  lemma StepKeepsDocument(y: Calls, step: Step, k: L.Key)
    requires Inv(y) && k in y.documents
    ensures k in Apply(y, step).documents && Apply(y, step).documents[k] == y.documents[k]
  {
    hide Inv, L.Submit, L.Apply, MovedOn, Terminal, HangsUp, Authorizes, Replay, Blocks;
    match step
    case OriginateStep(o, at) => SubmissionMovesOn(y, OriginateCommand(o), at);
    case HangupStep(h, at) =>
      var known := Get(y, h.principal, h.operation);
      if known.Ok? && known.value.document.commandType == ORIGINATE && CallKnown(known.value.operation) {
        SubmissionMovesOn(y, HangupCommand(h, known.value.document, known.value.operation), at);
      }
    case LedgerStep(step) =>
  }
}
