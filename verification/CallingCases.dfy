/**
 Where the calling facade falls short of what its comments expect: an agent can be blocked for good,
 and a call that was cancelled after its dispatch counts as over although it may be live.
 */
module CallingCases {
  import opened Identities
  import L = CommandLedger
  import LI = LedgerInvariants
  import LT = LedgerTheorems
  import LO = LedgerOutcomes
  import opened CallingLedger
  import opened CallingTheorems
  import CO = CallingOutcomes

  // ---------------------------------------------------------------- runs

  lemma {:induction false} RunAppend(y: Calls, first: seq<Step>, second: seq<Step>)
    ensures Run(y, first + second) == Run(Run(y, first), second)
  {
    hide Apply;
    if second == [] {
      assert first + second == first;
    } else {
      var n := |second| - 1;
      assert (first + second)[..|first| + n] == first + second[..n];
      RunAppend(y, first, second[..n]);
    }
  }

  lemma RunNext(y: Calls, steps: seq<Step>, step: Step)
    ensures Run(y, steps + [step]) == Apply(Run(y, steps), step)
  {
    hide Apply;
    assert (steps + [step])[..|steps|] == steps;
  }

  function Moving(k: L.Key, next: L.CommandState, actor: Name, reason: Name, now: Time): Step {
    LedgerStep(L.TransitionStep(k, next, actor, reason, None, None, None, now))
  }

  /** What the cases look at: the documents and, for one command, state, version, attempts and lease. */
  predicate At(y: Calls, o: Originating, state: L.CommandState, attempts: nat) {
    var k := L.KeyOf(OriginateCommand(o));
    && y.documents == map[k := OriginateCommand(o)]
    && y.ledger.records.Keys == {k}
    && y.ledger.records[k].operation.state == state && y.ledger.records[k].operation.resourceVersion == 1
    && |y.ledger.records[k].attempts| == attempts
    && y.ledger.mutations == map[] && !L.ActiveLease(y.ledger.outbox, k)
  }

  lemma FirstOriginate(o: Originating, now: Time)
    requires o.valid && Authorizes(o.grant, o.principal, o.body, now)
    ensures Originate(START, o, now).1.Ok?
    ensures At(Run(START, [OriginateStep(o, now)]), o, L.Persisted, 0)
  {
    RunNext(START, [], OriginateStep(o, now));
    assert [] + [OriginateStep(o, now)] == [OriginateStep(o, now)];
    hide Authorizes, OriginateCommand;
  }

  lemma NextMove(y: Calls, o: Originating, state: L.CommandState, attempts: nat, next: L.CommandState, actor: Name,
                 reason: Name, now: Time)
    requires At(y, o, state, attempts) && next in L.AllowedNext(state)
    ensures At(Apply(y, Moving(L.KeyOf(OriginateCommand(o)), next, actor, reason, now)), o, next,
               attempts + if next.Dispatching? then 1 else 0)
  {
    hide L.Transition, L.ActiveLease, OriginateCommand;
    LT.AllowedMove(y.ledger, L.KeyOf(OriginateCommand(o)), next, actor, reason, now);
  }

  // ---------------------------------------------------------------- an agent blocked for good

  function DeadLetterSteps(o: Originating, actor: Name, reason: Name, now: Time): seq<Step> {
    var k := L.KeyOf(OriginateCommand(o));
    [OriginateStep(o, now)] + [Moving(k, L.Queued, actor, reason, now)]
    + [Moving(k, L.DeadLettered, actor, reason, now)]
  }

  /**
   From the start, an authorized originate that is queued and then dead-lettered blocks its agent: no
   continuation lets an originate of the same employee or extension change anything.
   */
  lemma DeadLetterBlocksAgent(o: Originating, actor: Name, reason: Name, now: Time, later: seq<Step>,
                              second: Originating,
                              at: Time)
    requires o.valid && Authorizes(o.grant, o.principal, o.body, now)
    requires second.principal.tenant == o.principal.tenant
    requires second.principal.employee == o.principal.employee || second.principal.extension == o.principal.extension
    ensures var y := Run(START, DeadLetterSteps(o, actor, reason, now) + later);
            Originate(y, second, at).0 == y
  {
    hide Run, Apply, Originate, Authorizes, Inv, DeadLetterSteps, OriginateCommand, L.ActiveLease;
    var steps := DeadLetterSteps(o, actor, reason, now);
    DeadLetterReached(o, actor, reason, now);
    Reachable(steps);
    RunAppend(START, steps, later);
    OriginateContent(o);
    UnknownOutcomeBlocksAgent(Run(START, steps), L.KeyOf(OriginateCommand(o)), later, second, at);
  }

  lemma OriginateContent(o: Originating)
    ensures var c := OriginateCommand(o);
            && c.payload.OriginateCall? && c.payload.actor == o.principal && c.tenant == o.principal.tenant
  {
  }

  lemma DeadLetterReached(o: Originating, actor: Name, reason: Name, now: Time)
    requires o.valid && Authorizes(o.grant, o.principal, o.body, now)
    ensures At(Run(START, DeadLetterSteps(o, actor, reason, now)), o, L.DeadLettered, 0)
  {
    hide Run, Apply, At, Authorizes, OriginateCommand;
    FirstOriginate(o, now);
    var k := L.KeyOf(OriginateCommand(o));
    var s1, m2, m3 := [OriginateStep(o, now)], Moving(k, L.Queued, actor, reason, now),
                      Moving(k, L.DeadLettered, actor, reason, now);
    NextMove(Run(START, s1), o, L.Persisted, 0, L.Queued, actor, reason, now);
    RunNext(START, s1, m2);
    NextMove(Apply(Run(START, s1), m2), o, L.Queued, 0, L.DeadLettered, actor, reason, now);
    RunNext(START, s1 + [m2], m3);
  }

  // ---------------------------------------------------------------- completed while the call goes on

  /** Up to the readback; `LiveSteps` completes the originate with the evidence. */
  function ReadbackSteps(o: Originating, actor: Name, reason: Name, now: Time): seq<Step> {
    var k := L.KeyOf(OriginateCommand(o));
    [OriginateStep(o, now)] + [Moving(k, L.Queued, actor, reason, now)]
    + [Moving(k, L.Dispatching, actor, reason, now)] + [Moving(k, L.Accepted, actor, reason, now)]
    + [Moving(k, L.ReadbackPending, actor, reason, now)]
  }

  function Completing(o: Originating, actor: Name, reason: Name, e: L.Evidence, now: Time): Step {
    LedgerStep(L.TransitionStep(L.KeyOf(OriginateCommand(o)), L.Completed, actor, reason, None, Some(e), None, now))
  }

  function LiveSteps(o: Originating, actor: Name, reason: Name, e: L.Evidence, now: Time): seq<Step> {
    ReadbackSteps(o, actor, reason, now) + [Completing(o, actor, reason, e, now)]
  }

  lemma ReadbackReached(o: Originating, actor: Name, reason: Name, now: Time)
    requires o.valid && Authorizes(o.grant, o.principal, o.body, now)
    ensures At(Run(START, ReadbackSteps(o, actor, reason, now)), o, L.ReadbackPending, 1)
  {
    hide Run, Apply, At, Authorizes, OriginateCommand;
    var k := L.KeyOf(OriginateCommand(o));
    var m2, m3 := Moving(k, L.Queued, actor, reason, now), Moving(k, L.Dispatching, actor, reason, now);
    var m4, m5 := Moving(k, L.Accepted, actor, reason, now), Moving(k, L.ReadbackPending, actor, reason, now);
    var s1 := [OriginateStep(o, now)];
    var s2, s3, s4 := s1 + [m2], s1 + [m2] + [m3], s1 + [m2] + [m3] + [m4];
    FirstOriginate(o, now);
    NextMove(Run(START, s1), o, L.Persisted, 0, L.Queued, actor, reason, now);
    RunNext(START, s1, m2);
    NextMove(Run(START, s2), o, L.Queued, 0, L.Dispatching, actor, reason, now);
    RunNext(START, s2, m3);
    NextMove(Run(START, s3), o, L.Dispatching, 1, L.Accepted, actor, reason, now);
    RunNext(START, s3, m4);
    NextMove(Run(START, s4), o, L.Accepted, 1, L.ReadbackPending, actor, reason, now);
    RunNext(START, s4, m5);
  }

  lemma CompletedWith(y: Calls, o: Originating, actor: Name, reason: Name, e: L.Evidence, now: Time)
    requires At(y, o, L.ReadbackPending, 1)
    ensures var k, y' := L.KeyOf(OriginateCommand(o)), Apply(y, Completing(o, actor, reason, e, now));
            && y'.documents == map[k := OriginateCommand(o)] && k in y'.ledger.records
            && y'.ledger.records[k].operation.state == L.Completed
            && y'.ledger.records[k].operation.readbackEvidence == Some(e)
  {
    hide L.Transition, L.ActiveLease, OriginateCommand;
    LO.TransitionOutcome(y.ledger, L.KeyOf(OriginateCommand(o)), L.Completed, actor, reason, None, Some(e), None, now);
  }

  lemma LiveReached(o: Originating, actor: Name, reason: Name, e: L.Evidence, now: Time)
    requires o.valid && Authorizes(o.grant, o.principal, o.body, now)
    ensures var k, y := L.KeyOf(OriginateCommand(o)), Run(START, LiveSteps(o, actor, reason, e, now));
            && y.documents == map[k := OriginateCommand(o)] && k in y.ledger.records
            && y.ledger.records[k].operation.state == L.Completed
            && y.ledger.records[k].operation.readbackEvidence == Some(e)
  {
    hide Run, Apply, At, Authorizes, OriginateCommand, ReadbackSteps;
    ReadbackReached(o, actor, reason, now);
    CompletedWith(Run(START, ReadbackSteps(o, actor, reason, now)), o, actor, reason, e, now);
    RunNext(START, ReadbackSteps(o, actor, reason, now), Completing(o, actor, reason, e, now));
  }

  /**
   From the start, an authorized originate is dispatched and completed on evidence that its call is in
   progress.  A second originate of the agent, valid, under another key and a grant of its own, then
   conflicts, and no continuation lets one of that employee or extension change anything.
   */
  lemma LiveEvidenceBlocksAgent(o: Originating, actor: Name, reason: Name, e: L.Evidence, now: Time, later: seq<Step>,
                                second: Originating, at: Time)
    requires o.valid && Authorizes(o.grant, o.principal, o.body, now) && e.callState == Some(Text("in_progress"))
    requires second.valid && Authorizes(second.grant, second.principal, second.body, at) && second.key != o.key
    requires second.principal.tenant == o.principal.tenant
    requires second.principal.employee == o.principal.employee || second.principal.extension == o.principal.extension
    ensures var y := Run(START, LiveSteps(o, actor, reason, e, now));
            && Originate(y, second, at) == (y, Err(Conflict))
            && Originate(Run(y, later), second, at).0 == Run(y, later)
  {
    hide Run, Apply, Originate, Authorizes, Inv, LiveSteps, OriginateCommand, CO.Free, CO.Covers;
    var y := Run(START, LiveSteps(o, actor, reason, e, now));
    var k := L.KeyOf(OriginateCommand(o));
    LiveReached(o, actor, reason, e, now);
    Reachable(LiveSteps(o, actor, reason, e, now));
    OriginateContent(o);
    OtherKey(o, second);
    UnknownOutcomeBlocksAgent(y, k, later, second, at);
    assert !CO.Free(y, second) by { NotFree(y, k, second); }
    CO.OriginateAcceptedIff(LiveSteps(o, actor, reason, e, now), second, at);
    RefusedIsConflict(y, second, at);
  }

  lemma OtherKey(o: Originating, second: Originating)
    requires second.key != o.key
    ensures L.KeyOf(OriginateCommand(second)) != L.KeyOf(OriginateCommand(o))
  {
  }

  lemma NotFree(y: Calls, k: L.Key, o: Originating)
    requires IsOriginate(y, k) && k.tenant == o.principal.tenant && SharesAgent(y.documents[k], o.principal)
    requires !Finished(y.ledger, k)
    ensures !CO.Free(y, o)
  {
    hide Finished;
  }

  lemma RefusedIsConflict(y: Calls, o: Originating, now: Time)
    requires o.valid && Authorizes(o.grant, o.principal, o.body, now)
    requires L.KeyOf(OriginateCommand(o)) !in y.documents && Originate(y, o, now).1.Err?
    ensures Originate(y, o, now).1 == Err(Conflict)
  {
    CO.NewHasNoReplay(y, o);
    hide Replay, Authorizes, Blocks, L.Submit;
  }

  // ---------------------------------------------------------------- cancelled after dispatch

  /** Dispatched, quarantined and queued again. */
  function RequeueSteps(o: Originating, actor: Name, reason: Name, now: Time): seq<Step> {
    var k := L.KeyOf(OriginateCommand(o));
    [OriginateStep(o, now)] + [Moving(k, L.Queued, actor, reason, now)]
    + [Moving(k, L.Dispatching, actor, reason, now)]
    + [Moving(k, L.ReconciliationRequired, actor, reason, now)] + [Moving(k, L.Queued, actor, reason, now)]
  }

  /** The same, and then cancelled by an operator. */
  function LateCancelSteps(o: Originating, actor: Name, key: Name, reason: Name, now: Time): seq<Step> {
    RequeueSteps(o, actor, reason, now)
    + [LedgerStep(L.MutateStep(L.KeyOf(OriginateCommand(o)), L.Cancel, actor, key, 1, reason, now))]
  }

  lemma OperatorCancel(y: Calls, o: Originating, attempts: nat, actor: Name, key: Name, reason: Name, now: Time)
    requires At(y, o, L.Queued, attempts)
    ensures var k := L.KeyOf(OriginateCommand(o));
            var y' := Apply(y, LedgerStep(L.MutateStep(k, L.Cancel, actor, key, 1, reason, now)));
            && y'.documents == map[k := OriginateCommand(o)] && y'.ledger.records.Keys == {k}
            && y'.ledger.records[k].operation.state.Cancelled? && |y'.ledger.records[k].attempts| == attempts
  {
    hide L.ActiveLease, L.MutatedOutbox, L.Logged, OriginateCommand;
  }

  lemma LateCancel(o: Originating, actor: Name, key: Name, reason: Name, now: Time)
    requires o.valid && Authorizes(o.grant, o.principal, o.body, now)
    ensures var k := L.KeyOf(OriginateCommand(o));
            var y := Run(START, LateCancelSteps(o, actor, key, reason, now));
            && y.documents == map[k := OriginateCommand(o)] && y.ledger.records.Keys == {k}
            && y.ledger.records[k].operation.state.Cancelled? && |y.ledger.records[k].attempts| == 1
  {
    hide Run, Apply, At, Authorizes, OriginateCommand, RequeueSteps;
    RequeuedOnce(o, actor, reason, now);
    var steps := RequeueSteps(o, actor, reason, now);
    OperatorCancel(Run(START, steps), o, 1, actor, key, reason, now);
    RunNext(START, steps, LedgerStep(L.MutateStep(L.KeyOf(OriginateCommand(o)), L.Cancel, actor, key, 1, reason, now)));
  }

  lemma RequeuedOnce(o: Originating, actor: Name, reason: Name, now: Time)
    requires o.valid && Authorizes(o.grant, o.principal, o.body, now)
    ensures At(Run(START, RequeueSteps(o, actor, reason, now)), o, L.Queued, 1)
  {
    hide Run, Apply, At, Authorizes, OriginateCommand;
    var k := L.KeyOf(OriginateCommand(o));
    var m2, m3 := Moving(k, L.Queued, actor, reason, now), Moving(k, L.Dispatching, actor, reason, now);
    var m4 := Moving(k, L.ReconciliationRequired, actor, reason, now);
    var s1 := [OriginateStep(o, now)];
    var s2, s3, s4 := s1 + [m2], s1 + [m2] + [m3], s1 + [m2] + [m3] + [m4];
    FirstOriginate(o, now);
    NextMove(Run(START, s1), o, L.Persisted, 0, L.Queued, actor, reason, now);
    RunNext(START, s1, m2);
    NextMove(Run(START, s2), o, L.Queued, 0, L.Dispatching, actor, reason, now);
    RunNext(START, s2, m3);
    NextMove(Run(START, s3), o, L.Dispatching, 1, L.ReconciliationRequired, actor, reason, now);
    RunNext(START, s3, m4);
    NextMove(Run(START, s4), o, L.ReconciliationRequired, 1, L.Queued, actor, reason, now);
    RunNext(START, s4, m2);
  }

  /** The only document is that of an originate which is over. */
  predicate OnlyOver(y: Calls, o: Originating) {
    var k := L.KeyOf(OriginateCommand(o));
    && y.documents == map[k := OriginateCommand(o)] && y.ledger.records.Keys == {k}
    && y.ledger.records[k].operation.state.Cancelled?
  }

  lemma NothingToReplay(y: Calls, o: Originating, second: Originating)
    requires OnlyOver(y, o) && second.key != o.key
    ensures Replay(y, second.principal, second.body, second.key, second.correlationId) == Ok(None)
  {
  }

  lemma NothingBlocks(y: Calls, o: Originating, second: Originating)
    requires OnlyOver(y, o) && second.grant.reference != o.grant.reference
    ensures forall j :: j in y.documents ==> !Blocks(y, j, second)
  {
  }

  lemma NewKeyAccepted(y: Calls, o: Originating, second: Originating, at: Time)
    requires Inv(y) && OnlyOver(y, o) && second.key != o.key
    ensures L.Submit(y.ledger, OriginateCommand(second), CLIENT_ID, L.TemporalCommand, at).1.Ok?
  {
    hide Apart, LI.MutationInv, LI.OutboxInv, LI.Chained, LI.Numbered, LI.Attested;
    var k, c := L.KeyOf(OriginateCommand(o)), OriginateCommand(second);
    var index := L.IdempotencyKey(c.tenant, c.idempotencyKey);
    assert Backed(y, k) && LI.RecordOk(k, y.ledger.records[k]);
    assert index in y.ledger.index ==> LI.Indexed(y.ledger, index);
  }

  /** A second originate under another grant and another key is let through once the first one is over. */
  lemma SecondOriginate(y: Calls, o: Originating, second: Originating, at: Time)
    requires Inv(y) && OnlyOver(y, o)
    requires second.valid && Authorizes(second.grant, second.principal, second.body, at)
    requires second.grant.reference != o.grant.reference && second.key != o.key
    ensures Originate(y, second, at).1.Ok?
  {
    hide Inv, OnlyOver, L.Submit, Authorizes, Replay, Blocks, OriginateCommand;
    NothingToReplay(y, o, second);
    NothingBlocks(y, o, second);
    NewKeyAccepted(y, o, second, at);
  }

  /**
   Cancelled does not mean undialled: an originate that was dispatched once and is cancelled after it
   was queued again counts as terminal, and the agent's next originate is accepted.
   */
  lemma CancelledAfterDispatchFreesAgent(o: Originating, actor: Name, key: Name, reason: Name, now: Time,
                                         second: Originating, at: Time)
    requires o.valid && Authorizes(o.grant, o.principal, o.body, now)
    requires second.valid && Authorizes(second.grant, second.principal, second.body, at)
    requires second.grant.reference != o.grant.reference && second.key != o.key
    ensures var k := L.KeyOf(OriginateCommand(o));
            var y := Run(START, LateCancelSteps(o, actor, key, reason, now));
            && IsOriginate(y, k) && Over(y, k) && |y.ledger.records[k].attempts| == 1
            && Originate(y, second, at).1.Ok?
  {
    hide Run, Apply, Originate, Authorizes, Inv, LateCancelSteps;
    LateCancel(o, actor, key, reason, now);
    Reachable(LateCancelSteps(o, actor, key, reason, now));
    SecondOriginate(Run(START, LateCancelSteps(o, actor, key, reason, now)), o, second, at);
  }

  /**
   A cancelled originate is known to be undialled exactly when it has no attempts: that is when its
   audit log shows no dispatch.
   */
  lemma CancelledUndialledIff(steps: seq<Step>, k: L.Key)
    requires var y := Run(START, steps);
             IsOriginate(y, k) && k in y.ledger.records && y.ledger.records[k].operation.state.Cancelled?
    ensures var r := Run(START, steps).ledger.records[k];
            r.attempts == [] <==> forall i :: 0 <= i < |r.events| ==> !r.events[i].next.Dispatching?
  {
    hide Run, LI.Inv, Backed, Apart;
    Reachable(steps);
    LT.UndispatchedIff(Run(START, steps).ledger, k);
  }
}
