/**
 What the columns of a saga row mean: when the row may be claimed again, why each claim ended as it did,
 what a readback reports, and which commands run at all.  The tables of the protocol are written out
 here and do not refer to the functions that take the decisions.
 */
module SagaOutcomes {
  import opened Identities
  import opened CampaignSaga
  import opened SagaTheorems

  // ---------------------------------------------------------------- the row and its last ending

  predicate LeftBehind(row: Row, c: Closing, limit: int) {
    && row.nextAttemptAt == c.retryAt
    && match c
       case Terminated(claim, at, retryAt, audit) =>
         && row.status == audit.decision && row.lastError == audit.error
         && (row.status.Retry? || row.status.Completed? || row.status.DeadLetter?)
         && (row.status.Completed? ==> row.completedAt == Some(at) && row.readbackId == audit.readbackId)
       case Recovered(claim, at, retryAt) =>
         && row.status == (if claim < limit then Retry else DeadLetter)
         && row.lastError == Some(if claim < limit then LeaseExpiredRecovered else LeaseExpired)
  }

  /** A reserved row has a lease and no schedule; any other row is as its last claim left it. */
  predicate RowFollows(s: System, limit: int) {
    && (s.row.status.Reserved? <==> s.row.leaseExpiresAt.Some?)
    && (s.row.status.Reserved? ==> s.row.nextAttemptAt.None?)
    && (!s.row.status.Reserved? && s.closings == [] ==>
          s.row.nextAttemptAt.None? && (s.row.status.Pending? || s.row.status.DeadLetter?))
    && (!s.row.status.Reserved? && s.closings != [] ==> LeftBehind(s.row, s.closings[|s.closings| - 1], limit))
  }

  lemma RowKeepsFollowing(s: System, limit: int, step: Step)
    requires ClaimsInv(s) && LimitInv(s, limit) && RowFollows(s, limit)
    ensures RowFollows(Apply(s, limit, step), limit)
  {
    hide JudgeDesired, JudgeReadback, Pow2, OutcomeOf, ClosingOk;
  }

  lemma {:induction false} RowsFollow(event: OutboxEvent, binding: Option<(Name, Name, Name)>, limit: int,
                                      steps: seq<Step>)
    requires limit >= 1
    ensures RowFollows(Run(Enrolled(event, binding), limit, steps), limit)
  {
    if steps != [] {
      hide RowFollows, Apply, KeysInv, CopiesInv, AuditsOf;
      var n := |steps| - 1;
      RowsFollow(event, binding, limit, steps[..n]);
      Reachable(event, binding, limit, steps[..n]);
      RowKeepsFollowing(Run(Enrolled(event, binding), limit, steps[..n]), limit, steps[n]);
    }
  }

  /** The moment from which the row that an ending left behind can be claimed. */
  function Due(c: Closing): Time { if c.Terminated? then c.at + 5 * Pow2(c.claim - 1) else c.at }

  /**
   In every reachable system a claim takes the row exactly when it has a lease to give and the row is
   pending, or waits for a retry that is due: 5 * 2^(attempts-1) seconds after the termination of its
   last claim, at once after a recovery.  Before that moment the row is left as it is.
   */
  lemma ClaimTakesIff(event: OutboxEvent, binding: Option<(Name, Name, Name)>, limit: int, steps: seq<Step>, at: Time,
                      leaseSeconds: int)
    requires limit >= 1
    ensures var s := Run(Enrolled(event, binding), limit, steps);
            var s' := Apply(s, limit, Claim(at, leaseSeconds));
            && (s.row.status.Retry? ==>
                  && s.closings != [] && s.closings[|s.closings| - 1].claim == s.row.attempts
                  && s.row.nextAttemptAt == Some(Due(s.closings[|s.closings| - 1])))
            && (s' != s <==> && leaseSeconds >= 1
                             && (|| s.row.status.Pending?
                                 || (s.row.status.Retry? && Due(s.closings[|s.closings| - 1]) <= at)))
            && (s' != s ==> s' == s.(row := s.row.(status := Reserved, attempts := s.row.attempts + 1,
                                                   reservedAt := Some(at), nextAttemptAt := None,
                                                   leaseExpiresAt := Some(at + leaseSeconds))))
  {
    hide Run, KeysInv, CopiesInv, AuditsOf, Pow2;
    Reachable(event, binding, limit, steps);
    RowsFollow(event, binding, limit, steps);
    var s := Run(Enrolled(event, binding), limit, steps);
    if s.row.status.Retry? { assert ClosingOk(limit, s.closings[|s.closings| - 1]); }
  }

  /**
   No reservation is stuck: its lease ends, and from that moment on, but not before, recovery ends the
   claim; below the limit the row can then be claimed at once, at the limit it is dead-lettered.
   */
  lemma ReservationIsRecoverable(event: OutboxEvent, binding: Option<(Name, Name, Name)>, limit: int,
                                 steps: seq<Step>, at: Time)
    requires limit >= 1 && Run(Enrolled(event, binding), limit, steps).row.status.Reserved?
    ensures var s := Run(Enrolled(event, binding), limit, steps);
            var s' := Apply(s, limit, Recover(at));
            && s.row.leaseExpiresAt.Some?
            && (at < s.row.leaseExpiresAt.value ==> s' == s)
            && (at >= s.row.leaseExpiresAt.value ==>
                  && |s'.closings| == |s.closings| + 1 && s'.row.attempts == s.row.attempts
                  && (s.row.attempts < limit ==>
                        Apply(s', limit, Claim(at, 1)).row.attempts == s.row.attempts + 1)
                  && (s.row.attempts >= limit ==> s'.row.status.DeadLetter? && s'.row.lastError == Some(LeaseExpired)))
  {
    hide Run;
    RowsFollow(event, binding, limit, steps);
  }

  /** A renewal under an open claim keeps recovery away until the new lease has run out, and no longer. */
  lemma RenewalHolds(event: OutboxEvent, binding: Option<(Name, Name, Name)>, limit: int, steps: seq<Step>, w: Name,
                     at: Time, leaseSeconds: int, t: Time)
    requires limit >= 1 && WorkerOf(Run(Enrolled(event, binding), limit, steps), w).Renewing?
    requires var s := Run(Enrolled(event, binding), limit, steps); OpenClaim(s, WorkerOf(s, w).local.attempts)
    ensures var s := Run(Enrolled(event, binding), limit, steps);
            var s' := Apply(s, limit, Renew(w, at, leaseSeconds));
            && s'.row == s.row.(leaseExpiresAt := Some(at + leaseSeconds))
            && (Apply(s', limit, Recover(t)) == s' <==> t < at + leaseSeconds)
  {
    hide Run;
    GuardIsExact(event, binding, limit, steps, w);
  }

  /** The verdict of a worker is committed exactly while its claim is open, and then the row carries it. */
  lemma VerdictCommitsIff(event: OutboxEvent, binding: Option<(Name, Name, Name)>, limit: int, steps: seq<Step>,
                          w: Name, at: Time)
    requires limit >= 1 && WorkerOf(Run(Enrolled(event, binding), limit, steps), w).Ending?
    ensures var s := Run(Enrolled(event, binding), limit, steps);
            var worker, s' := WorkerOf(s, w), Apply(s, limit, Terminate(w, at));
            if OpenClaim(s, worker.local.attempts)
            then && |s'.closings| == |s.closings| + 1 && |s'.audits| == |s.audits| + 1
                 && s'.row.status == worker.verdict.status && s'.row.lastError == worker.verdict.error
                 && s'.row.reservedAt.None? && s'.row.attempts == s.row.attempts
            else WritesNothing(s, s')
  {
    hide Run, AuditOf;
    GuardIsExact(event, binding, limit, steps, w);
  }

  // ---------------------------------------------------------------- why a claim ended

  /** A fault worth a retry gives one below the limit and a dead letter at it; both carry its class. */
  predicate RetriedAs(errorClass: ErrorClass, claim: int, limit: int, status: Status, error: Option<ErrorClass>) {
    error == Some(errorClass) && status == if claim < limit then Retry else DeadLetter
  }

  predicate FaultCallsFor(fault: Fault, rejected: ErrorClass, claim: int, limit: int, status: Status,
                          error: Option<ErrorClass>) {
    match fault
    case StaleVersion => status.DeadLetter? && error == Some(StaleConfigurationVersion)
    case Unavailable => RetriedAs(UpstreamUnavailable, claim, limit, status, error)
    case Transport => RetriedAs(TransportError, claim, limit, status, error)
    case Unresolved => RetriedAs(RouteUnresolved, claim, limit, status, error)
    case Rejected => status.DeadLetter? && error == Some(rejected)
  }

  /** The end that the desired state calls for; none if it agrees with the command. */
  predicate DesiredCallsFor(reply: DesiredReply, c: Control, claim: int, limit: int, status: Status,
                            error: Option<ErrorClass>) {
    match reply
    case DesiredFault(fault) => FaultCallsFor(fault, DesiredStateRejected, claim, limit, status, error)
    case DesiredMalformed => status.DeadLetter? && error == Some(DesiredStateRejected)
    case Desired(campaign, version, hash) =>
      && status.DeadLetter?
      && (campaign != c.campaign ==> error == Some(DesiredStateRejected))
      && (campaign == c.campaign && version > c.configurationVersion ==> error == Some(StaleConfigurationVersion))
      && (campaign == c.campaign && version <= c.configurationVersion ==>
            error == Some(ConfigurationVersionMismatch)
            && (version < c.configurationVersion || hash != c.manifestHash))
  }

  predicate AnswerCallsFor(reply: ReadbackReply, claim: int, limit: int, status: Status, error: Option<ErrorClass>,
                           readbackId: Option<Name>) {
    match reply
    case ReadbackFault(fault) =>
      readbackId.None? && FaultCallsFor(fault, ReadbackRejected, claim, limit, status, error)
    case ReadbackAccepted(id) => status.Completed? && error.None? && readbackId == Some(id)
  }

  /** A reply that was heard under the claim calls for this end. */
  ghost predicate Reasoned(s: System, limit: int, claim: int, status: Status, error: Option<ErrorClass>,
                           readbackId: Option<Name>) {
    || (readbackId.None?
        && exists i :: && 0 <= i < |s.desires| && s.desires[i].claim == claim
                       && DesiredCallsFor(s.desires[i].reply, s.row.control, claim, limit, status, error))
    || (exists i :: && 0 <= i < |s.answers| && s.answers[i].claim == claim
                    && AnswerCallsFor(s.answers[i].reply, claim, limit, status, error, readbackId))
  }

  /** The audit row is that of its claim and names the outcome by status and error. */
  predicate AuditNames(a: Audit, claim: int) {
    && a.attempt == claim
    && (a.outcome.OutcomeCompleted? <==> a.decision.Completed?)
    && (a.outcome.OutcomeRetry? <==> a.decision.Retry?)
    && (a.outcome.OutcomeStale? <==> a.decision.DeadLetter? && a.error == Some(StaleConfigurationVersion))
  }

  ghost predicate WorkerReasoned(s: System, limit: int, worker: Worker) {
    worker.Ending? ==>
      Reasoned(s, limit, worker.local.attempts, worker.verdict.status, worker.verdict.error, worker.verdict.readbackId)
  }

  ghost predicate ClosingReasoned(s: System, limit: int, c: Closing) {
    c.Terminated? ==>
      && AuditNames(c.audit, c.claim)
      && Reasoned(s, limit, c.claim, c.audit.decision, c.audit.error, c.audit.readbackId)
  }

  ghost predicate ReasonInv(s: System, limit: int) {
    && (forall w :: w in s.workers ==> WorkerReasoned(s, limit, s.workers[w]))
    && (forall i :: 0 <= i < |s.closings| ==> ClosingReasoned(s, limit, s.closings[i]))
  }

  lemma StillReasoned(s: System, s': System, limit: int, claim: int, status: Status, error: Option<ErrorClass>,
                      readbackId: Option<Name>)
    requires Informs(s, s') && s.answers <= s'.answers && Reasoned(s, limit, claim, status, error, readbackId)
    ensures Reasoned(s', limit, claim, status, error, readbackId)
  {
    hide DesiredCallsFor, AnswerCallsFor;
    if i :| && 0 <= i < |s.answers| && s.answers[i].claim == claim
            && AnswerCallsFor(s.answers[i].reply, claim, limit, status, error, readbackId) {
      assert s'.answers[i] == s.answers[i];
    } else {
      var i :| && 0 <= i < |s.desires| && s.desires[i].claim == claim
               && DesiredCallsFor(s.desires[i].reply, s.row.control, claim, limit, status, error);
      assert s'.desires[i] == s.desires[i];
    }
  }

  lemma JudgementsCalledFor(local: Row, limit: int, desired: DesiredReply, answer: ReadbackReply)
    ensures JudgeDesired(local, limit, desired).Some? ==>
              var v := JudgeDesired(local, limit, desired).value;
              v.readbackId.None? && DesiredCallsFor(desired, local.control, local.attempts, limit, v.status, v.error)
    ensures var v := JudgeReadback(local, limit, answer);
            AnswerCallsFor(answer, local.attempts, limit, v.status, v.error, v.readbackId)
  {
  }

  lemma StepAnswers(s: System, limit: int, step: Step)
    ensures s.answers <= Apply(s, limit, step).answers
  {
    hide AuditOf, JudgeDesired, JudgeReadback, Ended, RecoverRow, ClaimRow, Observed;
  }

  lemma MoverReasoned(s: System, limit: int, step: Step)
    requires KeysInv(s) && !step.Claim? && !step.Recover?
    requires WorkerReasoned(s, limit, WorkerOf(s, step.worker))
    ensures WorkerReasoned(Apply(s, limit, step), limit, WorkerOf(Apply(s, limit, step), step.worker))
  {
    hide JudgeDesired, JudgeReadback, AuditOf, Ended, DesiredCallsFor, AnswerCallsFor, KeysInv;
    WorkerAccounted(s, step.worker);
    var worker, s' := WorkerOf(s, step.worker), Apply(s, limit, step);
    match step
    case ReadDesired(w, desired) =>
      if worker.Loaded? {
        JudgementsCalledFor(worker.local, limit, desired, ReadbackFault(Rejected));
        assert s'.desires[|s.desires|] == DesiredRead(worker.local.attempts, desired);
      }
    case Answer(w, answer) =>
      if worker.Awaiting? {
        JudgementsCalledFor(worker.local, limit, DesiredMalformed, answer);
        assert s'.answers[|s.answers|] == Answered(worker.local.attempts, answer);
      }
    case _ =>
  }

  lemma NewReasoned(s: System, limit: int, step: Step)
    requires LimitInv(s, limit)
    requires step.Terminate? ==> WorkerReasoned(s, limit, WorkerOf(s, step.worker))
    ensures var s' := Apply(s, limit, step);
            && s.closings <= s'.closings && |s'.closings| <= |s.closings| + 1
            && (|s'.closings| > |s.closings| ==> ClosingReasoned(s, limit, s'.closings[|s.closings|]))
  {
    hide JudgeDesired, JudgeReadback, Reasoned, ClosingOk, Pow2;
  }

  lemma ReasonsKeep(s: System, limit: int, step: Step)
    requires KeysInv(s) && LimitInv(s, limit) && ReasonInv(s, limit)
    ensures ReasonInv(Apply(s, limit, step), limit)
  {
    hide Apply, KeysInv, LimitInv, Reasoned, AuditNames, Informs;
    var s' := Apply(s, limit, step);
    StepInforms(s, limit, step);
    StepAnswers(s, limit, step);
    if !step.Claim? && !step.Recover? {
      assert WorkerReasoned(s, limit, WorkerOf(s, step.worker));
      MoverReasoned(s, limit, step);
    }
    NewReasoned(s, limit, step);
    forall w | w in s'.workers ensures WorkerReasoned(s', limit, s'.workers[w]) {
      if step.Claim? || step.Recover? || w != step.worker {
        StepLeavesWorkers(s, limit, step, w);
        var worker := s.workers[w];
        if worker.Ending? {
          StillReasoned(s, s', limit, worker.local.attempts, worker.verdict.status, worker.verdict.error,
                        worker.verdict.readbackId);
        }
      }
    }
    forall i | 0 <= i < |s'.closings| ensures ClosingReasoned(s', limit, s'.closings[i]) {
      var c := s'.closings[i];
      assert i < |s.closings| ==> c == s.closings[i];
      if c.Terminated? { StillReasoned(s, s', limit, c.claim, c.audit.decision, c.audit.error, c.audit.readbackId); }
    }
  }

  lemma {:induction false} ReasonsHold(event: OutboxEvent, binding: Option<(Name, Name, Name)>, limit: int,
                                       steps: seq<Step>)
    requires limit >= 1
    ensures ReasonInv(Run(Enrolled(event, binding), limit, steps), limit)
  {
    if steps != [] {
      hide ReasonInv, Apply, KeysInv, LimitInv, ClaimsInv, CopiesInv, AuditsOf;
      var n := |steps| - 1;
      ReasonsHold(event, binding, limit, steps[..n]);
      Reachable(event, binding, limit, steps[..n]);
      ReasonsKeep(Run(Enrolled(event, binding), limit, steps[..n]), limit, steps[n]);
    }
  }

  /**
   Every termination that was ever committed has its reason: a desired state or an answer to a readback,
   received under that very claim, for which the protocol's table prescribes exactly this status, error
   and readback id.  In particular the three retryable faults lead to a retry below the limit.
   */
  lemma EndingsHaveReasons(event: OutboxEvent, binding: Option<(Name, Name, Name)>, limit: int, steps: seq<Step>,
                           i: int)
    requires limit >= 1
    requires var closings := Run(Enrolled(event, binding), limit, steps).closings;
             0 <= i < |closings| && closings[i].Terminated?
    ensures var s := Run(Enrolled(event, binding), limit, steps);
            var a := s.closings[i].audit;
            AuditNames(a, i + 1) && Reasoned(s, limit, i + 1, a.decision, a.error, a.readbackId)
  {
    hide Run, KeysInv, LimitInv, CopiesInv, AuditsOf, Reasoned, AuditNames;
    Reachable(event, binding, limit, steps);
    ReasonsHold(event, binding, limit, steps);
    assert ClosingReasoned(Run(Enrolled(event, binding), limit, steps), limit,
                           Run(Enrolled(event, binding), limit, steps).closings[i]);
  }

  // ---------------------------------------------------------------- what a readback reports

  /** The readback that reports observation `n`, made under a claim of this command. */
  function ReportOf(c: Control, n: int, m: Measured): Readback {
    Readback(c, Some(Random(n)), Some(m.claim), Some(m.observation.effectiveState), Some(m.observation.evidence),
             Some(m.observation.observedAt))
  }

  predicate NotAhead(row: Row) { row.readbackAttempt.Some? ==> row.readbackAttempt.value <= row.attempts }

  ghost predicate MeasuredInv(s: System) {
    && |s.measured| == |s.issued|
    && (forall i :: 0 <= i < |s.issued| ==> s.issued[i] == ReportOf(s.row.control, i, s.measured[i]))
    && NotAhead(s.row)
    && (forall w :: w in s.workers && !s.workers[w].Idle? ==> NotAhead(s.workers[w].local))
    && (forall i :: 0 <= i < |s.sent| && s.sent[i].readback.attempt.Some? ==>
          s.sent[i].readback.attempt.value <= s.sent[i].claim)
  }

  lemma MeasuredKeep(s: System, limit: int, step: Step)
    requires KeysInv(s) && MeasuredInv(s)
    ensures MeasuredInv(Apply(s, limit, step))
  {
    hide JudgeDesired, JudgeReadback, AuditOf, Durable;
  }

  lemma {:induction false} MeasuredHold(event: OutboxEvent, binding: Option<(Name, Name, Name)>, limit: int,
                                        steps: seq<Step>)
    requires limit >= 1
    ensures MeasuredInv(Run(Enrolled(event, binding), limit, steps))
  {
    if steps != [] {
      hide MeasuredInv, Apply, KeysInv, LimitInv, ClaimsInv, CopiesInv, AuditsOf;
      var n := |steps| - 1;
      MeasuredHold(event, binding, limit, steps[..n]);
      Reachable(event, binding, limit, steps[..n]);
      MeasuredKeep(Run(Enrolled(event, binding), limit, steps[..n]), limit, steps[n]);
    }
  }

  /**
   Every readback ever sent reports, under the key drawn for it and for this very command, an
   observation that the adapter made under the sending claim or an earlier one: state, evidence, time
   of observation and attempt are those of that observation.
   */
  lemma SentWasMeasured(event: OutboxEvent, binding: Option<(Name, Name, Name)>, limit: int, steps: seq<Step>, i: int)
    requires limit >= 1 && 0 <= i < |Run(Enrolled(event, binding), limit, steps).sent|
    ensures var s := Run(Enrolled(event, binding), limit, steps);
            exists n :: && 0 <= n < |s.measured| && s.measured[n].claim <= s.sent[i].claim
                        && s.sent[i].readback == ReportOf(s.row.control, n, s.measured[n])
  {
    hide Run, LimitInv, ClaimsInv, CopiesInv, AuditsOf;
    Reachable(event, binding, limit, steps);
    MeasuredHold(event, binding, limit, steps);
    var s := Run(Enrolled(event, binding), limit, steps);
    assert Durable(s.issued, s.sent[i].readback);
    var n := s.sent[i].readback.key.value.n;
    assert s.issued[n] == ReportOf(s.row.control, n, s.measured[n]);
  }

  // ---------------------------------------------------------------- resending

  /** The three error classes after which Odoo may or may not have received the readback. */
  predicate MayHaveArrived(error: Option<ErrorClass>) {
    error.Some? && error.value in {TransportError, UpstreamUnavailable, RouteUnresolved}
  }

  predicate DrawnSince(base: System, key: Option<Name>) {
    key.Some? && key.value.Random? && key.value.n >= |base.issued|
  }

  /** The record of a copy is the one left behind in `base` or was made since. */
  predicate OldOrNew(base: System, row: Row) {
    && row.lastError == base.row.lastError
    && (row.readbackKey == base.row.readbackKey || DrawnSince(base, row.readbackKey))
  }

  predicate RowRenews(base: System, s: System) {
    && s.row.attempts >= base.row.attempts && |s.issued| >= |base.issued|
    && (s.row.attempts == base.row.attempts ==> s.row == base.row)
    && (s.row.attempts == base.row.attempts + 1 && s.row.status.Reserved? ==> OldOrNew(base, s.row))
  }

  /** A worker of the next claim that is about to send, or has sent, does so under a new key. */
  predicate WorkerRenews(base: System, worker: Worker) {
    !worker.Idle? && worker.local.attempts == base.row.attempts + 1 ==>
      && OldOrNew(base, worker.local)
      && (worker.Sending? || worker.Awaiting? ==> DrawnSince(base, worker.local.readbackKey))
  }

  ghost predicate Renews(base: System, s: System) {
    && RowRenews(base, s)
    && (forall w :: w in s.workers ==> WorkerRenews(base, s.workers[w]))
    && |base.sent| <= |s.sent|
    && (forall i :: |base.sent| <= i < |s.sent| && s.sent[i].claim == base.row.attempts + 1 ==>
          DrawnSince(base, s.sent[i].readback.key))
  }

  lemma RowStepRenews(base: System, s: System, limit: int, step: Step)
    requires base.row.status.Retry? && RowRenews(base, s) && LimitInv(s, limit)
    ensures RowRenews(base, Apply(s, limit, step))
  {
    hide AuditOf, JudgeDesired, JudgeReadback, Pow2, ClosingOk;
  }

  lemma MoverRenews(base: System, s: System, limit: int, step: Step)
    requires base.row.status.Retry? && (base.row.readbackKey.None? || !MayHaveArrived(base.row.lastError))
    requires RowRenews(base, s) && !step.Claim? && !step.Recover? && WorkerRenews(base, WorkerOf(s, step.worker))
    ensures WorkerRenews(base, WorkerOf(Apply(s, limit, step), step.worker))
  {
    hide AuditOf, JudgeDesired, JudgeReadback, Ended;
  }

  lemma SentRenews(base: System, s: System, limit: int, step: Step)
    requires step.Send? ==> WorkerRenews(base, WorkerOf(s, step.worker))
    ensures var s' := Apply(s, limit, step);
            && s.sent <= s'.sent && |s'.sent| <= |s.sent| + 1
            && (|s'.sent| > |s.sent| && s'.sent[|s.sent|].claim == base.row.attempts + 1 ==>
                  DrawnSince(base, s'.sent[|s.sent|].readback.key))
  {
    hide AuditOf, JudgeDesired, JudgeReadback, Ended, RecoverRow, ClaimRow;
  }

  lemma RenewStep(base: System, s: System, limit: int, step: Step)
    requires base.row.status.Retry? && (base.row.readbackKey.None? || !MayHaveArrived(base.row.lastError))
    requires Renews(base, s) && LimitInv(s, limit)
    ensures Renews(base, Apply(s, limit, step))
  {
    hide Apply, LimitInv, RowRenews, DrawnSince, OldOrNew;
    var s' := Apply(s, limit, step);
    RowStepRenews(base, s, limit, step);
    if !step.Claim? && !step.Recover? {
      assert WorkerRenews(base, WorkerOf(s, step.worker));
      MoverRenews(base, s, limit, step);
    }
    SentRenews(base, s, limit, step);
    forall w | w in s'.workers ensures WorkerRenews(base, s'.workers[w]) {
      if step.Claim? || step.Recover? || w != step.worker { StepLeavesWorkers(s, limit, step, w); }
    }
  }

  lemma {:induction false} RenewRun(base: System, limit: int, steps: seq<Step>)
    requires Inv(base, limit) && base.row.status.Retry?
    requires base.row.readbackKey.None? || !MayHaveArrived(base.row.lastError)
    ensures Renews(base, Run(base, limit, steps))
  {
    hide Apply, LimitInv, KeysInv, AuditsOf, ClaimsInv;
    if steps != [] {
      hide Renews;
      RenewRun(base, limit, steps[..|steps| - 1]);
      RunKeeps(base, limit, steps[..|steps| - 1]);
      RenewStep(base, Run(base, limit, steps[..|steps| - 1]), limit, steps[|steps| - 1]);
    }
  }

  lemma RecordedIsComplete(s: System, limit: int)
    requires Inv(s, limit) && MeasuredInv(s) && s.row.readbackKey.Some?
    ensures s.row.effectiveState.Some? && s.row.observedAt.Some?
  {
    hide LimitInv, ClaimsInv, CopiesInv, AuditsOf;
    assert Durable(s.issued, ReadbackOf(s.row));
  }

  /**
   What the claim after a failure reports, from any reachable system whose row waits for a retry: the
   very readback on record if there is one and the failure was a transport failure, an unavailable
   upstream or an unresolved route, and otherwise only readbacks of new observations under new keys.
   */
  lemma NextClaimResendsIff(event: OutboxEvent, binding: Option<(Name, Name, Name)>, limit: int, first: seq<Step>,
                            steps: seq<Step>, i: int)
    requires limit >= 1 && Run(Enrolled(event, binding), limit, first).row.status.Retry?
    requires var base := Run(Enrolled(event, binding), limit, first);
             var s := Run(base, limit, steps);
             |base.sent| <= i < |s.sent| && s.sent[i].claim == base.row.attempts + 1
    ensures var base := Run(Enrolled(event, binding), limit, first);
            var s := Run(base, limit, steps);
            if base.row.readbackKey.Some? && MayHaveArrived(base.row.lastError)
            then s.sent[i].readback == ReadbackOf(base.row)
            else DrawnSince(base, s.sent[i].readback.key)
  {
    hide Run, Inv, MeasuredInv;
    var base := Run(Enrolled(event, binding), limit, first);
    Reachable(event, binding, limit, first);
    MeasuredHold(event, binding, limit, first);
    if base.row.readbackKey.Some? && MayHaveArrived(base.row.lastError) {
      RecordedIsComplete(base, limit);
      ResendAfterTransportFailure(base, limit, steps, i);
    } else {
      RenewRun(base, limit, steps);
    }
  }

  // ---------------------------------------------------------------- which commands run

  lemma {:induction false} ControlIsFixed(s: System, limit: int, steps: seq<Step>)
    ensures Run(s, limit, steps).row.control == s.row.control
  {
    hide Apply;
    if steps != [] {
      ControlIsFixed(s, limit, steps[..|steps| - 1]);
      StepInforms(Run(s, limit, steps[..|steps| - 1]), limit, steps[|steps| - 1]);
    }
  }

  /** The event is valid, and in a bound environment it names exactly the bound campaign. */
  predicate Admissible(event: OutboxEvent, binding: Option<(Name, Name, Name)>) {
    && event.validated.Some?
    && (binding.Some? ==> && event.validated.value.organization == binding.value.0
                          && event.validated.value.businessUnit == binding.value.1
                          && event.validated.value.campaign == binding.value.2)
  }

  /**
   Only valid commands for the campaign an environment is bound to ever run.  Any other event leaves a
   dead letter that no run changes; an admissible one keeps its control fields and, until it is first
   claimed, waits.
   */
  lemma OnlyAdmissibleCommandsRun(event: OutboxEvent, binding: Option<(Name, Name, Name)>, limit: int,
                                  steps: seq<Step>)
    requires limit >= 1
    ensures var row := Run(Enrolled(event, binding), limit, steps).row;
            if Admissible(event, binding)
            then row.control == event.validated.value && (row.attempts == 0 ==> row.status.Pending?)
            else && row.attempts == 0 && row.status.DeadLetter?
                 && row.control == (if event.validated.Some? then event.validated.value else event.salvaged)
                 && row.lastError == Some(if event.validated.Some? then ScopeNotAllowed else InvalidControlEvent)
  {
    var start := Enrolled(event, binding);
    ControlIsFixed(start, limit, steps);
    if Admissible(event, binding) {
      WaitsUntilClaimed(start, limit, steps);
    } else {
      TerminalRowIsFinal(start, limit, steps);
    }
  }

  lemma {:induction false} WaitsUntilClaimed(s: System, limit: int, steps: seq<Step>)
    requires s.row.status.Pending? && s.row.attempts == 0 && s.workers == map[]
    ensures var s' := Run(s, limit, steps);
            && s'.row.attempts >= 0
            && (s'.row.attempts == 0 ==> s'.row.status.Pending? && forall w :: w in s'.workers ==> s'.workers[w].Idle?)
  {
    if steps != [] {
      var n := |steps| - 1;
      WaitsUntilClaimed(s, limit, steps[..n]);
      WaitingStep(Run(s, limit, steps[..n]), limit, steps[n]);
    }
  }

  lemma WaitingStep(s: System, limit: int, step: Step)
    requires s.row.attempts >= 0
    requires s.row.attempts == 0 ==> s.row.status.Pending? && forall w :: w in s.workers ==> s.workers[w].Idle?
    ensures var s' := Apply(s, limit, step);
            && s'.row.attempts >= 0
            && (s'.row.attempts == 0 ==> s'.row.status.Pending? && forall w :: w in s'.workers ==> s'.workers[w].Idle?)
  {
    hide AuditOf, JudgeDesired, JudgeReadback;
  }
}
