/**
 What the campaign saga keeps in every interleaving of workers, claims and lease recovery.
 */
module SagaTheorems {
  import opened Identities
  import opened CampaignSaga

  // ---------------------------------------------------------------- claims and their endings

  /** Claims end one after the other; the open claim, if any, is the newest. */
  predicate ClaimsInv(s: System) {
    && (s.row.status.Reserved? <==> s.row.reservedAt.Some?)
    && |s.closings| == s.row.attempts - (if s.row.status.Reserved? then 1 else 0)
    && (forall i :: 0 <= i < |s.closings| ==> s.closings[i].claim == i + 1)
  }

  function AuditsOf(closings: seq<Closing>): seq<Audit> {
    if closings == [] then []
    else
      var last := closings[|closings| - 1];
      AuditsOf(closings[..|closings| - 1]) + if last.Terminated? then [last.audit] else []
  }

  lemma AuditsAppend(closings: seq<Closing>, c: Closing)
    ensures AuditsOf(closings + [c]) == AuditsOf(closings) + if c.Terminated? then [c.audit] else []
  {
    assert (closings + [c])[..|closings|] == closings;
  }

  /** No copy is ahead of the row. */
  ghost predicate CopiesInv(s: System) {
    forall w :: w in s.workers && !s.workers[w].Idle? ==> 0 < s.workers[w].local.attempts <= s.row.attempts
  }

  // ---------------------------------------------------------------- the retry limit

  predicate VerdictOk(limit: int, attempts: int, v: Verdict) {
    && !v.status.Pending? && !v.status.Reserved?
    && (v.status.Retry? ==> attempts < limit && v.backoff == 5 * Pow2(attempts - 1))
  }

  /**
   A termination leaves a retry exactly when it decided on one, 5 * 2^(claim-1) seconds later and only
   below the limit; a recovery leaves one at once, below the limit.
   */
  predicate ClosingOk(limit: int, c: Closing) {
    match c
    case Terminated(claim, at, retryAt, audit) =>
      && (audit.decision.Retry? ==> claim < limit && retryAt == Some(at + 5 * Pow2(claim - 1)))
      && (!audit.decision.Retry? ==> retryAt.None?)
    case Recovered(claim, at, retryAt) => retryAt == if claim < limit then Some(at) else None
  }

  ghost predicate LimitInv(s: System, limit: int) {
    && s.row.attempts <= limit
    && (s.row.status.Pending? || s.row.status.Retry? ==> s.row.attempts < limit)
    && (forall i :: 0 <= i < |s.closings| ==> ClosingOk(limit, s.closings[i]))
    && (forall w :: w in s.workers && s.workers[w].Ending? ==>
          VerdictOk(limit, s.workers[w].local.attempts, s.workers[w].verdict))
  }

  // ---------------------------------------------------------------- readback keys

  /** The contents are those made durable under their key. */
  predicate Durable(issued: seq<Readback>, r: Readback) {
    && r.key.Some? && r.key.value.Random?
    && 0 <= r.key.value.n < |issued|
    && issued[r.key.value.n] == r
  }

  ghost predicate KeysInv(s: System) {
    && (s.row.readbackKey.Some? ==> Durable(s.issued, ReadbackOf(s.row)))
    && (forall w :: w in s.workers && !s.workers[w].Idle? && s.workers[w].local.readbackKey.Some?
          ==> Durable(s.issued, ReadbackOf(s.workers[w].local)))
    && (forall w :: w in s.workers && (s.workers[w].Sending? || s.workers[w].Awaiting?)
          ==> s.workers[w].local.readbackKey.Some?)
    && (forall i :: 0 <= i < |s.sent| ==> Durable(s.issued, s.sent[i].readback))
    && (forall w :: w in s.workers && !s.workers[w].Idle? ==> s.workers[w].local.control == s.row.control)
  }

  ghost predicate Inv(s: System, limit: int) {
    ClaimsInv(s) && CopiesInv(s) && LimitInv(s, limit) && KeysInv(s) && s.audits == AuditsOf(s.closings)
  }

  lemma EnrolledInv(event: OutboxEvent, binding: Option<(Name, Name, Name)>, limit: int)
    requires limit >= 1
    ensures Inv(Enrolled(event, binding), limit)
  {
  }

  // ---------------------------------------------------------------- every step keeps the invariant

  lemma JudgementsOk(local: Row, limit: int, desired: DesiredReply, answer: ReadbackReply)
    ensures JudgeDesired(local, limit, desired).Some? ==>
              VerdictOk(limit, local.attempts, JudgeDesired(local, limit, desired).value)
    ensures VerdictOk(limit, local.attempts, JudgeReadback(local, limit, answer))
  {
  }

  lemma ClaimsKeep(s: System, limit: int, step: Step)
    requires ClaimsInv(s) && LimitInv(s, limit)
    ensures ClaimsInv(Apply(s, limit, step))
  {
    hide AuditOf, JudgeDesired, JudgeReadback, Pow2;
  }

  lemma AuditsKeep(s: System, limit: int, step: Step)
    requires s.audits == AuditsOf(s.closings)
    ensures Apply(s, limit, step).audits == AuditsOf(Apply(s, limit, step).closings)
  {
    hide AuditOf, JudgeDesired, JudgeReadback, AuditsOf, Ended, RecoverRow, ClaimRow;
    var s' := Apply(s, limit, step);
    if s'.closings != s.closings {
      AuditsAppend(s.closings, s'.closings[|s.closings|]);
    }
  }

  lemma CopiesKeep(s: System, limit: int, step: Step)
    requires ClaimsInv(s) && CopiesInv(s)
    ensures CopiesInv(Apply(s, limit, step))
  {
    hide AuditOf, JudgeDesired, JudgeReadback;
  }

  lemma LimitKeep(s: System, limit: int, step: Step)
    requires ClaimsInv(s) && LimitInv(s, limit)
    ensures LimitInv(Apply(s, limit, step), limit)
  {
    hide OutcomeOf, JudgeDesired, JudgeReadback, Pow2;
    match step
    case ReadDesired(w, desired) =>
      if WorkerOf(s, w).Loaded? { JudgementsOk(WorkerOf(s, w).local, limit, desired, ReadbackFault(Rejected)); }
    case Answer(w, answer) =>
      if WorkerOf(s, w).Awaiting? { JudgementsOk(WorkerOf(s, w).local, limit, DesiredMalformed, answer); }
    case _ =>
  }

  /** Replacing one worker by one whose copy is already accounted for. */
  lemma PutKeepsKeys(s: System, w: Name, worker: Worker)
    requires KeysInv(s)
    requires !worker.Idle? ==> worker.local.control == s.row.control
    requires !worker.Idle? && worker.local.readbackKey.Some? ==> Durable(s.issued, ReadbackOf(worker.local))
    requires worker.Sending? || worker.Awaiting? ==> worker.local.readbackKey.Some?
    ensures KeysInv(Put(s, w, worker))
  {
  }

  /** Changing columns of the row other than the control and observation columns. */
  lemma RowKeepsKeys(s: System, row: Row)
    requires KeysInv(s) && ReadbackOf(row) == ReadbackOf(s.row)
    ensures KeysInv(s.(row := row))
  {
  }

  lemma IssueKeepsKeys(s: System, w: Name, o: Observation)
    requires KeysInv(s) && WorkerOf(s, w).Deciding?
    ensures KeysInv(ObserveStep(s, w, WorkerOf(s, w).local, o))
  {
    var local := WorkerOf(s, w).local;
    if Owns(s.row, local) {
      var key := Random(|s.issued|);
      var copy := Observed(local, o, key, local.attempts);
      var grown := s.(issued := s.issued + [ReadbackOf(copy)]);
      assert KeysInv(grown);
      var written := grown.(row := Observed(s.row, o, key, local.attempts));
      assert KeysInv(written);
      PutKeepsKeys(written, w, Sending(copy));
    } else {
      PutKeepsKeys(s, w, Idle);
    }
  }

  lemma KeysKeep(s: System, limit: int, step: Step)
    requires KeysInv(s)
    ensures KeysInv(Apply(s, limit, step))
  {
    hide KeysInv, JudgeDesired, JudgeReadback, AuditOf;
    var s' := Apply(s, limit, step);
    if step.Claim? || step.Recover? {
      RowKeepsKeys(s, s'.row);
      AppendClosings(s.(row := s'.row), s'.closings, s'.audits, s'.desires, s'.answers);
    } else {
      var w := step.worker;
      var worker := WorkerOf(s, w);
      WorkerAccounted(s, w);
      if step.Observe? && worker.Deciding? && !ReusableObservation(worker.local) {
        IssueKeepsKeys(s, w, step.observation);
      } else if s' != s {
        PutKeepsKeys(s, w, s'.workers[w]);
        var put := Put(s, w, s'.workers[w]);
        RowKeepsKeys(put, s'.row);
        AppendClosings(put.(row := s'.row), s'.closings, s'.audits, s'.desires, s'.answers);
        if step.Send? { AppendSent(put, worker.local); }
      }
    }
  }

  lemma WorkerAccounted(s: System, w: Name)
    requires KeysInv(s)
    ensures var worker := WorkerOf(s, w);
            && (!worker.Idle? ==> worker.local.control == s.row.control)
            && (!worker.Idle? && worker.local.readbackKey.Some? ==> Durable(s.issued, ReadbackOf(worker.local)))
            && (worker.Sending? || worker.Awaiting? ==> worker.local.readbackKey.Some?)
            && (s.row.readbackKey.Some? ==> Durable(s.issued, ReadbackOf(s.row)))
  {
  }

  lemma AppendClosings(s: System, closings: seq<Closing>, audits: seq<Audit>, desires: seq<DesiredRead>,
                       answers: seq<Answered>)
    requires KeysInv(s)
    ensures KeysInv(s.(closings := closings, audits := audits, desires := desires, answers := answers))
  {
  }

  lemma AppendSent(s: System, local: Row)
    requires KeysInv(s) && Durable(s.issued, ReadbackOf(local))
    ensures KeysInv(s.(sent := s.sent + [Sent(local.attempts, ReadbackOf(local))]))
  {
  }

  lemma StepKeeps(s: System, limit: int, step: Step)
    requires Inv(s, limit)
    ensures Inv(Apply(s, limit, step), limit)
  {
    hide ClaimsInv, CopiesInv, LimitInv, KeysInv, AuditsOf, Apply;
    ClaimsKeep(s, limit, step);
    AuditsKeep(s, limit, step);
    CopiesKeep(s, limit, step);
    LimitKeep(s, limit, step);
    KeysKeep(s, limit, step);
  }

  lemma {:induction false} RunKeeps(s: System, limit: int, steps: seq<Step>)
    requires Inv(s, limit)
    ensures Inv(Run(s, limit, steps), limit)
  {
    hide Inv, Apply;
    if steps != [] {
      RunKeeps(s, limit, steps[..|steps| - 1]);
      StepKeeps(Run(s, limit, steps[..|steps| - 1]), limit, steps[|steps| - 1]);
    }
  }

  lemma Reachable(event: OutboxEvent, binding: Option<(Name, Name, Name)>, limit: int, steps: seq<Step>)
    requires limit >= 1
    ensures Inv(Run(Enrolled(event, binding), limit, steps), limit)
  {
    EnrolledInv(event, binding, limit);
    RunKeeps(Enrolled(event, binding), limit, steps);
  }

  // ---------------------------------------------------------------- fencing

  /** Claims 1..n have ended once each, in order, and the audit rows are exactly the committed terminations. */
  lemma OneEndingPerClaim(event: OutboxEvent, binding: Option<(Name, Name, Name)>, limit: int, steps: seq<Step>)
    requires limit >= 1
    ensures var s := Run(Enrolled(event, binding), limit, steps);
            && (forall i :: 0 <= i < |s.closings| ==> s.closings[i].claim == i + 1)
            && |s.closings| == s.row.attempts - (if s.row.status.Reserved? then 1 else 0)
            && s.audits == AuditsOf(s.closings)
  {
    Reachable(event, binding, limit, steps);
  }

  lemma StepGrows(s: System, limit: int, step: Step)
    ensures s.closings <= Apply(s, limit, step).closings
    ensures s.row.attempts <= Apply(s, limit, step).row.attempts
  {
    hide AuditOf, JudgeDesired, JudgeReadback;
  }

  lemma {:induction false} RunGrows(s: System, limit: int, steps: seq<Step>)
    ensures s.closings <= Run(s, limit, steps).closings
    ensures s.row.attempts <= Run(s, limit, steps).row.attempts
  {
    hide Apply;
    if steps != [] {
      RunGrows(s, limit, steps[..|steps| - 1]);
      StepGrows(Run(s, limit, steps[..|steps| - 1]), limit, steps[|steps| - 1]);
    }
  }

  /** Everything a worker could write: the row, the endings, the audit rows and the issued keys. */
  predicate WritesNothing(s: System, s': System) {
    s'.row == s.row && s'.closings == s.closings && s'.audits == s.audits && s'.issued == s.issued
  }

  lemma LostClaimWritesNothing(s: System, limit: int, step: Step)
    requires step.Renew? || step.Observe? || step.Terminate?
    requires !WorkerOf(s, step.worker).Idle? && !Owns(s.row, WorkerOf(s, step.worker).local)
    ensures WritesNothing(s, Apply(s, limit, step))
  {
    hide AuditOf, JudgeDesired, JudgeReadback;
  }

  /**
   Once claim `c` has ended, however the run goes on, no renewal, observation or termination by any
   worker that still holds a copy loaded under `c` writes anything.
   */
  lemma EndedClaimIsFenced(s: System, limit: int, later: seq<Step>, c: int, step: Step)
    requires Inv(s, limit) && 1 <= c <= |s.closings|
    requires step.Renew? || step.Observe? || step.Terminate?
    requires var worker := WorkerOf(Run(s, limit, later), step.worker);
             !worker.Idle? && worker.local.attempts == c
    ensures WritesNothing(Run(s, limit, later), Apply(Run(s, limit, later), limit, step))
  {
    hide Run, Apply, LimitInv, KeysInv, CopiesInv, AuditsOf;
    var s' := Run(s, limit, later);
    RunKeeps(s, limit, later);
    RunGrows(s, limit, later);
    assert |s.closings| <= |s'.closings|;
    LostClaimWritesNothing(s', limit, step);
  }

  // ---------------------------------------------------------------- readback idempotency

  /** Any two readbacks ever sent under one idempotency key, by whatever workers, are identical. */
  lemma SameKeySameReadback(event: OutboxEvent, binding: Option<(Name, Name, Name)>, limit: int, steps: seq<Step>,
                            i: int, j: int)
    requires limit >= 1
    requires var sent := Run(Enrolled(event, binding), limit, steps).sent;
             0 <= i < |sent| && 0 <= j < |sent| && sent[i].readback.key == sent[j].readback.key
    ensures var sent := Run(Enrolled(event, binding), limit, steps).sent;
            sent[i].readback.key.Some? && sent[i].readback == sent[j].readback
  {
    hide ClaimsInv, CopiesInv, LimitInv, AuditsOf, Run;
    Reachable(event, binding, limit, steps);
    var s := Run(Enrolled(event, binding), limit, steps);
    assert Durable(s.issued, s.sent[i].readback) && Durable(s.issued, s.sent[j].readback);
  }

  /** The claim after `r` and its workers still see the observation of `r`. */
  predicate SameRecord(r: Row, r': Row) {
    ReadbackOf(r') == ReadbackOf(r) && r'.lastError == r.lastError
  }

  /** Relative to a row left behind by a transport failure, what holds up to the end of the next claim. */
  ghost predicate FollowsUp(base: System, s: System) {
    var next := base.row.attempts + 1;
    && s.row.attempts >= base.row.attempts
    && (s.row.attempts == base.row.attempts ==> s.row == base.row)
    && (s.row.attempts == next && s.row.status.Reserved? ==> SameRecord(base.row, s.row))
    && (forall w :: w in s.workers && !s.workers[w].Idle? && s.workers[w].local.attempts == next
          ==> SameRecord(base.row, s.workers[w].local))
    && |base.sent| <= |s.sent|
    && (forall i :: |base.sent| <= i < |s.sent| && s.sent[i].claim == next
          ==> s.sent[i].readback == ReadbackOf(base.row))
  }

  lemma FollowUpStep(base: System, s: System, limit: int, step: Step)
    requires base.row.status.Retry? && ReusableObservation(base.row)
    requires FollowsUp(base, s) && LimitInv(s, limit)
    ensures FollowsUp(base, Apply(s, limit, step))
  {
    hide AuditOf, JudgeDesired, JudgeReadback, Pow2;
  }

  lemma {:induction false} FollowUpRun(base: System, limit: int, steps: seq<Step>)
    requires Inv(base, limit) && base.row.status.Retry? && ReusableObservation(base.row)
    ensures FollowsUp(base, Run(base, limit, steps))
  {
    hide Apply, LimitInv, KeysInv, AuditsOf, ClaimsInv;
    if steps != [] {
      hide FollowsUp;
      FollowUpRun(base, limit, steps[..|steps| - 1]);
      RunKeeps(base, limit, steps[..|steps| - 1]);
      FollowUpStep(base, Run(base, limit, steps[..|steps| - 1]), limit, steps[|steps| - 1]);
    }
  }

  /**
   A dispatch that follows a transport-class failure with an observation on record resends that very
   readback: every readback sent under the next claim is the one recorded in the row at the failure.
   */
  lemma ResendAfterTransportFailure(base: System, limit: int, steps: seq<Step>, i: int)
    requires Inv(base, limit) && base.row.status.Retry? && ReusableObservation(base.row)
    requires |base.sent| <= i < |Run(base, limit, steps).sent|
    requires Run(base, limit, steps).sent[i].claim == base.row.attempts + 1
    ensures Run(base, limit, steps).sent[i].readback == ReadbackOf(base.row)
  {
    FollowUpRun(base, limit, steps);
  }

  // ---------------------------------------------------------------- stale commands and reports

  /** The dispatch goes on exactly when the desired state names this campaign, version and manifest. */
  lemma JudgedCurrentIff(local: Row, limit: int, reply: DesiredReply)
    ensures JudgeDesired(local, limit, reply).None?
       <==> reply == Desired(local.control.campaign, local.control.configurationVersion, local.control.manifestHash)
  {
  }

  lemma VerdictsOfJudgement(local: Row, limit: int, reply: DesiredReply, answer: ReadbackReply)
    ensures JudgeDesired(local, limit, reply).Some? ==> !JudgeDesired(local, limit, reply).value.status.Completed?
    ensures JudgeReadback(local, limit, answer).status.Completed? <==> answer.ReadbackAccepted?
  {
  }

  /** A dispatch under this claim read a desired state that agrees with the command. */
  predicate Confirmed(s: System, claim: int) {
    DesiredRead(claim, Desired(s.row.control.campaign, s.row.control.configurationVersion, s.row.control.manifestHash))
    in s.desires
  }

  predicate WorkerReported(s: System, worker: Worker) {
    && (worker.Renewing? || worker.Deciding? || worker.Sending? || worker.Awaiting? ==>
          Confirmed(s, worker.local.attempts))
    && (worker.Awaiting? || (worker.Ending? && worker.verdict.status.Completed?) ==>
          Sent(worker.local.attempts, ReadbackOf(worker.local)) in s.sent)
  }

  /** A completion was reported to Odoo under its own claim, with the effective state it is audited with. */
  ghost predicate ClosingReported(s: System, c: Closing) {
    c.Terminated? && c.audit.outcome.OutcomeCompleted? ==>
      exists i :: && 0 <= i < |s.sent| && s.sent[i].claim == c.claim
                  && s.sent[i].readback.effectiveState == c.audit.effectiveState
  }

  /** A completed row ended with its newest claim, under the readback id it carries. */
  predicate CompletedRow(s: System) {
    s.row.status.Completed? ==>
      && |s.closings| > 0 && s.closings[|s.closings| - 1].Terminated?
      && s.closings[|s.closings| - 1].audit.outcome.OutcomeCompleted?
      && s.closings[|s.closings| - 1].audit.readbackId == s.row.readbackId
  }

  ghost predicate ReportInv(s: System) {
    && (forall w :: w in s.workers ==> WorkerReported(s, s.workers[w]))
    && (forall i :: 0 <= i < |s.sent| ==> Confirmed(s, s.sent[i].claim))
    && (forall i :: 0 <= i < |s.closings| ==> ClosingReported(s, s.closings[i]))
    && CompletedRow(s)
  }

  /** `s'` has seen at least what `s` has seen, of the same command. */
  predicate Informs(s: System, s': System) {
    s.sent <= s'.sent && s.desires <= s'.desires && s'.row.control == s.row.control
  }

  lemma StillReported(s: System, s': System, worker: Worker)
    requires Informs(s, s') && WorkerReported(s, worker)
    ensures WorkerReported(s', worker)
  {
    PrefixKeeps(s.sent, s'.sent);
    PrefixKeeps(s.desires, s'.desires);
  }

  lemma PrefixKeeps<T>(a: seq<T>, b: seq<T>)
    requires a <= b
    ensures forall x :: x in a ==> x in b
  {
    forall x | x in a ensures x in b {
      var i :| 0 <= i < |a| && a[i] == x;
      assert b[i] == x;
    }
  }

  lemma StillConfirmed(s: System, s': System, claim: int)
    requires Informs(s, s') && Confirmed(s, claim)
    ensures Confirmed(s', claim)
  {
    PrefixKeeps(s.desires, s'.desires);
  }

  lemma StillClosed(s: System, s': System, c: Closing)
    requires Informs(s, s') && ClosingReported(s, c)
    ensures ClosingReported(s', c)
  {
    if c.Terminated? && c.audit.outcome.OutcomeCompleted? {
      var i :| && 0 <= i < |s.sent| && s.sent[i].claim == c.claim
               && s.sent[i].readback.effectiveState == c.audit.effectiveState;
      assert s'.sent[i] == s.sent[i];
    }
  }

  lemma StepInforms(s: System, limit: int, step: Step)
    ensures Informs(s, Apply(s, limit, step))
  {
    hide AuditOf, JudgeDesired, JudgeReadback;
  }

  /** A step changes no worker but the one that takes it. */
  lemma StepLeavesWorkers(s: System, limit: int, step: Step, v: Name)
    requires step.Claim? || step.Recover? || v != step.worker
    ensures v in Apply(s, limit, step).workers <==> v in s.workers
    ensures v in s.workers ==> Apply(s, limit, step).workers[v] == s.workers[v]
  {
    hide AuditOf, JudgeDesired, JudgeReadback, Ended, RecoverRow, ClaimRow, Observed;
  }

  /** The worker that took the step is in order afterwards. */
  lemma MoverReported(s: System, limit: int, step: Step)
    requires KeysInv(s) && ReportInv(s) && !step.Claim? && !step.Recover?
    ensures WorkerReported(Apply(s, limit, step), WorkerOf(Apply(s, limit, step), step.worker))
  {
    hide JudgeDesired, JudgeReadback, AuditOf, Ended, ReportInv, KeysInv;
    MoverFacts(s, step.worker);
    var worker := WorkerOf(s, step.worker);
    match step
    case ReadDesired(w, desired) =>
      if worker.Loaded? {
        JudgedCurrentIff(worker.local, limit, desired);
        VerdictsOfJudgement(worker.local, limit, desired, ReadbackFault(Rejected));
      }
    case Answer(w, answer) =>
      if worker.Awaiting? { VerdictsOfJudgement(worker.local, limit, DesiredMalformed, answer); }
    case _ =>
  }

  lemma MoverFacts(s: System, w: Name)
    requires KeysInv(s) && ReportInv(s)
    ensures WorkerReported(s, WorkerOf(s, w))
    ensures !WorkerOf(s, w).Idle? ==> WorkerOf(s, w).local.control == s.row.control
  {
  }

  lemma NewClosing(s: System, limit: int, step: Step)
    requires ReportInv(s)
    ensures var s' := Apply(s, limit, step);
            && |s.closings| <= |s'.closings| <= |s.closings| + 1 && s.closings <= s'.closings
            && (|s'.closings| > |s.closings| ==> ClosingReported(s', s'.closings[|s.closings|]))
            && CompletedRow(s')
  {
    hide JudgeDesired, JudgeReadback;
    if step.Terminate? && WorkerOf(s, step.worker).Ending? {
      var worker := WorkerOf(s, step.worker);
      assert WorkerReported(s, worker);
      if worker.verdict.status.Completed? {
        var i :| 0 <= i < |s.sent| && s.sent[i] == Sent(worker.local.attempts, ReadbackOf(worker.local));
        assert s.sent[i].readback.effectiveState == worker.local.effectiveState;
      }
    }
  }

  lemma NewSent(s: System, limit: int, step: Step)
    requires ReportInv(s)
    ensures var s' := Apply(s, limit, step);
            && |s'.sent| <= |s.sent| + 1
            && (|s'.sent| > |s.sent| ==> Confirmed(s, s'.sent[|s.sent|].claim))
  {
    hide JudgeDesired, JudgeReadback, AuditOf, Confirmed;
  }

  lemma ReportsKeep(s: System, limit: int, step: Step)
    requires KeysInv(s) && ReportInv(s)
    ensures ReportInv(Apply(s, limit, step))
  {
    hide Apply, KeysInv, WorkerReported, ClosingReported, Confirmed, CompletedRow;
    var s' := Apply(s, limit, step);
    StepInforms(s, limit, step);
    NewClosing(s, limit, step);
    NewSent(s, limit, step);
    if !step.Claim? && !step.Recover? { MoverReported(s, limit, step); }
    forall w | w in s'.workers ensures WorkerReported(s', s'.workers[w]) {
      if step.Claim? || step.Recover? || w != step.worker {
        StepLeavesWorkers(s, limit, step, w);
        StillReported(s, s', s.workers[w]);
      }
    }
    forall i | 0 <= i < |s'.sent| ensures Confirmed(s', s'.sent[i].claim) {
      if i < |s.sent| { assert s'.sent[i] == s.sent[i]; }
      StillConfirmed(s, s', s'.sent[i].claim);
    }
    forall i | 0 <= i < |s'.closings| ensures ClosingReported(s', s'.closings[i]) {
      if i < |s.closings| {
        assert s'.closings[i] == s.closings[i];
        StillClosed(s, s', s.closings[i]);
      }
    }
  }

  lemma {:induction false} ReportsHold(event: OutboxEvent, binding: Option<(Name, Name, Name)>, limit: int,
                                       steps: seq<Step>)
    requires limit >= 1
    ensures ReportInv(Run(Enrolled(event, binding), limit, steps))
  {
    if steps != [] {
      hide ReportInv, Apply, Inv;
      var n := |steps| - 1;
      ReportsHold(event, binding, limit, steps[..n]);
      Reachable(event, binding, limit, steps[..n]);
      KeysOf(Run(Enrolled(event, binding), limit, steps[..n]), limit);
      ReportsKeep(Run(Enrolled(event, binding), limit, steps[..n]), limit, steps[n]);
    }
  }

  lemma KeysOf(s: System, limit: int)
    requires Inv(s, limit)
    ensures KeysInv(s)
  {
  }

  /**
   Stale commands never report: every readback that was ever sent belongs to a claim under which the
   desired state was read and named exactly this command's campaign, version and manifest.
   */
  lemma OnlyCurrentCommandsReport(event: OutboxEvent, binding: Option<(Name, Name, Name)>, limit: int, steps: seq<Step>,
                                  i: int)
    requires limit >= 1 && 0 <= i < |Run(Enrolled(event, binding), limit, steps).sent|
    ensures var s := Run(Enrolled(event, binding), limit, steps);
            var c := s.row.control;
            exists j :: && 0 <= j < |s.desires| && s.desires[j].claim == s.sent[i].claim
                        && s.desires[j].reply == Desired(c.campaign, c.configurationVersion, c.manifestHash)
  {
    hide Run, WorkerReported, ClosingReported, CompletedRow;
    ReportsHold(event, binding, limit, steps);
    var s := Run(Enrolled(event, binding), limit, steps);
    assert Confirmed(s, s.sent[i].claim);
  }

  /**
   A saga is completed only by a claim under which a readback was sent, audited with the effective
   state of that readback and with the readback id that the row keeps.
   */
  lemma CompletionWasReported(event: OutboxEvent, binding: Option<(Name, Name, Name)>, limit: int, steps: seq<Step>)
    requires limit >= 1 && Run(Enrolled(event, binding), limit, steps).row.status.Completed?
    ensures var s := Run(Enrolled(event, binding), limit, steps);
            && |s.closings| > 0
            && var last := s.closings[|s.closings| - 1];
               && last.Terminated? && last.audit.outcome.OutcomeCompleted? && last.audit.readbackId == s.row.readbackId
               && exists i :: && 0 <= i < |s.sent| && s.sent[i].claim == last.claim
                              && s.sent[i].readback.effectiveState == last.audit.effectiveState
  {
    hide Run, WorkerReported, Confirmed;
    ReportsHold(event, binding, limit, steps);
    var s := Run(Enrolled(event, binding), limit, steps);
    assert ClosingReported(s, s.closings[|s.closings| - 1]);
  }

  // ---------------------------------------------------------------- late readbacks

  /** The claim has not ended. */
  predicate OpenClaim(s: System, claim: int) { s.row.status.Reserved? && s.row.attempts == claim }

  /** A copy of the open claim carries its reservation. */
  ghost predicate ReservationsInv(s: System) {
    forall w :: w in s.workers && !s.workers[w].Idle? && OpenClaim(s, s.workers[w].local.attempts)
                ==> s.workers[w].local.reservedAt == s.row.reservedAt
  }

  lemma ReservationsKeep(s: System, limit: int, step: Step)
    requires CopiesInv(s) && LimitInv(s, limit) && ReservationsInv(s)
    ensures ReservationsInv(Apply(s, limit, step))
  {
    hide AuditOf, JudgeDesired, JudgeReadback;
  }

  lemma {:induction false} ReservationsHold(event: OutboxEvent, binding: Option<(Name, Name, Name)>, limit: int,
                                            steps: seq<Step>)
    requires limit >= 1
    ensures ReservationsInv(Run(Enrolled(event, binding), limit, steps))
  {
    if steps != [] {
      hide ReservationsInv, Apply, ClaimsInv, LimitInv, KeysInv, AuditsOf, CopiesInv;
      var n := |steps| - 1;
      ReservationsHold(event, binding, limit, steps[..n]);
      Reachable(event, binding, limit, steps[..n]);
      ReservationsKeep(Run(Enrolled(event, binding), limit, steps[..n]), limit, steps[n]);
    }
  }

  /**
   The test that guards every database write is exact: it passes if and only if the claim the worker
   loaded is still open, that is, has no ending yet.
   */
  lemma GuardIsExact(event: OutboxEvent, binding: Option<(Name, Name, Name)>, limit: int, steps: seq<Step>, w: Name)
    requires limit >= 1 && !WorkerOf(Run(Enrolled(event, binding), limit, steps), w).Idle?
    ensures var s := Run(Enrolled(event, binding), limit, steps);
            var local := WorkerOf(s, w).local;
            && (Owns(s.row, local) <==> OpenClaim(s, local.attempts))
            && (OpenClaim(s, local.attempts) <==> |s.closings| < local.attempts)
  {
    hide Run, LimitInv, KeysInv, AuditsOf;
    Reachable(event, binding, limit, steps);
    ReservationsHold(event, binding, limit, steps);
  }

  /**
   Sending is no database write and is not guarded: a readback goes out under an open claim exactly
   when the worker's claim still holds the row at that moment, and it goes out either way.
   */
  lemma SentUnderOpenClaimIff(event: OutboxEvent, binding: Option<(Name, Name, Name)>, limit: int, steps: seq<Step>,
                              w: Name)
    requires limit >= 1 && WorkerOf(Run(Enrolled(event, binding), limit, steps), w).Sending?
    ensures var s := Run(Enrolled(event, binding), limit, steps);
            var s' := Apply(s, limit, Send(w));
            && |s'.sent| == |s.sent| + 1
            && (OpenClaim(s', s'.sent[|s.sent|].claim) <==> Owns(s.row, WorkerOf(s, w).local))
  {
    hide Run;
    GuardIsExact(event, binding, limit, steps, w);
  }

  /** What a worker goes through from its load to the moment before it sends. */
  function Prepare(w: Name, control: Control, o: Observation, at: Time): seq<Step> {
    [Load(w), ReadDesired(w, Desired(control.campaign, control.configurationVersion, control.manifestHash)),
     Renew(w, at, 1), Observe(w, o)]
  }

  lemma {:induction false} RunAppend(s: System, limit: int, first: seq<Step>, second: seq<Step>)
    ensures Run(s, limit, first + second) == Run(Run(s, limit, first), limit, second)
  {
    hide Apply;
    if second == [] {
      assert first + second == first;
    } else {
      var n := |second| - 1;
      assert (first + second)[..|first| + n] == first + second[..n];
      RunAppend(s, limit, first, second[..n]);
    }
  }

  lemma RunOne(s: System, limit: int, step: Step)
    ensures Run(s, limit, [step]) == Apply(s, limit, step)
  {
    hide Apply;
    assert [step][..0] == [];
    assert Run(s, limit, []) == s;
  }

  /** A worker that loads a freshly reserved row without a reusable observation gets ready to send. */
  lemma PrepareRuns(s: System, limit: int, w: Name, o: Observation, at: Time)
    requires s.row.status.Reserved? && WorkerOf(s, w).Idle? && !ReusableObservation(s.row)
    ensures var s' := Run(s, limit, Prepare(w, s.row.control, o, at));
            && WorkerOf(s', w).Sending? && WorkerOf(s', w).local == s'.row
            && s'.row == Observed(Renewed(s.row, at, 1), o, Random(|s.issued|), s.row.attempts)
            && s'.sent == s.sent && s'.closings == s.closings
            && (forall v :: v != w ==> WorkerOf(s', v) == WorkerOf(s, v))
  {
    var p := Prepare(w, s.row.control, o, at);
    JudgedCurrentIff(s.row, limit, p[1].desired);
    hide JudgeDesired, Run;
    var s1 := Apply(s, limit, p[0]);
    var s2 := Apply(s1, limit, p[1]);
    var s3 := Apply(s2, limit, p[2]);
    var s4 := Apply(s3, limit, p[3]);
    RunFour(s, limit, p[0], p[1], p[2], p[3]);
    assert p == [p[0], p[1], p[2], p[3]];
  }

  lemma RunFour(s: System, limit: int, a: Step, b: Step, c: Step, d: Step)
    ensures Run(s, limit, [a, b, c, d])
         == Apply(Apply(Apply(Apply(s, limit, a), limit, b), limit, c), limit, d)
  {
    hide Apply;
    assert [a, b, c, d][..3] == [a, b, c] && [a, b, c][..2] == [a, b] && [a, b][..1] == [a];
    RunOne(s, limit, a);
    assert Run(s, limit, [a, b]) == Apply(Run(s, limit, [a]), limit, b);
    assert Run(s, limit, [a, b, c]) == Apply(Run(s, limit, [a, b]), limit, c);
  }

  /** The first worker gets ready and its lease is recovered; the second takes the saga to the moment before it ends. */
  function LateSteps(first: Name, second: Name, control: Control, o: Observation): seq<Step> {
    [Claim(0, 1)] + Prepare(first, control, o, 0) + [Recover(1)] + [Claim(1, 1)] + Prepare(second, control, o, 1)
  }

  lemma FirstIsReady(s: System, limit: int, first: Name, second: Name, o: Observation)
    requires s.row.status.Pending? && s.row.attempts == 0 && s.row.nextAttemptAt.None? && s.row.lastError.None?
    requires s.workers == map[] && limit >= 2 && first != second
    ensures var s' := Run(s, limit, [Claim(0, 1)] + Prepare(first, s.row.control, o, 0) + [Recover(1)] + [Claim(1, 1)]);
            && s'.row.control == s.row.control && s'.row.status.Reserved? && s'.row.attempts == 2
            && !ReusableObservation(s'.row) && s'.sent == s.sent
            && s'.closings == s.closings + [Recovered(1, 1, Some(1))]
            && WorkerOf(s', first).Sending? && WorkerOf(s', first).local.attempts == 1
            && WorkerOf(s', second).Idle?
  {
    var p := Prepare(first, s.row.control, o, 0);
    var s1 := Apply(s, limit, Claim(0, 1));
    RunOne(s, limit, Claim(0, 1));
    RunAppend(s, limit, [Claim(0, 1)], p);
    PrepareRuns(s1, limit, first, o, 0);
    var s2 := Run(s1, limit, p);
    RunAppend(s, limit, [Claim(0, 1)] + p, [Recover(1)]);
    RunOne(s2, limit, Recover(1));
    var s3 := Apply(s2, limit, Recover(1));
    RunAppend(s, limit, [Claim(0, 1)] + p + [Recover(1)], [Claim(1, 1)]);
    RunOne(s3, limit, Claim(1, 1));
    hide Run, Prepare;
    assert WorkerOf(s2, second) == WorkerOf(s1, second);
    assert s3.row.status.Retry? && s3.row.attempts == 1;
  }

  lemma SecondIsReady(s: System, limit: int, first: Name, second: Name, o: Observation)
    requires s.row.status.Pending? && s.row.attempts == 0 && s.row.nextAttemptAt.None? && s.row.lastError.None?
    requires s.workers == map[] && limit >= 2 && first != second
    ensures var s' := Run(s, limit, LateSteps(first, second, s.row.control, o));
            && s'.row.status.Reserved? && s'.row.attempts == 2 && s'.closings == s.closings + [Recovered(1, 1, Some(1))]
            && WorkerOf(s', first).Sending? && WorkerOf(s', first).local.attempts == 1
            && WorkerOf(s', second).Sending? && WorkerOf(s', second).local == s'.row
  {
    var begin := [Claim(0, 1)] + Prepare(first, s.row.control, o, 0) + [Recover(1)] + [Claim(1, 1)];
    FirstIsReady(s, limit, first, second, o);
    RunAppend(s, limit, begin, Prepare(second, s.row.control, o, 1));
    PrepareRuns(Run(s, limit, begin), limit, second, o, 1);
  }

  lemma SecondCompletes(s: System, limit: int, first: Name, second: Name, id: Name)
    requires s.row.status.Reserved? && first != second
    requires WorkerOf(s, second).Sending? && WorkerOf(s, second).local == s.row
    ensures var s' := Run(s, limit, [Send(second), Answer(second, ReadbackAccepted(id)), Terminate(second, 1),
                                     Send(first)]);
            && s'.row.status.Completed?
            && (WorkerOf(s, first).Sending? ==>
                  && |s'.sent| == |s.sent| + 2
                  && s'.sent[|s.sent| + 1].claim == WorkerOf(s, first).local.attempts)
  {
    RunFour(s, limit, Send(second), Answer(second, ReadbackAccepted(id)), Terminate(second, 1), Send(first));
    hide Run, AuditOf, JudgeDesired;
  }

  /**
   A readback can leave for Odoo after its claim has ended, even after the saga is completed: the
   first worker's lease is recovered while it is about to send, the second worker completes the saga,
   and then the first one sends.
   */
  lemma ReadbackAfterCompletion(event: OutboxEvent, binding: Option<(Name, Name, Name)>, limit: int, first: Name,
                                second: Name, o: Observation, id: Name)
    requires limit >= 2 && first != second && event.validated.Some? && InScope(event.validated.value, binding)
    ensures var ending := [Send(second), Answer(second, ReadbackAccepted(id)), Terminate(second, 1), Send(first)];
            var s := Run(Enrolled(event, binding), limit,
                         LateSteps(first, second, event.validated.value, o) + ending);
            && s.row.status.Completed?
            && |s.sent| > 0 && s.sent[|s.sent| - 1].claim == 1 && !OpenClaim(s, 1)
  {
    var start := Enrolled(event, binding);
    var late := LateSteps(first, second, event.validated.value, o);
    SecondIsReady(start, limit, first, second, o);
    hide Run, Apply, LateSteps;
    var s := Run(start, limit, late);
    SecondCompletes(s, limit, first, second, id);
    RunAppend(start, limit, late,
              [Send(second), Answer(second, ReadbackAccepted(id)), Terminate(second, 1), Send(first)]);
    RunKeepsSent(s, limit, [Send(second), Answer(second, ReadbackAccepted(id)), Terminate(second, 1), Send(first)]);
  }

  lemma {:induction false} RunKeepsSent(s: System, limit: int, steps: seq<Step>)
    ensures |s.sent| <= |Run(s, limit, steps).sent|
  {
    hide Apply;
    if steps != [] {
      RunKeepsSent(s, limit, steps[..|steps| - 1]);
      StepInforms(Run(s, limit, steps[..|steps| - 1]), limit, steps[|steps| - 1]);
    }
  }

  // ---------------------------------------------------------------- bounds and finality

  /** No saga is dispatched more than `limit` times, and one waiting for a claim has dispatches left. */
  lemma AttemptsWithinLimit(event: OutboxEvent, binding: Option<(Name, Name, Name)>, limit: int, steps: seq<Step>)
    requires limit >= 1
    ensures var row := Run(Enrolled(event, binding), limit, steps).row;
            row.attempts <= limit && (row.status.Pending? || row.status.Retry? ==> row.attempts < limit)
  {
    Reachable(event, binding, limit, steps);
  }

  /** COMPLETED and DEAD_LETTER rows never change again. */
  lemma {:induction false} TerminalRowIsFinal(s: System, limit: int, steps: seq<Step>)
    requires s.row.status.Completed? || s.row.status.DeadLetter?
    ensures Run(s, limit, steps).row == s.row && Run(s, limit, steps).closings == s.closings
  {
    hide Apply;
    if steps != [] {
      TerminalRowIsFinal(s, limit, steps[..|steps| - 1]);
      TerminalStep(Run(s, limit, steps[..|steps| - 1]), limit, steps[|steps| - 1]);
    }
  }

  lemma TerminalStep(s: System, limit: int, step: Step)
    requires s.row.status.Completed? || s.row.status.DeadLetter?
    ensures Apply(s, limit, step).row == s.row && Apply(s, limit, step).closings == s.closings
  {
    hide AuditOf, JudgeDesired, JudgeReadback;
  }

  /** How long the row was kept from its next claim. */
  function Delay(c: Closing): int { if c.retryAt.Some? then c.retryAt.value - c.at else 0 }

  function TotalDelay(closings: seq<Closing>): int {
    if closings == [] then 0 else TotalDelay(closings[..|closings| - 1]) + Delay(closings[|closings| - 1])
  }

  function Min(a: int, b: int): int { if a < b then a else b }

  lemma {:induction false} DelaySum(closings: seq<Closing>, limit: int)
    requires limit >= 1
    requires forall i :: 0 <= i < |closings| ==> closings[i].claim == i + 1 && ClosingOk(limit, closings[i])
    ensures TotalDelay(closings) <= 5 * (Pow2(Min(|closings|, limit - 1)) - 1)
  {
    if closings == [] {
    } else {
      var n := |closings| - 1;
      DelaySum(closings[..n], limit);
      assert ClosingOk(limit, closings[n]) && closings[n].claim == n + 1;
      PowerGrows(Min(n, limit - 1));
    }
  }

  lemma {:induction false} PowerGrows(n: int)
    requires 0 <= n
    ensures Pow2(0) == 1 <= Pow2(n) && Pow2(n + 1) == 2 * Pow2(n)
  {
    if n > 0 { PowerGrows(n - 1); }
  }

  lemma {:induction false} PowerMonotone(m: int, n: int)
    requires 0 <= m <= n
    ensures 1 <= Pow2(m) <= Pow2(n)
  {
    PowerGrows(m);
    if m < n {
      PowerGrows(n - 1);
      PowerMonotone(m, n - 1);
    }
  }

  /** All the delays the row of a saga ever goes through add up to at most 5 * (2^(limit-1) - 1) seconds. */
  lemma BackoffWithinBudget(event: OutboxEvent, binding: Option<(Name, Name, Name)>, limit: int, steps: seq<Step>)
    requires limit >= 1
    ensures TotalDelay(Run(Enrolled(event, binding), limit, steps).closings) <= 5 * (Pow2(limit - 1) - 1)
  {
    hide CopiesInv, KeysInv, AuditsOf, Run;
    Reachable(event, binding, limit, steps);
    var s := Run(Enrolled(event, binding), limit, steps);
    DelaySum(s.closings, limit);
    PowerMonotone(Min(|s.closings|, limit - 1), limit - 1);
  }
}
