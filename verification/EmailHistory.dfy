/**
 Repetitions of control calls, and what becomes of reservations, over whole runs of email production
 control.
 */
module EmailHistory {
  import opened Identities
  import opened EmailControl
  import opened EmailTheorems
  import opened PolicyTheorems

  // ---------------------------------------------------------------- repeated calls

  lemma StepKeepsRecords(y: Control, step: Step, key: MutationKey)
    requires key in y.mutations
    ensures key in Apply(y, step).mutations && Apply(y, step).mutations[key] == y.mutations[key]
  {
    hide Transform, ValidPolicy, Activatable, ValidAuthorization, SendersCovered, Admit, UsageAt, Exhausted, PolicyOf;
  }

  lemma {:induction false} RunKeepsRecords(y: Control, steps: seq<Step>, key: MutationKey)
    requires key in y.mutations
    ensures key in Run(y, steps).mutations && Run(y, steps).mutations[key] == y.mutations[key]
  {
    hide Apply;
    if steps != [] {
      RunKeepsRecords(y, steps[..|steps| - 1], key);
      StepKeepsRecords(Run(y, steps[..|steps| - 1]), steps[|steps| - 1], key);
    }
  }

  lemma {:induction false} VersionsGrow(y: Control, steps: seq<Step>, tenant: Name)
    ensures PolicyOf(y.policies, tenant).version <= PolicyOf(Run(y, steps).policies, tenant).version
  {
    hide Apply;
    if steps != [] {
      VersionsGrow(y, steps[..|steps| - 1], tenant);
      OnlyAuthorizationWidens(Run(y, steps[..|steps| - 1]), steps[|steps| - 1], tenant);
    }
  }

  lemma AcceptedIsRecorded(y: Control, tenant: Name, action: Action, actor: string, key: Name, version: int,
                           reason: Name, request: Request, change: Change, now: Time)
    requires Mutate(y, tenant, action, actor, key, version, reason, request, change, now).1.Ok?
    ensures var (y', r) := Mutate(y, tenant, action, actor, key, version, reason, request, change, now);
            var m := MutationKey(tenant, action, actor, key);
            && m in y'.mutations && y'.mutations[m] == Mutation(request, r.value)
            && (IsNew(y, tenant, action, actor, key) ==> PolicyOf(y'.policies, tenant).version == version + 1)
  {
    hide Transform, ValidPolicy;
  }

  lemma RecordedIsAnswered(y: Control, tenant: Name, action: Action, actor: string, key: Name, version: int,
                           reason: Name, request: Request, change: Change, now: Time)
    requires MutationKey(tenant, action, actor, key) in y.mutations
    ensures var m := y.mutations[MutationKey(tenant, action, actor, key)];
            Mutate(y, tenant, action, actor, key, version, reason, request, change, now)
            == (y, if m.request == request then Ok(m.response) else Err(Conflict))
  {
    hide Transform, ValidPolicy;
  }

  /**
   However a run goes on, a repeated authorization gets the answer of the first one and changes nothing,
   and one that reuses the key for another content is refused.
   */
  lemma RepeatedAuthorization(y: Control, tenant: Name, actor: string, key: Name, b: Authorization, now: Time,
                              later: seq<Step>, other: Authorization, at: Time)
    requires Authorize(y, tenant, actor, key, b, now).1.Ok?
    ensures var (y', r) := Authorize(y, tenant, actor, key, b, now);
            var z := Run(y', later);
            && Authorize(z, tenant, actor, key, b, at) == (z, r)
            && (other != b ==> Authorize(z, tenant, actor, key, other, at).0 == z
                               && Authorize(z, tenant, actor, key, other, at).1.Err?)
  {
    hide Mutate, Run, ValidAuthorization, SendersCovered;
    AcceptedIsRecorded(y, tenant, AuthorizeAction, actor, key, b.expectedVersion, b.reason, AuthorizeRequest(b),
                       Authorizing(b), now);
    var y' := Authorize(y, tenant, actor, key, b, now).0;
    RunKeepsRecords(y', later, MutationKey(tenant, AuthorizeAction, actor, key));
    RecordedIsAnswered(Run(y', later), tenant, AuthorizeAction, actor, key, b.expectedVersion, b.reason,
                       AuthorizeRequest(b), Authorizing(b), at);
    RecordedIsAnswered(Run(y', later), tenant, AuthorizeAction, actor, key, other.expectedVersion, other.reason,
                       AuthorizeRequest(other), Authorizing(other), at);
  }

  /** However a run goes on, a repeated revocation gets the answer of the first one and changes nothing. */
  lemma RepeatedRevocation(y: Control, tenant: Name, actor: string, key: Name, version: int, reason: Name, now: Time,
                           later: seq<Step>, at: Time)
    requires Revoke(y, tenant, actor, key, version, reason, now).1.Ok?
    ensures var (y', r) := Revoke(y, tenant, actor, key, version, reason, now);
            Revoke(Run(y', later), tenant, actor, key, version, reason, at) == (Run(y', later), r)
  {
    hide Mutate, Run;
    AcceptedIsRecorded(y, tenant, RevokeAction, actor, key, version, reason, ControlRequest(version, reason),
                       Revoking, now);
    var y' := Revoke(y, tenant, actor, key, version, reason, now).0;
    RunKeepsRecords(y', later, MutationKey(tenant, RevokeAction, actor, key));
    RecordedIsAnswered(Run(y', later), tenant, RevokeAction, actor, key, version, reason,
                       ControlRequest(version, reason), Revoking, at);
  }

  /**
   An activation is different: its version is compared before its key is looked up, so however a run
   goes on, a repeated activation is never answered from the record but always conflicts.
   */
  lemma RepeatedActivationConflicts(y: Control, tenant: Name, actor: string, key: Name, version: int, reason: Name,
                                    settings: Settings, registry: map<string, DomainRecord>, now: Time,
                                    later: seq<Step>, at: Time)
    requires IsNew(y, tenant, ActivateAction, actor, key)
    requires Activate(y, tenant, actor, key, version, reason, settings, registry, now).1.Ok?
    ensures var z := Run(Activate(y, tenant, actor, key, version, reason, settings, registry, now).0, later);
            Activate(z, tenant, actor, key, version, reason, settings, registry, at) == (z, Err(Conflict))
  {
    hide Mutate, Run, Activatable;
    AcceptedIsRecorded(y, tenant, ActivateAction, actor, key, version, reason, ControlRequest(version, reason),
                       Activating, now);
    VersionsGrow(Activate(y, tenant, actor, key, version, reason, settings, registry, now).0, later, tenant);
  }

  /**
   A repeated switching call gets the answer of the first one if it closes the switch; if it opens it, it
   does so exactly while the policy is active and could be activated, and is blocked otherwise.
   */
  lemma RepeatedSwitch(y: Control, tenant: Name, actor: string, key: Name, version: int, reason: Name, open: bool,
                       settings: Settings, registry: map<string, DomainRecord>, now: Time, later: seq<Step>, at: Time)
    requires SetKillSwitch(y, tenant, actor, key, version, reason, open, settings, registry, now).1.Ok?
    ensures var (y', r) := SetKillSwitch(y, tenant, actor, key, version, reason, open, settings, registry, now);
            var z := Run(y', later);
            var p := PolicyOf(z.policies, tenant);
            SetKillSwitch(z, tenant, actor, key, version, reason, open, settings, registry, at)
            == (z, if open && !(p.state.Active? && Activatable(p, settings, registry, at)) then Err(Blocked) else r)
  {
    hide Mutate, Run, Activatable;
    var action := if open then OpenAction else CloseAction;
    AcceptedIsRecorded(y, tenant, action, actor, key, version, reason, SwitchRequest(version, reason, open),
                       Switching(open), now);
    var y' := SetKillSwitch(y, tenant, actor, key, version, reason, open, settings, registry, now).0;
    RunKeepsRecords(y', later, MutationKey(tenant, action, actor, key));
    RecordedIsAnswered(Run(y', later), tenant, action, actor, key, version, reason,
                       SwitchRequest(version, reason, open), Switching(open), at);
  }

  // ---------------------------------------------------------------- what becomes of a reservation

  /** The i-th step of a run from the start is how the submission behind the reservation came back. */
  ghost predicate SettledAt(steps: seq<Step>, i: int, id: Name) requires 0 <= i < |steps| {
    steps[i].SettleStep? && steps[i].id == id && id in Run(START, steps[..i]).pending
  }

  /** The message never reached the queue: it was a duplicate or was suppressed. */
  ghost predicate GivenBackAt(steps: seq<Step>, i: int, id: Name) requires 0 <= i < |steps| {
    SettledAt(steps, i, id) && steps[i].settlement.DuplicateOrSuppressed?
  }

  /** The message reached the queue, whether or not the submission went on to fail. */
  ghost predicate EnqueuedAt(steps: seq<Step>, i: int, id: Name) requires 0 <= i < |steps| {
    SettledAt(steps, i, id) && steps[i].settlement in {Accepted, Failed(true)}
  }

  ghost predicate GivenBack(steps: seq<Step>, id: Name) {
    exists i :: 0 <= i < |steps| && GivenBackAt(steps, i, id)
  }

  ghost predicate Enqueued(steps: seq<Step>, id: Name) {
    exists i :: 0 <= i < |steps| && EnqueuedAt(steps, i, id)
  }

  lemma SettlingStep(y: Control, step: Step, id: Name)
    ensures var y' := Apply(y, step);
            var settles := step.SettleStep? && step.id == id && id in y.pending;
            && (id in y'.releases <==> id in y.releases || (settles && step.settlement.DuplicateOrSuppressed?))
            && (id in y'.queued <==> id in y.queued || (settles && step.settlement in {Accepted, Failed(true)}))
            && (settles && id in y'.queued && id !in y.queued ==> y'.queued[id] == Mail(y.pending[id], step.at))
            && (settles ==> id !in y'.pending)
  {
    hide Authorize, Activate, Revoke, SetKillSwitch, PolicyOf, Admit, UsageAt, Exhausted;
    if !step.GuardStep? && !step.SettleStep? { ControlKeepsMail(y, step); }
  }

  lemma PrefixAgrees(steps: seq<Step>, i: int, id: Name)
    requires 0 <= i < |steps| - 1
    ensures SettledAt(steps[..|steps| - 1], i, id) == SettledAt(steps, i, id)
    ensures steps[..|steps| - 1][i] == steps[i]
  {
    assert steps[..|steps| - 1][..i] == steps[..i];
  }

  /**
   The units of a reservation are given back exactly when its message is known not to have been queued,
   and a message is queued exactly when its submission was accepted or failed after queueing.  A
   submission that failed before queueing keeps its units charged.
   */
  lemma {:induction false} ReservationsSettle(steps: seq<Step>, id: Name)
    ensures id in Run(START, steps).releases <==> GivenBack(steps, id)
    ensures id in Run(START, steps).queued <==> Enqueued(steps, id)
  {
    hide Apply;
    if steps != [] {
      hide Run;
      var n := |steps| - 1;
      var first := steps[..n];
      ReservationsSettle(first, id);
      RunLast(steps);
      SettlingStep(Run(START, first), steps[n], id);
      forall i | 0 <= i < n
        ensures SettledAt(first, i, id) == SettledAt(steps, i, id) && first[i] == steps[i]
      {
        PrefixAgrees(steps, i, id);
      }
      assert GivenBack(steps, id) <==> GivenBack(first, id) || GivenBackAt(steps, n, id) by {
        if i :| 0 <= i < |first| && GivenBackAt(first, i, id) { assert GivenBackAt(steps, i, id); }
        if i :| 0 <= i < |steps| && GivenBackAt(steps, i, id) && i != n { assert GivenBackAt(first, i, id); }
      }
      assert Enqueued(steps, id) <==> Enqueued(first, id) || EnqueuedAt(steps, n, id) by {
        if i :| 0 <= i < |first| && EnqueuedAt(first, i, id) { assert EnqueuedAt(steps, i, id); }
        if i :| 0 <= i < |steps| && EnqueuedAt(steps, i, id) && i != n { assert EnqueuedAt(first, i, id); }
      }
    }
  }

  lemma RunLast(steps: seq<Step>)
    requires steps != []
    ensures Run(START, steps) == Apply(Run(START, steps[..|steps| - 1]), steps[|steps| - 1])
  {
    hide Apply;
  }
}
