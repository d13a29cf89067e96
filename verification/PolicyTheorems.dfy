/**
 The lifecycle of a tenant's email policy told from outside: what each accepted call leaves in force,
 when a call is accepted, what the guard lets through, and how long a revocation or a closed switch
 holds.  The rules are written out here and do not refer to the functions that carry them out.
 */
module PolicyTheorems {
  import opened Identities
  import opened EmailControl
  import opened EmailTheorems

  // ---------------------------------------------------------------- what the audit log shows

  /** What an audit entry of this action has to show, by the policies before and after it. */
  predicate Legal(e: Audit) {
    var p, q := e.previous, e.next;
    && q.version == p.version + 1
    && match e.action
       case AuthorizeAction =>
         && q.enabled && q.state.AuthorizedNotActive? && !q.killSwitchOpen
         && q.approvedBy == Some(e.actor) && q.activatedBy.None? && q.activatedAt.None?
         && q.authorizedAt == Some(q.updatedAt)
       case ActivateAction =>
         && p.state.AuthorizedNotActive?
         && q == p.(state := Active, activatedBy := Some(e.actor), activatedAt := Some(q.updatedAt),
                    killSwitchOpen := true, version := q.version, updatedAt := q.updatedAt)
       case RevokeAction =>
         q == p.(enabled := false, state := Revoked, mode := Safe, killSwitchOpen := false, version := q.version,
                 updatedAt := q.updatedAt)
       case OpenAction =>
         p.state.Active? && q == p.(killSwitchOpen := true, version := q.version, updatedAt := q.updatedAt)
       case CloseAction => q == p.(killSwitchOpen := false, version := q.version, updatedAt := q.updatedAt)
  }

  /** The control call on this tenant was accepted and is no repetition. */
  predicate Changes(y: Control, step: Step, tenant: Name) {
    PolicyOf(Apply(y, step).policies, tenant) != PolicyOf(y.policies, tenant)
  }

  function ActionOf(step: Step): Option<Action> {
    match step
    case AuthorizeStep(_, _, _, _, _) => Some(AuthorizeAction)
    case ActivateStep(_, _, _, _, _, _, _, _) => Some(ActivateAction)
    case RevokeStep(_, _, _, _, _, _) => Some(RevokeAction)
    case SwitchStep(_, _, _, _, _, open, _, _, _) => Some(if open then OpenAction else CloseAction)
    case _ => None
  }

  lemma MutateAppends(y: Control, tenant: Name, action: Action, actor: string, key: Name, version: int, reason: Name,
                      request: Request, change: Change, now: Time)
    ensures var (y', r) := Mutate(y, tenant, action, actor, key, version, reason, request, change, now);
            var p := PolicyOf(y.policies, tenant);
            var q := Written(p, change, actor, now);
            || (y' == y)
            || (&& y'.policies == y.policies[tenant := q] && p.version == version
                && y'.audits == y.audits + [Audit(tenant, action, actor, reason, p, q)])
  {
    hide Transform, ValidPolicy;
  }

  lemma WrittenLegal(p: Policy, change: Change, actor: string, now: Time, tenant: Name, action: Action, reason: Name)
    requires change.Activating? ==> p.state.AuthorizedNotActive?
    requires change == Switching(true) ==> p.state.Active?
    requires action == match change
                       case Authorizing(_) => AuthorizeAction
                       case Activating => ActivateAction
                       case Revoking => RevokeAction
                       case Switching(open) => if open then OpenAction else CloseAction
    ensures Legal(Audit(tenant, action, actor, reason, p, Written(p, change, actor, now)))
  {
  }

  /** A step either leaves policies and audit log alone or appends one legal entry of its own action and tenant. */
  lemma StepAppends(y: Control, step: Step)
    ensures var y' := Apply(y, step);
            || (y'.policies == y.policies && y'.audits == y.audits)
            || (&& |y'.audits| == |y.audits| + 1 && y'.audits[..|y.audits|] == y.audits
                && var e := y'.audits[|y.audits|];
                   && Legal(e) && ActionOf(step) == Some(e.action) && step.tenant == e.tenant
                   && e.previous == PolicyOf(y.policies, e.tenant)
                   && y'.policies == y.policies[e.tenant := e.next])
  {
    hide Mutate, Activatable, ValidAuthorization, SendersCovered, Admit, UsageAt, Exhausted, Written, Legal;
    match step
    case AuthorizeStep(tenant, actor, key, body, at) =>
      WrittenLegal(PolicyOf(y.policies, tenant), Authorizing(body), actor, at, tenant, AuthorizeAction, body.reason);
      MutateAppends(y, tenant, AuthorizeAction, actor, key, body.expectedVersion, body.reason, AuthorizeRequest(body),
                    Authorizing(body), at);
    case ActivateStep(tenant, actor, key, version, reason, settings, registry, at) =>
      if PolicyOf(y.policies, tenant).state.AuthorizedNotActive? {
        WrittenLegal(PolicyOf(y.policies, tenant), Activating, actor, at, tenant, ActivateAction, reason);
      }
      MutateAppends(y, tenant, ActivateAction, actor, key, version, reason, ControlRequest(version, reason),
                    Activating, at);
    case RevokeStep(tenant, actor, key, version, reason, at) =>
      WrittenLegal(PolicyOf(y.policies, tenant), Revoking, actor, at, tenant, RevokeAction, reason);
      MutateAppends(y, tenant, RevokeAction, actor, key, version, reason, ControlRequest(version, reason), Revoking,
                    at);
    case SwitchStep(tenant, actor, key, version, reason, open, settings, registry, at) =>
      if !open || PolicyOf(y.policies, tenant).state.Active? {
        WrittenLegal(PolicyOf(y.policies, tenant), Switching(open), actor, at, tenant,
                     if open then OpenAction else CloseAction, reason);
      }
      MutateAppends(y, tenant, if open then OpenAction else CloseAction, actor, key, version, reason,
                    SwitchRequest(version, reason, open), Switching(open), at);
    case GuardStep(tenant, message, sender, settings, at) =>
      GuardKeepsPolicies(y, tenant, message, sender, settings, at);
    case SettleStep(id, settlement, at) =>
  }

  ghost predicate AllLegal(y: Control) { forall i :: 0 <= i < |y.audits| ==> Legal(y.audits[i]) }

  lemma StepStaysLegal(y: Control, step: Step)
    requires AllLegal(y)
    ensures AllLegal(Apply(y, step))
  {
    hide Apply, Legal;
    StepAppends(y, step);
    var after := Apply(y, step);
    forall i | 0 <= i < |after.audits| ensures Legal(after.audits[i]) {
      if i < |y.audits| { assert after.audits[i] == after.audits[..|y.audits|][i] == y.audits[i]; }
    }
  }

  /**
   In every reachable state each entry of the audit log is legal: an authorization starts inactive and
   closed, an activation follows an authorization and opens the switch, a revocation disables, makes
   safe and closes, a switch moves nothing but the switch.
   */
  lemma {:induction false} AuditIsLegal(steps: seq<Step>)
    ensures AllLegal(Run(START, steps))
  {
    if steps != [] {
      hide Apply, AllLegal;
      AuditIsLegal(steps[..|steps| - 1]);
      StepStaysLegal(Run(START, steps[..|steps| - 1]), steps[|steps| - 1]);
    }
  }

  // ---------------------------------------------------------------- how long a revocation holds

  lemma StateMoves(y: Control, step: Step, tenant: Name)
    ensures var p, q := PolicyOf(y.policies, tenant), PolicyOf(Apply(y, step).policies, tenant);
            && (q.state.AuthorizedNotActive? && !p.state.AuthorizedNotActive? ==>
                  step.AuthorizeStep? && step.tenant == tenant)
            && (q.state.Active? && !p.state.Active? ==>
                  step.ActivateStep? && step.tenant == tenant && p.state.AuthorizedNotActive?)
            && (q.killSwitchOpen && !p.killSwitchOpen ==>
                  (step.ActivateStep? || (step.SwitchStep? && step.open)) && step.tenant == tenant)
  {
    hide Apply;
    StepAppends(y, step);
  }

  /** The step is an accepted new call on the tenant at this point of a run from `y`. */
  ghost predicate AcceptedAt(y: Control, steps: seq<Step>, i: int, tenant: Name) requires 0 <= i < |steps| {
    Changes(Run(y, steps[..i]), steps[i], tenant)
  }

  ghost predicate AuthorizedAt(y: Control, steps: seq<Step>, i: int, tenant: Name) requires 0 <= i < |steps| {
    steps[i].AuthorizeStep? && steps[i].tenant == tenant && AcceptedAt(y, steps, i, tenant)
  }

  ghost predicate ActivatedAt(y: Control, steps: seq<Step>, i: int, tenant: Name) requires 0 <= i < |steps| {
    steps[i].ActivateStep? && steps[i].tenant == tenant && AcceptedAt(y, steps, i, tenant)
  }

  ghost predicate OpenedAt(y: Control, steps: seq<Step>, i: int, tenant: Name) requires 0 <= i < |steps| {
    && (steps[i].ActivateStep? || (steps[i].SwitchStep? && steps[i].open))
    && steps[i].tenant == tenant && AcceptedAt(y, steps, i, tenant)
  }

  predicate Standing(p: Policy) { p.state.AuthorizedNotActive? || p.state.Active? }

  lemma RunAt(y: Control, steps: seq<Step>, n: int)
    requires 0 <= n < |steps|
    ensures Run(y, steps[..n + 1]) == Apply(Run(y, steps[..n]), steps[n])
  {
    hide Apply;
    assert steps[..n + 1][..n] == steps[..n];
  }

  lemma {:induction false} StandingWasAuthorized(y: Control, steps: seq<Step>, n: int, tenant: Name)
    requires 0 <= n <= |steps| && !Standing(PolicyOf(y.policies, tenant))
    requires Standing(PolicyOf(Run(y, steps[..n]).policies, tenant))
    ensures exists i :: 0 <= i < n && AuthorizedAt(y, steps, i, tenant)
    decreases n
  {
    hide Apply, Run;
    EmptyRun(y, steps);
    if n > 0 {
      RunAt(y, steps, n - 1);
      var before := Run(y, steps[..n - 1]);
      StateMoves(before, steps[n - 1], tenant);
      if Standing(PolicyOf(before.policies, tenant)) { StandingWasAuthorized(y, steps, n - 1, tenant); }
      else { assert AuthorizedAt(y, steps, n - 1, tenant); }
    }
  }

  lemma EmptyRun(y: Control, steps: seq<Step>)
    ensures Run(y, steps[..0]) == y
  {
    hide Apply;
  }

  lemma {:induction false} ActiveWasActivated(y: Control, steps: seq<Step>, n: int, tenant: Name) returns (j: int)
    requires 0 <= n <= |steps| && !PolicyOf(y.policies, tenant).state.Active?
    requires PolicyOf(Run(y, steps[..n]).policies, tenant).state.Active?
    ensures 0 <= j < n && ActivatedAt(y, steps, j, tenant)
    ensures PolicyOf(Run(y, steps[..j]).policies, tenant).state.AuthorizedNotActive?
    decreases n
  {
    hide Apply, Run;
    EmptyRun(y, steps);
    RunAt(y, steps, n - 1);
    var before := Run(y, steps[..n - 1]);
    StateMoves(before, steps[n - 1], tenant);
    if PolicyOf(before.policies, tenant).state.Active? { j := ActiveWasActivated(y, steps, n - 1, tenant); }
    else { j := n - 1; }
  }

  lemma {:induction false} OpenWasOpened(y: Control, steps: seq<Step>, n: int, tenant: Name)
    requires 0 <= n <= |steps| && !PolicyOf(y.policies, tenant).killSwitchOpen
    requires PolicyOf(Run(y, steps[..n]).policies, tenant).killSwitchOpen
    ensures exists i :: 0 <= i < n && OpenedAt(y, steps, i, tenant)
    decreases n
  {
    hide Apply, Run;
    EmptyRun(y, steps);
    if n > 0 {
      RunAt(y, steps, n - 1);
      var before := Run(y, steps[..n - 1]);
      StateMoves(before, steps[n - 1], tenant);
      if PolicyOf(before.policies, tenant).killSwitchOpen { OpenWasOpened(y, steps, n - 1, tenant); }
      else { assert OpenedAt(y, steps, n - 1, tenant); }
    }
  }

  lemma PassedGuard(y: Control, tenant: Name, m: Message, sender: string, settings: Settings, now: Time)
    requires Guard(y, tenant, m, sender, settings, now).1.Ok?
    ensures PolicyOf(y.policies, tenant).state.Active? && PolicyOf(y.policies, tenant).killSwitchOpen
  {
    hide UsageAt, Exhausted;
  }

  /** A mutation that is new, expects the current version and is of this tenant. */
  predicate IsNew(y: Control, tenant: Name, action: Action, actor: string, key: Name) {
    MutationKey(tenant, action, actor, key) !in y.mutations
  }

  /**
   An accepted new revocation leaves the policy revoked, disabled, in safe mode and switched off, and it
   holds: whatever follows, the guard lets a message of the tenant through only after a later accepted
   authorization followed by an accepted activation.
   */
  lemma RevocationHolds(y: Control, tenant: Name, actor: string, key: Name, version: int, reason: Name, at: Time,
                        later: seq<Step>, m: Message, sender: string, settings: Settings, now: Time)
    requires IsNew(y, tenant, RevokeAction, actor, key)
    requires Revoke(y, tenant, actor, key, version, reason, at).1.Ok?
    ensures var y' := Revoke(y, tenant, actor, key, version, reason, at).0;
            var q := PolicyOf(y'.policies, tenant);
            && !q.enabled && q.state.Revoked? && q.mode.Safe? && !q.killSwitchOpen && q.version == version + 1
            && (Guard(Run(y', later), tenant, m, sender, settings, now).1.Ok? ==>
                  exists i, j :: 0 <= i < j < |later| && AuthorizedAt(y', later, i, tenant)
                                 && ActivatedAt(y', later, j, tenant))
  {
    var y' := Revoke(y, tenant, actor, key, version, reason, at).0;
    RevokedPolicy(y, tenant, actor, key, version, reason, at);
    hide Revoke, Run, Guard;
    if Guard(Run(y', later), tenant, m, sender, settings, now).1.Ok? {
      PassedGuard(Run(y', later), tenant, m, sender, settings, now);
      assert later[..|later|] == later;
      var j := ActiveWasActivated(y', later, |later|, tenant);
      StandingWasAuthorized(y', later, j, tenant);
    }
  }

  lemma RevokedPolicy(y: Control, tenant: Name, actor: string, key: Name, version: int, reason: Name, at: Time)
    requires IsNew(y, tenant, RevokeAction, actor, key)
    requires Revoke(y, tenant, actor, key, version, reason, at).1.Ok?
    ensures var q := PolicyOf(Revoke(y, tenant, actor, key, version, reason, at).0.policies, tenant);
            && !q.enabled && q.state.Revoked? && q.mode.Safe? && !q.killSwitchOpen && q.version == version + 1
  {
    hide ValidPolicy;
  }

  /**
   An accepted new closing of the kill switch closes it and changes nothing else, and it holds: the guard
   lets nothing of the tenant through before an accepted call opens the switch again.
   */
  lemma ClosedSwitchHolds(y: Control, tenant: Name, actor: string, key: Name, version: int, reason: Name,
                          s: Settings, registry: map<string, DomainRecord>, at: Time,
                          later: seq<Step>, m: Message, sender: string, settings: Settings, now: Time)
    requires IsNew(y, tenant, CloseAction, actor, key)
    requires SetKillSwitch(y, tenant, actor, key, version, reason, false, s, registry, at).1.Ok?
    ensures var y' := SetKillSwitch(y, tenant, actor, key, version, reason, false, s, registry, at).0;
            var p, q := PolicyOf(y.policies, tenant), PolicyOf(y'.policies, tenant);
            && q == p.(killSwitchOpen := false, version := version + 1, updatedAt := at)
            && (Guard(Run(y', later), tenant, m, sender, settings, now).1.Ok? ==>
                  exists i :: 0 <= i < |later| && OpenedAt(y', later, i, tenant))
  {
    var y' := SetKillSwitch(y, tenant, actor, key, version, reason, false, s, registry, at).0;
    ClosedPolicy(y, tenant, actor, key, version, reason, s, registry, at);
    hide SetKillSwitch, Run, Guard;
    if Guard(Run(y', later), tenant, m, sender, settings, now).1.Ok? {
      PassedGuard(Run(y', later), tenant, m, sender, settings, now);
      assert later[..|later|] == later;
      OpenWasOpened(y', later, |later|, tenant);
    }
  }

  lemma ClosedPolicy(y: Control, tenant: Name, actor: string, key: Name, version: int, reason: Name, s: Settings,
                     registry: map<string, DomainRecord>, at: Time)
    requires IsNew(y, tenant, CloseAction, actor, key)
    requires SetKillSwitch(y, tenant, actor, key, version, reason, false, s, registry, at).1.Ok?
    ensures PolicyOf(SetKillSwitch(y, tenant, actor, key, version, reason, false, s, registry, at).0.policies, tenant)
         == PolicyOf(y.policies, tenant).(killSwitchOpen := false, version := version + 1, updatedAt := at)
  {
    hide ValidPolicy;
  }
}
