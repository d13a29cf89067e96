/**
 What email production control promises over whole runs: what the guard can let through, that the audit
 log replays to the policy in force, and that no calendar window exceeds its quota on any clock.
 */
module EmailTheorems {
  import opened Identities
  import opened EmailControl

  // ---------------------------------------------------------------- the policy lifecycle

  /** What an authorization that may be used has to carry. */
  predicate Governed(p: Policy) {
    && ScopeFits(p.mode, p.scope, p.recipients, p.recipientDomains)
    && (forall c :: c in p.categories ==> c in TRANSACTIONAL_CATEGORIES)
    && SendersCovered(p.senders, p.domains)
    && LimitsFit(p.limits)
  }

  predicate PolicyOk(p: Policy) {
    && (p.killSwitchOpen ==> p.state.Active?)
    && !p.mode.Campaign?
    && 0 <= p.limits.perMinute <= p.limits.perHour <= p.limits.perDay
    && (p.enabled <==> p.state.AuthorizedNotActive? || p.state.Active?)
    && (p.enabled ==> Governed(p))
  }

  ghost predicate PoliciesInv(y: Control) {
    forall t :: PolicyOk(PolicyOf(y.policies, t))
  }

  lemma MutateKeepsPolicies(y: Control, tenant: Name, action: Action, actor: string, key: Name, version: int,
                            reason: Name, request: Request, change: Change, now: Time)
    requires PoliciesInv(y)
    requires var p := PolicyOf(y.policies, tenant);
             PolicyOk(Transform(p, change, actor, now).(version := p.version + 1, updatedAt := now))
    ensures PoliciesInv(Mutate(y, tenant, action, actor, key, version, reason, request, change, now).0)
  {
    hide PolicyOk, Transform, ValidPolicy;
    var y' := Mutate(y, tenant, action, actor, key, version, reason, request, change, now).0;
    forall t ensures PolicyOk(PolicyOf(y'.policies, t)) {
      assert PolicyOk(PolicyOf(y.policies, t));
    }
  }

  lemma AuthorizedOk(p: Policy, b: Authorization, actor: string, now: Time)
    requires ValidAuthorization(b) && SendersCovered(b.senders, b.domains)
    ensures PolicyOk(Transform(p, Authorizing(b), actor, now).(version := p.version + 1, updatedAt := now))
  {
    hide SendersCovered, Distinct;
  }

  lemma ControlledOk(p: Policy, change: Change, actor: string, now: Time)
    requires PolicyOk(p) && !change.Authorizing?
    requires change.Activating? ==> p.state.AuthorizedNotActive?
    requires change == Switching(true) ==> p.state.Active?
    ensures PolicyOk(Transform(p, change, actor, now).(version := p.version + 1, updatedAt := now))
  {
    hide ScopeFits, SendersCovered, LimitsFit;
  }

  lemma StepKeepsPolicies(y: Control, step: Step)
    requires PoliciesInv(y)
    ensures PoliciesInv(Apply(y, step))
  {
    hide Mutate, Activatable, ValidAuthorization, SendersCovered, UsageAt, Exhausted, Admit, PolicyOk, Transform, Guard;
    match step
    case AuthorizeStep(tenant, actor, key, body, at) =>
      if ValidAuthorization(body) && SendersCovered(body.senders, body.domains) {
        AuthorizedOk(PolicyOf(y.policies, tenant), body, actor, at);
        MutateKeepsPolicies(y, tenant, AuthorizeAction, actor, key, body.expectedVersion, body.reason,
                            AuthorizeRequest(body), Authorizing(body), at);
      }
    case ActivateStep(tenant, actor, key, version, reason, settings, registry, at) =>
      assert PolicyOk(PolicyOf(y.policies, tenant));
      if PolicyOf(y.policies, tenant).state.AuthorizedNotActive? {
        ControlledOk(PolicyOf(y.policies, tenant), Activating, actor, at);
        MutateKeepsPolicies(y, tenant, ActivateAction, actor, key, version, reason, ControlRequest(version, reason),
                            Activating, at);
      }
    case RevokeStep(tenant, actor, key, version, reason, at) =>
      assert PolicyOk(PolicyOf(y.policies, tenant));
      ControlledOk(PolicyOf(y.policies, tenant), Revoking, actor, at);
      MutateKeepsPolicies(y, tenant, RevokeAction, actor, key, version, reason, ControlRequest(version, reason),
                          Revoking, at);
    case SwitchStep(tenant, actor, key, version, reason, open, settings, registry, at) =>
      assert PolicyOk(PolicyOf(y.policies, tenant));
      if !open || PolicyOf(y.policies, tenant).state.Active? {
        ControlledOk(PolicyOf(y.policies, tenant), Switching(open), actor, at);
        MutateKeepsPolicies(y, tenant, if open then OpenAction else CloseAction, actor, key, version, reason,
                            SwitchRequest(version, reason, open), Switching(open), at);
      }
    case GuardStep(tenant, message, sender, settings, at) =>
      GuardKeepsPolicies(y, tenant, message, sender, settings, at);
    case SettleStep(id, settlement, at) => assert Settle(y, id, settlement, at).policies == y.policies;
  }

  lemma GuardKeepsPolicies(y: Control, tenant: Name, m: Message, sender: string, settings: Settings, now: Time)
    ensures Guard(y, tenant, m, sender, settings, now).0.policies == y.policies
    ensures Guard(y, tenant, m, sender, settings, now).0.audits == y.audits
  {
  }

  /**
   In every reachable state every tenant's policy has an open kill switch only while it is active, is
   never in campaign mode, has ordered limits, and is enabled exactly while an authorization stands,
   which then is a transactional one with a closed vocabulary and a bounded recipient list.
   */
  lemma {:induction false} ReachablePolicies(steps: seq<Step>)
    ensures PoliciesInv(Run(START, steps))
  {
    hide Apply, PolicyOk;
    if steps == [] {
      forall t ensures PolicyOk(PolicyOf(START.policies, t)) { DefaultOk(t); }
    } else {
      ReachablePolicies(steps[..|steps| - 1]);
      StepKeepsPolicies(Run(START, steps[..|steps| - 1]), steps[|steps| - 1]);
    }
  }

  lemma DefaultOk(tenant: Name)
    ensures PolicyOk(DefaultPolicy(tenant))
  {
  }

  /**
   A kill switch opens only by an activation or an operator, and only at a moment when delivery is
   enabled, the authorization is valid and complete, the change, release and environment are the
   deployed ones, and every approved domain is registered and ready.
   */
  lemma SwitchOpensOnlyWhenReady(y: Control, step: Step, tenant: Name)
    requires !PolicyOf(y.policies, tenant).killSwitchOpen && PolicyOf(Apply(y, step).policies, tenant).killSwitchOpen
    ensures step.ActivateStep? || (step.SwitchStep? && step.open)
    ensures step.tenant == tenant && step.settings.deliveryEnabled
    ensures var p := PolicyOf(y.policies, tenant);
            && p.enabled && (p.state.AuthorizedNotActive? || p.state.Active?) && (p.mode.Canary? || p.mode.Production?)
            && p.changeId == Some(step.settings.activationId) && p.environment == Some(step.settings.environment)
            && p.releaseSha == Some(step.settings.sourceSha) && p.provider == Some(PROVIDER)
            && p.validFrom.Some? && p.validUntil.Some? && p.validFrom.value <= step.at < p.validUntil.value
            && p.owners.Some? && p.approvedBy.Some? && p.domains != [] && p.senders != [] && p.categories != []
            && (forall d :: d in p.domains ==>
                  d in step.registry && step.registry[d].productionReady && step.registry[d].sendEligible
                  && !step.registry[d].dkimRotationRequired && step.registry[d].dnsPass)
  {
    hide ValidPolicy, ValidAuthorization, SendersCovered, Admit, UsageAt, Exhausted;
    if step.GuardStep? { GuardKeepsPolicies(y, step.tenant, step.message, step.sender, step.settings, step.at); }
  }

  /** The two policies allow the same senders to send the same to the same recipients, as often and as long. */
  predicate SameTerms(p: Policy, q: Policy) {
    && q.senders == p.senders && q.domains == p.domains && q.categories == p.categories
    && q.recipients == p.recipients && q.recipientDomains == p.recipientDomains && q.scope == p.scope
    && q.limits == p.limits && q.validFrom == p.validFrom && q.validUntil == p.validUntil
    && (q.mode == p.mode || q.mode.Safe?)
  }

  function Written(p: Policy, change: Change, actor: string, now: Time): Policy {
    Transform(p, change, actor, now).(version := p.version + 1, updatedAt := now)
  }

  lemma WrittenTerms(p: Policy, change: Change, actor: string, now: Time)
    ensures Written(p, change, actor, now).version == p.version + 1
    ensures !change.Authorizing? ==> SameTerms(p, Written(p, change, actor, now))
    ensures change.Authorizing? ==>
              && Written(p, change, actor, now).state.AuthorizedNotActive?
              && !Written(p, change, actor, now).killSwitchOpen
  {
  }

  lemma MutateWrites(y: Control, tenant: Name, action: Action, actor: string, key: Name, version: int, reason: Name,
                     request: Request, change: Change, now: Time, t: Name)
    ensures var q := PolicyOf(Mutate(y, tenant, action, actor, key, version, reason, request, change,
                                     now).0.policies, t);
            q == PolicyOf(y.policies, t) || (t == tenant && q == Written(PolicyOf(y.policies, t), change, actor, now))
  {
    hide Transform, ValidPolicy;
  }

  /**
   Only a new authorization changes what may be sent, by whom, to whom, how often and how long, and it
   always starts inactive with its switch closed.
   */
  lemma OnlyAuthorizationWidens(y: Control, step: Step, tenant: Name)
    ensures var p, q := PolicyOf(y.policies, tenant), PolicyOf(Apply(y, step).policies, tenant);
            && (q != p ==> q.version == p.version + 1)
            && (!(step.AuthorizeStep? && step.tenant == tenant) ==> SameTerms(p, q))
            && (step.AuthorizeStep? && q != p ==> q.state.AuthorizedNotActive? && !q.killSwitchOpen)
  {
    hide Mutate, Written, SameTerms, ValidAuthorization, SendersCovered, Activatable, Guard;
    var p := PolicyOf(y.policies, tenant);
    assert SameTerms(p, p) by { SameItself(p); }
    match step
    case AuthorizeStep(t, actor, key, body, at) =>
      WrittenTerms(p, Authorizing(body), actor, at);
      MutateWrites(y, t, AuthorizeAction, actor, key, body.expectedVersion, body.reason, AuthorizeRequest(body),
                   Authorizing(body), at, tenant);
    case ActivateStep(t, actor, key, version, reason, settings, registry, at) =>
      WrittenTerms(p, Activating, actor, at);
      MutateWrites(y, t, ActivateAction, actor, key, version, reason, ControlRequest(version, reason), Activating,
                   at, tenant);
    case RevokeStep(t, actor, key, version, reason, at) =>
      WrittenTerms(p, Revoking, actor, at);
      MutateWrites(y, t, RevokeAction, actor, key, version, reason, ControlRequest(version, reason), Revoking, at,
                   tenant);
    case SwitchStep(t, actor, key, version, reason, open, settings, registry, at) =>
      WrittenTerms(p, Switching(open), actor, at);
      MutateWrites(y, t, if open then OpenAction else CloseAction, actor, key, version, reason,
                   SwitchRequest(version, reason, open), Switching(open), at, tenant);
    case GuardStep(t, message, sender, settings, at) => GuardKeepsPolicies(y, t, message, sender, settings, at);
    case SettleStep(id, settlement, at) => assert Settle(y, id, settlement, at).policies == y.policies;
  }

  lemma SameItself(p: Policy)
    ensures SameTerms(p, p)
  {
  }

  /**
   Whatever the lifecycle went through, the guard lets a message through only in a category of the
   closed transactional vocabulary, from an approved sender of an approved domain, to recipients that
   are all listed or all in listed domains, while the authorization is active, switched on and valid.
   */
  lemma GuardIsSound(steps: seq<Step>, tenant: Name, m: Message, sender: string, settings: Settings, now: Time)
    requires Guard(Run(START, steps), tenant, m, sender, settings, now).1.Ok?
    ensures var p := PolicyOf(Run(START, steps).policies, tenant);
            && p.state.Active? && p.killSwitchOpen && (p.mode.Canary? || p.mode.Production?)
            && CategoryOf(m) in TRANSACTIONAL_CATEGORIES && CategoryOf(m) in p.categories
            && sender in p.senders && DomainOf(sender) in p.domains
            && (p.scope.Allowlist? || p.scope.DomainAllowlist?)
            && (p.scope.Allowlist? ==> forall r :: r in m.to ==> r in p.recipients)
            && (p.scope.DomainAllowlist? ==> forall r :: r in m.to ==> '@' in r && DomainOf(r) in p.recipientDomains)
            && (p.mode.Canary? ==> p.scope.Allowlist?)
            && (p.validFrom.Some? ==> p.validFrom.value <= now) && (p.validUntil.Some? ==> now < p.validUntil.value)
  {
    hide Run, UsageAt, SendersCovered;
    ReachablePolicies(steps);
    var p := PolicyOf(Run(START, steps).policies, tenant);
    assert PolicyOk(p);
    forall r | r in m.to ensures RecipientListed(p, r) { }
  }

  /** Marketing mail never passes. */
  lemma MarketingIsBlocked(steps: seq<Step>, tenant: Name, m: Message, sender: string, settings: Settings, now: Time)
    requires CategoryOf(m) == MARKETING
    ensures Guard(Run(START, steps), tenant, m, sender, settings, now).1.Err?
  {
    hide Run;
    if Guard(Run(START, steps), tenant, m, sender, settings, now).1.Ok? {
      GuardIsSound(steps, tenant, m, sender, settings, now);
    }
  }

  // ---------------------------------------------------------------- the audit log

  /** The policy that the audit log says is in force. */
  function Replayed(audits: seq<Audit>, tenant: Name): Policy {
    if audits == [] then DefaultPolicy(tenant)
    else if audits[|audits| - 1].tenant == tenant then audits[|audits| - 1].next
    else Replayed(audits[..|audits| - 1], tenant)
  }

  function CountFor(audits: seq<Audit>, tenant: Name): nat {
    if audits == [] then 0
    else CountFor(audits[..|audits| - 1], tenant) + if audits[|audits| - 1].tenant == tenant then 1 else 0
  }

  /** Each entry starts from the policy the entries before it lead to. */
  predicate Linked(audits: seq<Audit>, i: int) requires 0 <= i < |audits| {
    audits[i].previous == Replayed(audits[..i], audits[i].tenant)
  }

  ghost predicate AuditInv(y: Control) {
    && (forall i :: 0 <= i < |y.audits| ==> Linked(y.audits, i))
    && (forall t :: PolicyOf(y.policies, t) == Replayed(y.audits, t))
    && (forall t :: PolicyOf(y.policies, t).version == 1 + CountFor(y.audits, t))
  }

  lemma MutateKeepsAudit(y: Control, tenant: Name, action: Action, actor: string, key: Name, version: int,
                         reason: Name, request: Request, change: Change, now: Time)
    requires AuditInv(y)
    ensures AuditInv(Mutate(y, tenant, action, actor, key, version, reason, request, change, now).0)
  {
    hide Transform, ValidPolicy;
    var y' := Mutate(y, tenant, action, actor, key, version, reason, request, change, now).0;
    if y' != y {
      var n := |y.audits|;
      assert y'.audits[..n] == y.audits;
      forall i | 0 <= i < |y'.audits| ensures Linked(y'.audits, i) {
        if i < n {
          assert Linked(y.audits, i);
          assert y'.audits[..i] == y.audits[..i];
        }
      }
      forall t ensures PolicyOf(y'.policies, t) == Replayed(y'.audits, t) {
        assert PolicyOf(y.policies, t) == Replayed(y.audits, t);
      }
      forall t ensures PolicyOf(y'.policies, t).version == 1 + CountFor(y'.audits, t) {
        assert PolicyOf(y.policies, t).version == 1 + CountFor(y.audits, t);
      }
    }
  }

  lemma StepKeepsAudit(y: Control, step: Step)
    requires AuditInv(y)
    ensures AuditInv(Apply(y, step))
  {
    hide AuditInv, Mutate, Activatable, ValidAuthorization, SendersCovered, UsageAt, Exhausted, Admit;
    match step
    case AuthorizeStep(tenant, actor, key, body, at) =>
      MutateKeepsAudit(y, tenant, AuthorizeAction, actor, key, body.expectedVersion, body.reason,
                       AuthorizeRequest(body),
                       Authorizing(body), at);
    case ActivateStep(tenant, actor, key, version, reason, settings, registry, at) =>
      MutateKeepsAudit(y, tenant, ActivateAction, actor, key, version, reason, ControlRequest(version, reason),
                       Activating, at);
    case RevokeStep(tenant, actor, key, version, reason, at) =>
      MutateKeepsAudit(y, tenant, RevokeAction, actor, key, version, reason, ControlRequest(version, reason),
                       Revoking, at);
    case SwitchStep(tenant, actor, key, version, reason, open, settings, registry, at) =>
      MutateKeepsAudit(y, tenant, if open then OpenAction else CloseAction, actor, key, version, reason,
                       SwitchRequest(version, reason, open), Switching(open), at);
    case GuardStep(tenant, message, sender, settings, at) =>
      GuardKeepsPolicies(y, tenant, message, sender, settings, at);
      SameAudit(y, Apply(y, step));
    case SettleStep(id, settlement, at) => SameAudit(y, Apply(y, step));
  }

  lemma SameAudit(y: Control, y': Control)
    requires AuditInv(y) && y'.policies == y.policies && y'.audits == y.audits
    ensures AuditInv(y')
  {
  }

  /**
   In every reachable state the audit log is an unbroken chain that replays to the policy in force,
   and a policy's version is one more than the number of its audit entries.
   */
  lemma {:induction false} AuditReplaysToPolicy(steps: seq<Step>)
    ensures AuditInv(Run(START, steps))
  {
    if steps != [] {
      hide AuditInv, Apply;
      AuditReplaysToPolicy(steps[..|steps| - 1]);
      StepKeepsAudit(Run(START, steps[..|steps| - 1]), steps[|steps| - 1]);
    }
  }

  // ---------------------------------------------------------------- held units

  lemma {:induction false} HeldWider(rs: seq<Reservation>, releases: set<Name>, tenant: Name, from: Time,
                                     until: Option<Time>, earlier: Time)
    requires earlier <= from
    ensures Held(rs, releases, tenant, from, until) <= Held(rs, releases, tenant, earlier, None)
  {
    if rs != [] { HeldWider(rs[..|rs| - 1], releases, tenant, from, until, earlier); }
  }

  lemma {:induction false} HeldAfterRelease(rs: seq<Reservation>, releases: set<Name>, more: set<Name>, tenant: Name,
                                            from: Time, until: Option<Time>)
    requires releases <= more
    ensures Held(rs, more, tenant, from, until) <= Held(rs, releases, tenant, from, until)
  {
    if rs != [] { HeldAfterRelease(rs[..|rs| - 1], releases, more, tenant, from, until); }
  }

  /** Held units are those of the tenant's reservations that were not given back and lie between the instants. */
  lemma HeldAppend(rs: seq<Reservation>, r: Reservation, releases: set<Name>, tenant: Name, from: Time,
                   until: Option<Time>)
    ensures Held([], releases, tenant, from, until) == 0
    ensures Held(rs + [r], releases, tenant, from, until)
         == Held(rs, releases, tenant, from, until)
            + if && r.tenant == tenant && r.id !in releases
                 && (if until.Some? then from <= r.reservedAt < until.value else from <= r.reservedAt)
              then r.units else 0
  {
    assert (rs + [r])[..|rs|] == rs;
  }

  /** Usage is ordered: what counts against the minute counts against the hour, and that against the day. */
  lemma UsageIsOrdered(rs: seq<Reservation>, releases: set<Name>, tenant: Name, now: Time)
    ensures var u := UsageAt(rs, releases, tenant, now); u.minute <= u.hour <= u.day
  {
    WindowsNest(now);
    HeldWider(rs, releases, tenant, WindowStart(now, MINUTE), None, WindowStart(now, HOUR));
    HeldWider(rs, releases, tenant, WindowStart(now, HOUR), None, WindowStart(now, DAY));
  }

  lemma WindowsNest(now: Time)
    ensures WindowStart(now, DAY) <= WindowStart(now, HOUR) <= WindowStart(now, MINUTE)
  {
    var day := now / DAY;
    assert 24 * day <= now / HOUR;
    assert 60 * (now / HOUR) <= now / MINUTE;
  }

  // ---------------------------------------------------------------- calendar windows

  /** The n-th calendar window of a length holds at most `limit` unreleased units. */
  predicate WithinLimit(rs: seq<Reservation>, releases: set<Name>, tenant: Name, n: int, length: int, limit: int) {
    Held(rs, releases, tenant, n * length, Some(n * length + length)) <= limit
  }

  ghost predicate AllWithin(rs: seq<Reservation>, releases: set<Name>, tenant: Name, length: int, limit: int) {
    forall n :: WithinLimit(rs, releases, tenant, n, length, limit)
  }

  lemma MulMonotone(a: int, b: int, length: int)
    requires a < b && length > 0
    ensures a * length + length <= b * length
  {
    assert (b - a - 1) * length >= 0;
    assert (b - a - 1) * length == b * length - a * length - length;
  }

  lemma WindowOf(moment: Time, length: int, n: int)
    requires length > 0
    ensures n * length <= moment < n * length + length <==> n == moment / length
  {
    var m := moment / length;
    assert moment == m * length + moment % length;
    if n < m { MulMonotone(n, m, length); }
    if n > m { MulMonotone(m, n, length); }
  }

  /** A reservation that passed the check of one window length keeps every window of that length within its limit. */
  lemma ReservationKeepsWindows(rs: seq<Reservation>, releases: set<Name>, r: Reservation, tenant: Name, length: int,
                                limit: int)
    requires length > 0 && AllWithin(rs, releases, tenant, length, limit)
    requires r.tenant == tenant ==>
               Held(rs, releases, tenant, WindowStart(r.reservedAt, length), None) + r.units <= limit
    ensures AllWithin(rs + [r], releases, tenant, length, limit)
  {
    forall n ensures WithinLimit(rs + [r], releases, tenant, n, length, limit) {
      assert WithinLimit(rs, releases, tenant, n, length, limit);
      HeldAppend(rs, r, releases, tenant, n * length, Some(n * length + length));
      WindowOf(r.reservedAt, length, n);
      if r.tenant == tenant && n == r.reservedAt / length {
        HeldWider(rs, releases, tenant, n * length, Some(n * length + length), WindowStart(r.reservedAt, length));
      }
    }
  }

  lemma ReleaseKeepsWindows(rs: seq<Reservation>, releases: set<Name>, more: set<Name>, tenant: Name, length: int,
                            limit: int)
    requires AllWithin(rs, releases, tenant, length, limit) && releases <= more
    ensures AllWithin(rs, more, tenant, length, limit)
  {
    forall n ensures WithinLimit(rs, more, tenant, n, length, limit) {
      assert WithinLimit(rs, releases, tenant, n, length, limit);
      HeldAfterRelease(rs, releases, more, tenant, n * length, Some(n * length + length));
    }
  }

  predicate AtMost(l: Limits, m: Limits) {
    l.perMinute <= m.perMinute && l.perHour <= m.perHour && l.perDay <= m.perDay
  }

  /** The step authorizes the tenant for no more than `m`. */
  predicate Modest(step: Step, tenant: Name, m: Limits) {
    step.AuthorizeStep? && step.tenant == tenant ==> AtMost(step.body.limits, m)
  }

  lemma LimitsStayModest(y: Control, step: Step, tenant: Name, m: Limits)
    requires AtMost(PolicyOf(y.policies, tenant).limits, m) && Modest(step, tenant, m)
    ensures AtMost(PolicyOf(Apply(y, step).policies, tenant).limits, m)
  {
    hide Activatable, ValidPolicy, ValidAuthorization, SendersCovered, Admit, UsageAt, Exhausted;
  }

  ghost predicate QuotaInv(y: Control, tenant: Name, m: Limits) {
    && AtMost(PolicyOf(y.policies, tenant).limits, m)
    && AllWithin(y.reservations, y.releases, tenant, MINUTE, m.perMinute)
    && AllWithin(y.reservations, y.releases, tenant, HOUR, m.perHour)
    && AllWithin(y.reservations, y.releases, tenant, DAY, m.perDay)
  }

  lemma GuardKeepsQuota(y: Control, from: Name, message: Message, sender: string, settings: Settings, now: Time,
                        tenant: Name, m: Limits)
    requires QuotaInv(y, tenant, m)
    ensures QuotaInv(Guard(y, from, message, sender, settings, now).0, tenant, m)
  {
    hide AllWithin, Held, Admit, WindowStart;
    var y' := Guard(y, from, message, sender, settings, now).0;
    if y'.reservations != y.reservations {
      var r := y'.reservations[|y.reservations|];
      ReservationKeepsWindows(y.reservations, y.releases, r, tenant, MINUTE, m.perMinute);
      ReservationKeepsWindows(y.reservations, y.releases, r, tenant, HOUR, m.perHour);
      ReservationKeepsWindows(y.reservations, y.releases, r, tenant, DAY, m.perDay);
    }
  }

  lemma OnlyGuardReserves(y: Control, step: Step)
    requires !step.GuardStep?
    ensures Apply(y, step).reservations == y.reservations && y.releases <= Apply(y, step).releases
  {
    hide Activatable, ValidPolicy, ValidAuthorization, SendersCovered, Transform;
  }

  lemma StepKeepsQuota(y: Control, step: Step, tenant: Name, m: Limits)
    requires QuotaInv(y, tenant, m) && Modest(step, tenant, m)
    ensures QuotaInv(Apply(y, step), tenant, m)
  {
    hide AllWithin, AtMost, Modest, Authorize, Activate, Revoke, SetKillSwitch, Guard, Settle;
    LimitsStayModest(y, step, tenant, m);
    if step.GuardStep? {
      GuardKeepsQuota(y, step.tenant, step.message, step.sender, step.settings, step.at, tenant, m);
    } else {
      OnlyGuardReserves(y, step);
      var more := Apply(y, step).releases;
      ReleaseKeepsWindows(y.reservations, y.releases, more, tenant, MINUTE, m.perMinute);
      ReleaseKeepsWindows(y.reservations, y.releases, more, tenant, HOUR, m.perHour);
      ReleaseKeepsWindows(y.reservations, y.releases, more, tenant, DAY, m.perDay);
    }
  }

  lemma {:induction false} NothingHeld(tenant: Name, length: int, limit: int)
    requires limit >= 0
    ensures AllWithin([], {}, tenant, length, limit)
  {
  }

  /**
   Quota safety on any clock, even one that runs backwards: if no authorization of the tenant asked for
   more than `m`, then in every calendar minute, hour and day the tenant's unreleased units stay within
   the limit of `m`.  A single policy with limits `m` is the special case.
   */
  lemma {:induction false} QuotaIsSafe(steps: seq<Step>, tenant: Name, m: Limits)
    requires AtMost(Limits(0, 0, 0), m) && forall i :: 0 <= i < |steps| ==> Modest(steps[i], tenant, m)
    ensures QuotaInv(Run(START, steps), tenant, m)
  {
    if steps == [] {
      NothingHeld(tenant, MINUTE, m.perMinute);
      NothingHeld(tenant, HOUR, m.perHour);
      NothingHeld(tenant, DAY, m.perDay);
    } else {
      hide QuotaInv, Apply;
      QuotaIsSafe(steps[..|steps| - 1], tenant, m);
      StepKeepsQuota(Run(START, steps[..|steps| - 1]), steps[|steps| - 1], tenant, m);
    }
  }

  /** What is held from an instant on is what is held up to a later one, and what is held from that on. */
  lemma {:induction false} HeldSplits(rs: seq<Reservation>, releases: set<Name>, tenant: Name, from: Time, end: Time)
    requires from <= end
    ensures Held(rs, releases, tenant, from, None)
         == Held(rs, releases, tenant, from, Some(end)) + Held(rs, releases, tenant, end, None)
  {
    if rs != [] { HeldSplits(rs[..|rs| - 1], releases, tenant, from, end); }
  }

  /**
   The check takes as used exactly what the current window holds if and only if nothing is held from
   the end of that window on.
   */
  lemma CheckIsExactIff(rs: seq<Reservation>, releases: set<Name>, tenant: Name, now: Time, length: int)
    requires length > 0
    ensures var start := WindowStart(now, length);
            Held(rs, releases, tenant, start, None) == Held(rs, releases, tenant, start, Some(start + length))
            <==> Held(rs, releases, tenant, start + length, None) == 0
  {
    HeldSplits(rs, releases, tenant, WindowStart(now, length), WindowStart(now, length) + length);
  }

  /** On a clock that has not gone back nothing is held from the end of the current window on. */
  lemma {:induction false} AdvancingClockIsExact(rs: seq<Reservation>, releases: set<Name>, tenant: Name, now: Time,
                                                 length: int)
    requires length > 0 && forall i :: 0 <= i < |rs| ==> rs[i].reservedAt <= now
    ensures Held(rs, releases, tenant, WindowStart(now, length) + length, None) == 0
  {
    if rs != [] {
      AdvancingClockIsExact(rs[..|rs| - 1], releases, tenant, now, length);
      WindowOf(now, length, now / length);
    }
  }

  /**
   On a clock that went back the check can refuse what every window has room for: one unit reserved in
   the second minute makes it refuse one unit in the first, which is empty.
   */
  lemma BackwardClockOverRefuses(y: Control, tenant: Name, m: Message, sender: string, settings: Settings)
    requires y.reservations == [Reservation(tenant, Random(0), 1, MINUTE)] && y.releases == {} && |m.to| == 1
    requires var p := PolicyOf(y.policies, tenant);
             p.limits == Limits(1, 2, 2) && Admit(p, m, sender, settings, 0).Ok?
    ensures Guard(y, tenant, m, sender, settings, 0) == (y, Err(RateLimited))
    ensures Held(y.reservations, y.releases, tenant, 0, Some(MINUTE)) == 0
    ensures Held(y.reservations, y.releases, tenant, 0, Some(HOUR)) + 1 <= 2
    ensures Held(y.reservations, y.releases, tenant, 0, Some(DAY)) + 1 <= 2
  {
    hide Admit;
    var r := y.reservations[0];
    assert y.reservations == [] + [r];
    HeldAppend([], r, {}, tenant, 0, None);
    HeldAppend([], r, {}, tenant, 0, Some(MINUTE));
    HeldAppend([], r, {}, tenant, 0, Some(HOUR));
    HeldAppend([], r, {}, tenant, 0, Some(DAY));
  }

  // ---------------------------------------------------------------- queued mail

  /** Recipients of queued messages whose quota was drawn between two instants. */
  function QueuedIn(rs: seq<Reservation>, queued: map<Name, Mail>, tenant: Name, from: Time, until: Time): nat {
    if rs == [] then 0
    else
      var n := |rs| - 1;
      QueuedIn(rs[..n], queued, tenant, from, until)
      + if rs[n].tenant == tenant && from <= rs[n].reservedAt < until && rs[n].id in queued
        then |queued[rs[n].id].to| else 0
  }

  /** A queued message holds its quota, and a pending one that may yet be queued does so too. */
  predicate Funded(y: Control, i: int) requires 0 <= i < |y.reservations| {
    var r := y.reservations[i];
    && r.id == Random(i)
    && (r.id in y.queued ==> r.id !in y.releases && r.id !in y.pending && |y.queued[r.id].to| == r.units)
    && (r.id in y.pending ==> r.id !in y.releases && |y.pending[r.id]| == r.units)
  }

  predicate Drawn(y: Control, id: Name) { id.Random? && 0 <= id.n < |y.reservations| }

  ghost predicate MailInv(y: Control) {
    && (forall i :: 0 <= i < |y.reservations| ==> Funded(y, i))
    && (forall id :: id in y.queued || id in y.pending || id in y.releases ==> Drawn(y, id))
  }

  lemma GuardKeepsMail(y: Control, tenant: Name, m: Message, sender: string, settings: Settings, now: Time)
    requires MailInv(y)
    ensures MailInv(Guard(y, tenant, m, sender, settings, now).0)
  {
    hide Admit, UsageAt, Exhausted, PolicyOf;
    var y' := Guard(y, tenant, m, sender, settings, now).0;
    forall i | 0 <= i < |y'.reservations| ensures Funded(y', i) {
      if i < |y.reservations| { assert Funded(y, i); }
    }
  }

  lemma SettleKeepsMail(y: Control, id: Name, s: Settlement, now: Time)
    requires MailInv(y)
    ensures MailInv(Settle(y, id, s, now))
  {
    var y' := Settle(y, id, s, now);
    forall i | 0 <= i < |y'.reservations| ensures Funded(y', i) { assert Funded(y, i); }
  }

  lemma ControlKeepsMail(y: Control, step: Step)
    requires !step.GuardStep? && !step.SettleStep?
    ensures var y' := Apply(y, step);
            && y'.reservations == y.reservations && y'.releases == y.releases
            && y'.pending == y.pending && y'.queued == y.queued
  {
    hide Activatable, ValidPolicy, ValidAuthorization, SendersCovered, Transform;
  }

  lemma SameMail(y: Control, y': Control)
    requires MailInv(y)
    requires y'.reservations == y.reservations && y'.releases == y.releases
    requires y'.pending == y.pending && y'.queued == y.queued
    ensures MailInv(y')
  {
    forall i | 0 <= i < |y'.reservations| ensures Funded(y', i) { assert Funded(y, i); }
  }

  lemma {:induction false} MailKept(steps: seq<Step>)
    ensures MailInv(Run(START, steps))
  {
    if steps != [] {
      hide MailInv, Authorize, Activate, Revoke, SetKillSwitch, Guard, Settle;
      var n := |steps| - 1;
      MailKept(steps[..n]);
      var y := Run(START, steps[..n]);
      match steps[n]
      case GuardStep(tenant, message, sender, settings, at) => GuardKeepsMail(y, tenant, message, sender, settings, at);
      case SettleStep(id, settlement, at) => SettleKeepsMail(y, id, settlement, at);
      case _ =>
        ControlKeepsMail(y, steps[n]);
        SameMail(y, Run(START, steps));
    }
  }

  lemma {:induction false} QueuedIsHeld(rs: seq<Reservation>, queued: map<Name, Mail>, releases: set<Name>,
                                        tenant: Name, from: Time, until: Time)
    requires forall i :: 0 <= i < |rs| && rs[i].id in queued ==>
                           rs[i].id !in releases && |queued[rs[i].id].to| == rs[i].units
    ensures QueuedIn(rs, queued, tenant, from, until) <= Held(rs, releases, tenant, from, Some(until))
  {
    if rs != [] { QueuedIsHeld(rs[..|rs| - 1], queued, releases, tenant, from, until); }
  }

  /**
   Recipients of queued messages are bounded by the same limits in every calendar minute, hour and day,
   whether submissions succeed, fail after queueing, are duplicates or are suppressed.
   */
  lemma QueuedMailIsBounded(steps: seq<Step>, tenant: Name, m: Limits, n: int)
    requires AtMost(Limits(0, 0, 0), m) && forall i :: 0 <= i < |steps| ==> Modest(steps[i], tenant, m)
    ensures var y := Run(START, steps);
            && QueuedIn(y.reservations, y.queued, tenant, n * MINUTE, n * MINUTE + MINUTE) <= m.perMinute
            && QueuedIn(y.reservations, y.queued, tenant, n * HOUR, n * HOUR + HOUR) <= m.perHour
            && QueuedIn(y.reservations, y.queued, tenant, n * DAY, n * DAY + DAY) <= m.perDay
  {
    hide Run, Held, QueuedIn, Modest;
    var y := Run(START, steps);
    QuotaIsSafe(steps, tenant, m);
    MailKept(steps);
    forall i | 0 <= i < |y.reservations| && y.reservations[i].id in y.queued
      ensures y.reservations[i].id !in y.releases && |y.queued[y.reservations[i].id].to| == y.reservations[i].units
    {
      assert Funded(y, i);
    }
    assert WithinLimit(y.reservations, y.releases, tenant, n, MINUTE, m.perMinute);
    assert WithinLimit(y.reservations, y.releases, tenant, n, HOUR, m.perHour);
    assert WithinLimit(y.reservations, y.releases, tenant, n, DAY, m.perDay);
    QueuedIsHeld(y.reservations, y.queued, y.releases, tenant, n * MINUTE, n * MINUTE + MINUTE);
    QueuedIsHeld(y.reservations, y.queued, y.releases, tenant, n * HOUR, n * HOUR + HOUR);
    QueuedIsHeld(y.reservations, y.queued, y.releases, tenant, n * DAY, n * DAY + DAY);
  }

  // ---------------------------------------------------------------- windows of the moment of queueing

  predicate During(moment: Time, from: Time, until: Time) { from <= moment < until }

  /** Recipients of messages that were queued between two instants. */
  function QueuedDuring(rs: seq<Reservation>, queued: map<Name, Mail>, tenant: Name, from: Time, until: Time): nat {
    if rs == [] then 0
    else
      var n := |rs| - 1;
      QueuedDuring(rs[..n], queued, tenant, from, until)
      + if rs[n].tenant == tenant && rs[n].id in queued && During(queued[rs[n].id].queuedAt, from, until)
        then |queued[rs[n].id].to| else 0
  }

  /** Those of them whose quota was drawn outside these instants. */
  function Straddling(rs: seq<Reservation>, queued: map<Name, Mail>, tenant: Name, from: Time, until: Time): nat {
    if rs == [] then 0
    else
      var n := |rs| - 1;
      Straddling(rs[..n], queued, tenant, from, until)
      + if rs[n].tenant == tenant && rs[n].id in queued && During(queued[rs[n].id].queuedAt, from, until)
           && !During(rs[n].reservedAt, from, until)
        then |queued[rs[n].id].to| else 0
  }

  lemma {:induction false} QueuedSplits(rs: seq<Reservation>, queued: map<Name, Mail>, tenant: Name, from: Time,
                                        until: Time)
    ensures QueuedDuring(rs, queued, tenant, from, until)
         <= QueuedIn(rs, queued, tenant, from, until) + Straddling(rs, queued, tenant, from, until)
  {
    if rs != [] { QueuedSplits(rs[..|rs| - 1], queued, tenant, from, until); }
  }

  /**
   Counted by the moment of queueing, a window exceeds its limit by no more than the messages whose
   quota was drawn in another window; without such messages it stays within the limit.
   */
  lemma QueueTimeIsBounded(steps: seq<Step>, tenant: Name, m: Limits, n: int)
    requires AtMost(Limits(0, 0, 0), m) && forall i :: 0 <= i < |steps| ==> Modest(steps[i], tenant, m)
    ensures var y := Run(START, steps);
            && QueuedDuring(y.reservations, y.queued, tenant, n * MINUTE, n * MINUTE + MINUTE)
               <= m.perMinute + Straddling(y.reservations, y.queued, tenant, n * MINUTE, n * MINUTE + MINUTE)
            && QueuedDuring(y.reservations, y.queued, tenant, n * HOUR, n * HOUR + HOUR)
               <= m.perHour + Straddling(y.reservations, y.queued, tenant, n * HOUR, n * HOUR + HOUR)
            && QueuedDuring(y.reservations, y.queued, tenant, n * DAY, n * DAY + DAY)
               <= m.perDay + Straddling(y.reservations, y.queued, tenant, n * DAY, n * DAY + DAY)
  {
    hide Run, QueuedDuring, Straddling, QueuedIn, Modest;
    var y := Run(START, steps);
    QueuedMailIsBounded(steps, tenant, m, n);
    QueuedSplits(y.reservations, y.queued, tenant, n * MINUTE, n * MINUTE + MINUTE);
    QueuedSplits(y.reservations, y.queued, tenant, n * HOUR, n * HOUR + HOUR);
    QueuedSplits(y.reservations, y.queued, tenant, n * DAY, n * DAY + DAY);
  }

  /** One message is admitted at the end of a minute and one at the start of the next; both are queued then. */
  function LateQueueing(tenant: Name, m: Message, sender: string, settings: Settings): seq<Step> {
    [GuardStep(tenant, m, sender, settings, MINUTE - 1), GuardStep(tenant, m, sender, settings, MINUTE),
     SettleStep(Random(0), Accepted, MINUTE), SettleStep(Random(1), Accepted, MINUTE)]
  }

  /** The bound is met: with a limit of one a minute, two recipients are queued within one minute. */
  lemma QueueTimeCanExceed(y: Control, tenant: Name, m: Message, sender: string, settings: Settings)
    requires y.reservations == [] && y.releases == {} && y.pending == map[] && y.queued == map[] && |m.to| == 1
    requires var p := PolicyOf(y.policies, tenant);
             && p.limits == Limits(1, 2, 2)
             && Admit(p, m, sender, settings, MINUTE - 1).Ok? && Admit(p, m, sender, settings, MINUTE).Ok?
    ensures var y' := Run(y, LateQueueing(tenant, m, sender, settings));
            && QueuedDuring(y'.reservations, y'.queued, tenant, MINUTE, 2 * MINUTE) == 2
            && Straddling(y'.reservations, y'.queued, tenant, MINUTE, 2 * MINUTE) == 1
  {
    var s := LateQueueing(tenant, m, sender, settings);
    RunFour(y, s[0], s[1], s[2], s[3]);
    assert s == [s[0], s[1], s[2], s[3]];
    hide Run, Guard, Admit, QueuedDuring, Straddling;
    FirstAdmitted(y, tenant, m, sender, settings);
    SecondAdmitted(Apply(y, s[0]), tenant, m, sender, settings);
    var y' := Run(y, s);
    assert y'.reservations
        == [Reservation(tenant, Random(0), 1, MINUTE - 1)] + [Reservation(tenant, Random(1), 1, MINUTE)];
    CountLateQueueing(tenant, y'.queued);
  }

  lemma CountLateQueueing(tenant: Name, queued: map<Name, Mail>)
    requires Random(0) in queued && |queued[Random(0)].to| == 1 && queued[Random(0)].queuedAt == MINUTE
    requires Random(1) in queued && |queued[Random(1)].to| == 1 && queued[Random(1)].queuedAt == MINUTE
    ensures var rs := [Reservation(tenant, Random(0), 1, MINUTE - 1)] + [Reservation(tenant, Random(1), 1, MINUTE)];
            && QueuedDuring(rs, queued, tenant, MINUTE, 2 * MINUTE) == 2
            && Straddling(rs, queued, tenant, MINUTE, 2 * MINUTE) == 1
  {
    var r0, r1 := Reservation(tenant, Random(0), 1, MINUTE - 1), Reservation(tenant, Random(1), 1, MINUTE);
    assert ([r0] + [r1])[..1] == [r0] && [r0][..0] == [];
    assert QueuedDuring([r0], queued, tenant, MINUTE, 2 * MINUTE) == 1;
    assert Straddling([r0], queued, tenant, MINUTE, 2 * MINUTE) == 1;
  }

  lemma RunFour(y: Control, a: Step, b: Step, c: Step, d: Step)
    ensures Run(y, [a, b, c, d]) == Apply(Apply(Apply(Apply(y, a), b), c), d)
  {
    hide Apply;
    assert [a, b, c, d][..3] == [a, b, c] && [a, b, c][..2] == [a, b] && [a, b][..1] == [a] && [a][..0] == [];
    assert Run(y, [a]) == Apply(y, a);
    assert Run(y, [a, b]) == Apply(Run(y, [a]), b);
    assert Run(y, [a, b, c]) == Apply(Run(y, [a, b]), c);
  }

  lemma FirstAdmitted(y: Control, tenant: Name, m: Message, sender: string, settings: Settings)
    requires y.reservations == [] && |m.to| == 1 && y.pending == map[]
    requires var p := PolicyOf(y.policies, tenant);
             p.limits == Limits(1, 2, 2) && Admit(p, m, sender, settings, MINUTE - 1).Ok?
    ensures Guard(y, tenant, m, sender, settings, MINUTE - 1).0
         == y.(reservations := [Reservation(tenant, Random(0), 1, MINUTE - 1)], pending := map[Random(0) := m.to])
  {
    hide Admit;
  }

  lemma SecondAdmitted(y: Control, tenant: Name, m: Message, sender: string, settings: Settings)
    requires y.reservations == [Reservation(tenant, Random(0), 1, MINUTE - 1)] && y.releases == {} && |m.to| == 1
    requires var p := PolicyOf(y.policies, tenant);
             p.limits == Limits(1, 2, 2) && Admit(p, m, sender, settings, MINUTE).Ok?
    ensures Guard(y, tenant, m, sender, settings, MINUTE).0
         == y.(reservations := y.reservations + [Reservation(tenant, Random(1), 1, MINUTE)],
               pending := y.pending[Random(1) := m.to])
  {
    hide Admit, Held;
    var r := y.reservations[0];
    assert y.reservations == [] + [r];
    HeldAppend([], r, {}, tenant, MINUTE, None);
    HeldAppend([], r, {}, tenant, 0, None);
    EmptyHolds(tenant, MINUTE);
    EmptyHolds(tenant, 0);
  }

  lemma EmptyHolds(tenant: Name, from: Time)
    ensures Held([], {}, tenant, from, None) == 0
  {
  }
}
