/**
 Exactly when email production control accepts a call, in every reachable state: authorization,
 activation, revocation, kill switch and the send guard.  What the lifecycle guarantees anyway does not
 appear in the conditions.
 */
module PolicyAcceptance {
  import opened Identities
  import opened EmailControl
  import opened EmailTheorems
  import opened PolicyTheorems

  // ---------------------------------------------------------------- addresses

  /** `s` is `local@domain` with a single `@`. */
  predicate IsAddress(s: string, local: string, domain: string) {
    s == local + "@" + domain && '@' !in local && '@' !in domain
  }

  lemma {:induction false} DomainOfAddress(local: string, domain: string)
    requires '@' !in domain
    ensures DomainOf(local + "@" + domain) == domain
  {
    var s := local + "@" + domain;
    var n := |s| - 1;
    if domain == "" {
      assert s[n] == '@';
    } else {
      var m := |domain| - 1;
      DomainOfAddress(local, domain[..m]);
      assert s[..n] == local + "@" + domain[..m];
      assert s[n] == domain[m];
      assert domain == domain[..m] + [domain[m]];
    }
  }

  lemma {:induction false} DomainOfBareName(s: string)
    requires '@' !in s
    ensures DomainOf(s) == s
  {
    if s != "" {
      DomainOfBareName(s[..|s| - 1]);
      assert s == s[..|s| - 1] + [s[|s| - 1]];
    }
  }

  lemma OneAtIff(s: string)
    ensures OneAt(s) <==> exists local, domain :: IsAddress(s, local, domain)
  {
    if OneAt(s) {
      var i :| 0 <= i < |s| && s[i] == '@' && forall j :: 0 <= j < |s| && s[j] == '@' ==> j == i;
      assert s == s[..i] + "@" + s[i + 1..];
      assert IsAddress(s, s[..i], s[i + 1..]);
    }
    if local, domain :| IsAddress(s, local, domain) {
      var i := |local|;
      assert s[i] == '@';
      assert forall j :: 0 <= j < i ==> s[j] == local[j];
      assert forall j :: i < j < |s| ==> s[j] == domain[j - i - 1];
    }
  }

  // ---------------------------------------------------------------- authorizations

  predicate NoneTwice(s: seq<string>) { forall i, j :: 0 <= i < |s| && 0 <= j < |s| && s[i] == s[j] ==> i == j }

  predicate GoodDomain(d: string) {
    1 <= |d| <= 253 && '@' !in d && d[0] != '.' && d[|d| - 1] != '.'
  }

  ghost predicate GoodAddresses(s: seq<string>) {
    NoneTwice(s) && forall a :: a in s ==> exists local, domain :: IsAddress(a, local, domain)
  }

  predicate AllTransactional(categories: seq<string>) {
    forall c :: c in categories ==> c in {"transactional", "account", "security", "trading", "funds", "statements",
                                          "support", "system", "service"}
  }

  lemma TransactionalIff(categories: seq<string>)
    ensures AllTransactional(categories) <==> forall c :: c in categories ==> c in TRANSACTIONAL_CATEGORIES
  {
  }

  /** Who may send what, to whom and how often: the terms of a policy that stands. */
  ghost predicate GoodTerms(mode: Mode, domains: seq<string>, senders: seq<string>, scope: Scope,
                            recipients: seq<string>, recipientDomains: seq<string>, categories: seq<string>,
                            limits: Limits) {
    && (mode.Canary? || mode.Production?)
    && domains != [] && NoneTwice(domains) && (forall d :: d in domains ==> GoodDomain(d))
    && senders != [] && GoodAddresses(senders)
    && Within(senders, domains)
    && (scope.Allowlist? || (scope.DomainAllowlist? && mode.Production?))
    && (scope.Allowlist? <==> recipients != []) && (scope.DomainAllowlist? <==> recipientDomains != [])
    && GoodAddresses(recipients)
    && NoneTwice(recipientDomains) && (forall d :: d in recipientDomains ==> GoodDomain(d))
    && categories != [] && NoneTwice(categories) && AllTransactional(categories)
    && 1 <= limits.perMinute <= limits.perHour <= limits.perDay
    && limits.perMinute <= 100_000 && limits.perHour <= 1_000_000 && limits.perDay <= 10_000_000
  }

  ghost predicate GoodAuthorization(b: Authorization) {
    && GoodTerms(b.mode, b.domains, b.senders, b.scope, b.recipients, b.recipientDomains, b.categories, b.limits)
    && b.provider == "klyrow-postal" && b.validFrom < b.validUntil
  }

  /** The policy says what the authorization says. */
  predicate Carries(q: Policy, b: Authorization) {
    && q.mode == b.mode && q.domains == b.domains && q.senders == b.senders && q.scope == b.scope
    && q.recipients == b.recipients && q.recipientDomains == b.recipientDomains && q.categories == b.categories
    && q.limits == b.limits && q.validFrom == Some(b.validFrom) && q.validUntil == Some(b.validUntil)
    && q.changeId == Some(b.changeId) && q.owners == Some(b.owners) && q.provider == Some(b.provider)
    && q.environment == Some(b.environment) && q.releaseSha == Some(b.releaseSha)
  }

  lemma DistinctIff(s: seq<string>)
    ensures Distinct(s) <==> NoneTwice(s)
  {
  }

  lemma SenderCoveredIff(a: string, domains: seq<string>)
    requires OneAt(a)
    ensures DomainOf(a) in domains <==> exists local, domain :: IsAddress(a, local, domain) && domain in domains
  {
    OneAtIff(a);
    var l, d :| IsAddress(a, l, d);
    DomainOfAddress(l, d);
    forall local, domain | IsAddress(a, local, domain) ensures domain == d { DomainOfAddress(local, domain); }
  }

  /** Every address belongs to one of the domains. */
  ghost predicate Within(addresses: seq<string>, domains: seq<string>) {
    forall a :: a in addresses ==> exists local, domain :: IsAddress(a, local, domain) && domain in domains
  }

  lemma SendersCoveredIff(senders: seq<string>, domains: seq<string>)
    requires GoodAddresses(senders)
    ensures SendersCovered(senders, domains) <==> Within(senders, domains)
  {
    AddressesIff(senders);
    forall a | a in senders
      ensures DomainOf(a) in domains <==> exists local, domain :: IsAddress(a, local, domain) && domain in domains
    {
      SenderCoveredIff(a, domains);
    }
  }

  lemma AddressesIff(s: seq<string>)
    ensures (Distinct(s) && forall a :: a in s ==> OneAt(a)) <==> GoodAddresses(s)
  {
    DistinctIff(s);
    forall a | a in s ensures OneAt(a) <==> exists local, domain :: IsAddress(a, local, domain) { OneAtIff(a); }
  }

  lemma DomainsIff(s: seq<string>)
    ensures (Distinct(s) && forall d :: d in s ==> WellFormedDomain(d))
       <==> (NoneTwice(s) && forall d :: d in s ==> GoodDomain(d))
  {
    DistinctIff(s);
  }

  /** The shape of a policy that every write checks. */
  ghost predicate Shaped(domains: seq<string>, senders: seq<string>, recipients: seq<string>,
                         recipientDomains: seq<string>) {
    && NoneTwice(domains) && (forall d :: d in domains ==> GoodDomain(d))
    && NoneTwice(recipientDomains) && (forall d :: d in recipientDomains ==> GoodDomain(d))
    && GoodAddresses(senders) && GoodAddresses(recipients)
  }

  lemma ValidPolicyIff(p: Policy)
    ensures ValidPolicy(p) <==>
              && Shaped(p.domains, p.senders, p.recipients, p.recipientDomains)
              && (p.validFrom.Some? && p.validUntil.Some? ==> p.validFrom.value < p.validUntil.value)
  {
    hide GoodAddresses, WellFormedDomain, GoodDomain, OneAt, Distinct, NoneTwice;
    DomainsIff(p.domains);
    DomainsIff(p.recipientDomains);
    AddressesIff(p.senders);
    AddressesIff(p.recipients);
  }

  lemma GoodDomainsFit(s: seq<string>)
    requires forall d :: d in s ==> GoodDomain(d)
    ensures forall d :: d in s ==> d != "" && '@' !in d && |d| <= 253
  {
  }

  /** The checks of the request, of the sender loop and of the stored policy amount to one condition. */
  lemma AuthorizationChecks(b: Authorization)
    ensures (&& ValidAuthorization(b) && SendersCovered(b.senders, b.domains)
             && Shaped(b.domains, b.senders, b.recipients, b.recipientDomains))
       <==> GoodAuthorization(b)
  {
    hide WellFormedDomain, OneAt, GoodDomain, GoodAddresses, NoneTwice, Distinct, SendersCovered, Within,
      AllTransactional, TRANSACTIONAL_CATEGORIES;
    TransactionalIff(b.categories);
    DistinctIff(b.categories);
    DistinctIff(b.recipientDomains);
    if GoodAddresses(b.senders) { SendersCoveredIff(b.senders, b.domains); }
    if forall d :: d in b.recipientDomains ==> GoodDomain(d) { GoodDomainsFit(b.recipientDomains); }
  }

  lemma CarriedByWrite(p: Policy, b: Authorization, actor: string, now: Time)
    ensures var q := Written(p, Authorizing(b), actor, now);
            && Carries(q, b) && q.version == p.version + 1 && q.enabled && q.state.AuthorizedNotActive?
            && !q.killSwitchOpen && q.approvedBy == Some(actor) && q.authorizedAt == Some(now)
            && q.activatedBy.None? && q.activatedAt.None?
  {
  }

  /**
   A new authorization is accepted exactly when it expects the current version and is good: one
   condition for the checks that the request model, the sender loop and the stored policy make.  The
   policy then carries exactly its content, approved by the caller, inactive and switched off; a refusal
   changes nothing.
   */
  lemma AuthorizationAcceptedIff(y: Control, tenant: Name, actor: string, key: Name, b: Authorization, now: Time)
    requires IsNew(y, tenant, AuthorizeAction, actor, key)
    ensures var (y', r) := Authorize(y, tenant, actor, key, b, now);
            var q := PolicyOf(y'.policies, tenant);
            && (r.Ok? <==> PolicyOf(y.policies, tenant).version == b.expectedVersion && GoodAuthorization(b))
            && (r.Ok? ==> && r.value == q && Carries(q, b) && q.version == b.expectedVersion + 1
                          && q.enabled && q.state.AuthorizedNotActive? && !q.killSwitchOpen
                          && q.approvedBy == Some(actor) && q.authorizedAt == Some(now) && q.activatedBy.None?)
            && (r.Err? ==> y' == y)
  {
    hide Written, Transform, ValidPolicy, ValidAuthorization, SendersCovered, GoodAuthorization, Shaped;
    var p := PolicyOf(y.policies, tenant);
    CarriedByWrite(p, b, actor, now);
    AuthorizationChecks(b);
    ValidPolicyIff(Written(p, Authorizing(b), actor, now));
    WrittenIs(p, Authorizing(b), actor, now);
    assert GoodAuthorization(b) ==> b.validFrom < b.validUntil by { GoodWindow(b); }
    assert ValidAuthorization(b) ==> b.validFrom < b.validUntil by { ValidWindow(b); }
  }

  lemma WrittenIs(p: Policy, change: Change, actor: string, now: Time)
    ensures Written(p, change, actor, now)
         == Transform(p, change, actor, now).(version := p.version + 1, updatedAt := now)
  {
    hide Transform;
  }

  lemma GoodWindow(b: Authorization)
    ensures GoodAuthorization(b) ==> b.validFrom < b.validUntil && b.provider == "klyrow-postal"
  {
    hide GoodTerms;
  }

  lemma ValidWindow(b: Authorization)
    ensures ValidAuthorization(b) ==> b.validFrom < b.validUntil
  {
    hide TRANSACTIONAL_CATEGORIES, Distinct, ScopeFits, LimitsFit;
  }

  // ---------------------------------------------------------------- policies in force

  /** What holds of every policy in force; a policy that stands has good terms and a complete record. */
  ghost predicate Sound(p: Policy) {
    && Shaped(p.domains, p.senders, p.recipients, p.recipientDomains)
    && (p.validFrom.Some? && p.validUntil.Some? ==> p.validFrom.value < p.validUntil.value)
    && (p.enabled <==> Standing(p))
    && (p.killSwitchOpen ==> p.state.Active?)
    && (p.enabled ==>
          && GoodTerms(p.mode, p.domains, p.senders, p.scope, p.recipients, p.recipientDomains, p.categories, p.limits)
          && p.provider == Some("klyrow-postal") && p.validFrom.Some? && p.validUntil.Some? && p.owners.Some?
          && p.approvedBy.Some? && p.authorizedAt.Some?)
  }

  ghost predicate AllSound(y: Control) { forall t :: Sound(PolicyOf(y.policies, t)) }

  lemma AuthorizedIsSound(q: Policy, b: Authorization)
    requires Carries(q, b) && GoodAuthorization(b) && q.enabled && q.state.AuthorizedNotActive? && !q.killSwitchOpen
    requires q.approvedBy.Some? && q.authorizedAt.Some?
    ensures Sound(q)
  {
    hide GoodAddresses, GoodDomain, NoneTwice, AllTransactional, Within;
  }

  lemma ControlledIsSound(e: Audit)
    requires Legal(e) && Sound(e.previous) && !e.action.AuthorizeAction?
    ensures Sound(e.next)
  {
    hide Shaped, GoodTerms;
  }

  lemma StepStaysSound(y: Control, step: Step)
    requires AllSound(y)
    ensures AllSound(Apply(y, step))
  {
    hide Authorize, Activate, Revoke, SetKillSwitch, Guard, Settle, Sound, Legal, Carries, GoodAuthorization;
    var y' := Apply(y, step);
    StepAppends(y, step);
    if y'.policies != y.policies {
      var e := y'.audits[|y.audits|];
      assert Sound(e.previous);
      if e.action.AuthorizeAction? {
        StepAuthorizes(y, step);
      } else {
        ControlledIsSound(e);
      }
      forall t ensures Sound(PolicyOf(y'.policies, t)) { assert Sound(PolicyOf(y.policies, t)); }
    }
  }

  lemma StepAuthorizes(y: Control, step: Step)
    requires step.AuthorizeStep? && Apply(y, step).policies != y.policies
    ensures Sound(PolicyOf(Apply(y, step).policies, step.tenant))
  {
    hide ValidAuthorization, SendersCovered, Sound, GoodAuthorization, Carries, Mutate;
    assert IsNew(y, step.tenant, AuthorizeAction, step.actor, step.key) by {
      RepeatWritesNothing(y, step.tenant, AuthorizeAction, step.actor, step.key, step.body.expectedVersion,
                          step.body.reason, AuthorizeRequest(step.body), Authorizing(step.body), step.at);
    }
    hide Authorize;
    AuthorizationAcceptedIff(y, step.tenant, step.actor, step.key, step.body, step.at);
    AuthorizedIsSound(PolicyOf(Apply(y, step).policies, step.tenant), step.body);
  }

  lemma RepeatWritesNothing(y: Control, tenant: Name, action: Action, actor: string, key: Name, version: int,
                            reason: Name, request: Request, change: Change, now: Time)
    ensures !IsNew(y, tenant, action, actor, key) ==>
              Mutate(y, tenant, action, actor, key, version, reason, request, change, now).0 == y
  {
    hide Transform, ValidPolicy;
  }

  lemma DefaultIsSound(tenant: Name)
    ensures Sound(DefaultPolicy(tenant))
  {
  }

  /**
   In every reachable state each policy is well-formed and is enabled exactly while an authorization
   stands.  It then has good terms: a canary or production mode with a bounded recipient list,
   transactional categories only, senders of its own domains, ordered limits within the platform's
   bounds, a bounded validity and a complete record.
   */
  lemma {:induction false} ReachableIsSound(steps: seq<Step>)
    ensures AllSound(Run(START, steps))
  {
    hide Apply, Sound;
    if steps == [] {
      forall t ensures Sound(PolicyOf(START.policies, t)) { DefaultIsSound(t); }
    } else {
      ReachableIsSound(steps[..|steps| - 1]);
      StepStaysSound(Run(START, steps[..|steps| - 1]), steps[|steps| - 1]);
    }
  }

  // ---------------------------------------------------------------- activation, revocation, switch

  /** The deployment is the approved one, the moment is within the window, and every domain is ready to send. */
  predicate ReadyToSend(p: Policy, settings: Settings, registry: map<string, DomainRecord>, now: Time)
    requires p.validFrom.Some? && p.validUntil.Some? && p.owners.Some? && p.approvedBy.Some?
  {
    && settings.deliveryEnabled && settings.activationId != "" && p.changeId == Some(settings.activationId)
    && p.environment == Some(settings.environment) && p.releaseSha == Some(settings.sourceSha)
    && p.validFrom.value <= now < p.validUntil.value
    && "" !in {p.owners.value.production, p.owners.value.monitoring, p.owners.value.escalation,
               p.owners.value.rollback, p.owners.value.procedure, p.approvedBy.value}
    && (forall d :: d in p.domains ==>
          && d in registry && registry[d].dnsPass && registry[d].sendEligible && registry[d].productionReady
          && !registry[d].dkimRotationRequired && !registry[d].recheckRequired)
  }

  lemma MarketingIsNotTransactional(categories: seq<string>)
    requires AllTransactional(categories)
    ensures MARKETING !in categories
  {
  }

  lemma ActivatableIff(p: Policy, settings: Settings, registry: map<string, DomainRecord>, now: Time)
    requires Sound(p) && p.enabled
    ensures Activatable(p, settings, registry, now) <==> ReadyToSend(p, settings, registry, now)
  {
    hide Shaped, AllTransactional, NoneTwice, GoodAddresses, GoodDomain, Within;
    MarketingIsNotTransactional(p.categories);
  }

  lemma ControlledIsValid(p: Policy, change: Change, actor: string, now: Time)
    requires Sound(p) && !change.Authorizing?
    ensures ValidPolicy(Written(p, change, actor, now))
  {
    hide ValidPolicy, Shaped, GoodTerms;
    ValidPolicyIff(Written(p, change, actor, now));
  }

  /** A new control call that is no authorization is accepted by the store exactly on the current version. */
  lemma ControlAcceptedIff(y: Control, tenant: Name, action: Action, actor: string, key: Name, version: int,
                           reason: Name, request: Request, change: Change, now: Time)
    requires Sound(PolicyOf(y.policies, tenant)) && !change.Authorizing? && IsNew(y, tenant, action, actor, key)
    ensures var (y', r) := Mutate(y, tenant, action, actor, key, version, reason, request, change, now);
            && (r.Ok? <==> PolicyOf(y.policies, tenant).version == version)
            && (r.Ok? ==> PolicyOf(y'.policies, tenant) == r.value
                          == Written(PolicyOf(y.policies, tenant), change, actor, now))
            && (r.Err? ==> y' == y)
  {
    hide Transform, ValidPolicy, Sound;
    ControlledIsValid(PolicyOf(y.policies, tenant), change, actor, now);
  }

  lemma SoundAt(steps: seq<Step>, tenant: Name)
    ensures Sound(PolicyOf(Run(START, steps).policies, tenant))
  {
    hide Run, Sound;
    ReachableIsSound(steps);
  }

  /**
   In every reachable state a new activation is accepted exactly when it expects the current version, an
   authorization awaits activation, and the deployment is ready to send under it; the other activation
   blockers cannot occur.  It then turns the policy active and opens its switch.
   */
  lemma ActivationAcceptedIff(steps: seq<Step>, tenant: Name, actor: string, key: Name, version: int, reason: Name,
                              settings: Settings, registry: map<string, DomainRecord>, now: Time)
    requires IsNew(Run(START, steps), tenant, ActivateAction, actor, key)
    ensures var y := Run(START, steps);
            var p := PolicyOf(y.policies, tenant);
            var (y', r) := Activate(y, tenant, actor, key, version, reason, settings, registry, now);
            && (p.state.AuthorizedNotActive? ==>
                  p.validFrom.Some? && p.validUntil.Some? && p.owners.Some? && p.approvedBy.Some?)
            && (r.Ok? <==> && p.version == version && p.state.AuthorizedNotActive?
                           && ReadyToSend(p, settings, registry, now))
            && (r.Ok? ==> PolicyOf(y'.policies, tenant)
                          == p.(state := Active, activatedBy := Some(actor), activatedAt := Some(now),
                                killSwitchOpen := true, version := version + 1, updatedAt := now))
            && (r.Err? ==> y' == y)
  {
    hide Run, Mutate, Activatable, Shaped, GoodTerms;
    var y := Run(START, steps);
    var p := PolicyOf(y.policies, tenant);
    SoundAt(steps, tenant);
    if p.state.AuthorizedNotActive? { ActivatableIff(p, settings, registry, now); }
    ControlAcceptedIff(y, tenant, ActivateAction, actor, key, version, reason, ControlRequest(version, reason),
                       Activating, now);
  }

  /** In every reachable state a new revocation is accepted exactly when it expects the current version. */
  lemma RevocationAcceptedIff(steps: seq<Step>, tenant: Name, actor: string, key: Name, version: int, reason: Name,
                              now: Time)
    requires IsNew(Run(START, steps), tenant, RevokeAction, actor, key)
    ensures var y := Run(START, steps);
            var (y', r) := Revoke(y, tenant, actor, key, version, reason, now);
            && (r.Ok? <==> PolicyOf(y.policies, tenant).version == version)
            && (r.Err? ==> y' == y)
  {
    hide Run, Mutate, Sound;
    SoundAt(steps, tenant);
    ControlAcceptedIff(Run(START, steps), tenant, RevokeAction, actor, key, version, reason,
                       ControlRequest(version, reason), Revoking, now);
  }

  /**
   In every reachable state a new switching call is accepted exactly when it expects the current version
   and, to open the switch, the policy is active and the deployment ready to send under it.  It then
   moves nothing but the switch.
   */
  lemma SwitchAcceptedIff(steps: seq<Step>, tenant: Name, actor: string, key: Name, version: int, reason: Name,
                          open: bool, settings: Settings, registry: map<string, DomainRecord>, now: Time)
    requires IsNew(Run(START, steps), tenant, if open then OpenAction else CloseAction, actor, key)
    ensures var y := Run(START, steps);
            var p := PolicyOf(y.policies, tenant);
            var (y', r) := SetKillSwitch(y, tenant, actor, key, version, reason, open, settings, registry, now);
            && (p.state.Active? ==> p.validFrom.Some? && p.validUntil.Some? && p.owners.Some? && p.approvedBy.Some?)
            && (r.Ok? <==> && p.version == version
                           && (open ==> p.state.Active? && ReadyToSend(p, settings, registry, now)))
            && (r.Ok? ==> PolicyOf(y'.policies, tenant)
                          == p.(killSwitchOpen := open, version := version + 1, updatedAt := now))
            && (r.Err? ==> y' == y)
  {
    hide Run, Mutate, Activatable, Shaped, GoodTerms;
    var y := Run(START, steps);
    var p := PolicyOf(y.policies, tenant);
    SoundAt(steps, tenant);
    if p.state.Active? { ActivatableIff(p, settings, registry, now); }
    ControlAcceptedIff(y, tenant, if open then OpenAction else CloseAction, actor, key, version, reason,
                       SwitchRequest(version, reason, open), Switching(open), now);
  }

  // ---------------------------------------------------------------- the guard

  /** The recipient is on the policy's list, or in one of its recipient domains. */
  ghost predicate MayReceive(p: Policy, recipient: string) {
    || (p.scope.Allowlist? && recipient in p.recipients)
    || (p.scope.DomainAllowlist?
        && exists prefix, domain :: && recipient == prefix + "@" + domain && '@' !in domain
                                    && domain in p.recipientDomains)
  }

  lemma {:induction false} SplitAtLast(s: string) returns (prefix: string, domain: string)
    requires '@' in s
    ensures s == prefix + "@" + domain && '@' !in domain
  {
    var n := |s| - 1;
    if s[n] == '@' {
      prefix, domain := s[..n], "";
    } else {
      assert '@' in s[..n] by {
        var i :| 0 <= i < |s| && s[i] == '@';
        assert s[..n][i] == '@';
      }
      var d;
      prefix, d := SplitAtLast(s[..n]);
      domain := d + [s[n]];
    }
  }

  lemma ListedIff(p: Policy, recipient: string)
    ensures RecipientListed(p, recipient) <==> MayReceive(p, recipient)
  {
    if p.scope.DomainAllowlist? {
      if '@' in recipient {
        var prefix, domain := SplitAtLast(recipient);
        DomainOfAddress(prefix, domain);
      }
      forall prefix, domain | recipient == prefix + "@" + domain && '@' !in domain
        ensures '@' in recipient && DomainOf(recipient) == domain
      {
        DomainOfAddress(prefix, domain);
        assert recipient[|prefix|] == '@';
      }
    }
  }

  /** Used since the start of the window that the moment lies in, with the units asked for, at most the limit. */
  predicate Affords(y: Control, tenant: Name, units: nat, length: int, limit: int, now: Time) requires length > 0 {
    Held(y.reservations, y.releases, tenant, now - now % length, None) + units <= limit
  }

  lemma AffordsIff(y: Control, tenant: Name, units: nat, limits: Limits, now: Time)
    ensures !Exhausted(UsageAt(y.reservations, y.releases, tenant, now), units, limits)
       <==> && Affords(y, tenant, units, 60 * 1_000_000, limits.perMinute, now)
            && Affords(y, tenant, units, 3600 * 1_000_000, limits.perHour, now)
            && Affords(y, tenant, units, 86400 * 1_000_000, limits.perDay, now)
  {
    hide Held;
    assert WindowStart(now, MINUTE) == now - now % MINUTE;
    assert WindowStart(now, HOUR) == now - now % HOUR;
    assert WindowStart(now, DAY) == now - now % DAY;
  }

  /** The category of a message: transactional unless it names another. */
  predicate InCategory(m: Message, c: string) {
    if m.category.None? || m.category.value == "" then c == "transactional" else m.category == Some(c)
  }

  lemma AdmitIff(p: Policy, m: Message, sender: string, settings: Settings, now: Time)
    requires Sound(p)
    ensures Admit(p, m, sender, settings, now).Ok? <==>
              && settings.deliveryEnabled && p.killSwitchOpen && p.validFrom.value <= now < p.validUntil.value
              && sender in p.senders && (exists c :: c in p.categories && InCategory(m, c))
              && (forall r :: r in m.to ==> MayReceive(p, r))
  {
    hide Shaped, AllTransactional, NoneTwice, GoodAddresses, GoodDomain, RecipientListed, MayReceive, SendersCovered,
      Within, DomainOf;
    forall r | r in m.to ensures RecipientListed(p, r) <==> MayReceive(p, r) { ListedIff(p, r); }
    assert InCategory(m, CategoryOf(m));
    if p.enabled {
      MarketingIsNotTransactional(p.categories);
      SenderDomains(p.senders, p.domains);
    }
  }

  lemma SenderDomains(senders: seq<string>, domains: seq<string>)
    requires GoodAddresses(senders) && Within(senders, domains)
    ensures forall a :: a in senders ==> DomainOf(a) in domains
  {
    hide GoodAddresses, Within;
    SendersCoveredIff(senders, domains);
  }

  /**
   In every reachable state the guard passes a message exactly when delivery is enabled, the tenant's
   switch is open, the moment lies in the authorized window, the sender is approved, the category is
   authorized, every recipient is listed, and minute, hour and day have room for all recipients.  It then
   draws exactly their number; a refusal changes nothing.
   */
  lemma GuardPassesIff(steps: seq<Step>, tenant: Name, m: Message, sender: string, settings: Settings, now: Time)
    ensures var y := Run(START, steps);
            var p := PolicyOf(y.policies, tenant);
            var (y', r) := Guard(y, tenant, m, sender, settings, now);
            && (p.killSwitchOpen ==> p.validFrom.Some? && p.validUntil.Some?)
            && (r.Ok? <==>
                  && settings.deliveryEnabled && p.killSwitchOpen && p.validFrom.value <= now < p.validUntil.value
                  && sender in p.senders && (exists c :: c in p.categories && InCategory(m, c))
                  && (forall r :: r in m.to ==> MayReceive(p, r))
                  && Affords(y, tenant, |m.to|, 60 * 1_000_000, p.limits.perMinute, now)
                  && Affords(y, tenant, |m.to|, 3600 * 1_000_000, p.limits.perHour, now)
                  && Affords(y, tenant, |m.to|, 86400 * 1_000_000, p.limits.perDay, now))
            && (r.Ok? ==> && r.value.tenant == tenant && r.value.units == |m.to| && r.value.reservedAt == now
                          && y' == y.(reservations := y.reservations + [r.value],
                                      pending := y.pending[r.value.id := m.to]))
            && (r.Err? ==> y' == y)
  {
    hide Run, Admit, UsageAt, Exhausted, Affords, MayReceive, InCategory, Shaped, GoodTerms;
    var y := Run(START, steps);
    SoundAt(steps, tenant);
    AdmitIff(PolicyOf(y.policies, tenant), m, sender, settings, now);
    AffordsIff(y, tenant, |m.to|, PolicyOf(y.policies, tenant).limits, now);
  }
}
