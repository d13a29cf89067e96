/**
 Email production control (app/email_production_control.py, memory store) as a value: the authorization
 lifecycle of a tenant's policy, the send guard, and the quota that a guarded submission draws on.
 Addresses, domains and categories are strings that have already been trimmed and lower-cased.
 */
module EmailControl {
  import opened Identities

  // ---------------------------------------------------------------- policies

  datatype Mode = Safe | Canary | Production | Campaign

  datatype AuthorizationState = NotAuthorized | AuthorizedNotActive | Active | Revoked

  datatype Scope = DenyAll | Allowlist | DomainAllowlist | TransactionalAny | ConsentedMarketing

  datatype Limits = Limits(perMinute: int, perHour: int, perDay: int)

  datatype Owners = Owners(production: string, monitoring: string, escalation: string, rollback: string,
                           procedure: string)

  datatype Policy = Policy(
    tenant: Name, enabled: bool, mode: Mode, state: AuthorizationState,
    domains: seq<string>, senders: seq<string>, scope: Scope,
    recipients: seq<string>, recipientDomains: seq<string>, categories: seq<string>,
    limits: Limits, validFrom: Option<Time>, validUntil: Option<Time>, changeId: Option<string>,
    approvedBy: Option<string>, activatedBy: Option<string>, owners: Option<Owners>,
    provider: Option<string>, environment: Option<string>, releaseSha: Option<string>,
    authorizedAt: Option<Time>, activatedAt: Option<Time>, killSwitchOpen: bool, version: int, updatedAt: Time)

  /** The policy of a tenant that never had one: everything is denied. */
  function DefaultPolicy(tenant: Name): Policy {
    Policy(tenant, false, Safe, NotAuthorized, [], [], DenyAll, [], [], [], Limits(0, 0, 0), None, None, None,
           None, None, None, None, None, None, None, None, false, 1, 0)
  }

  datatype Authorization = Authorization(
    expectedVersion: int, mode: Mode, domains: seq<string>, senders: seq<string>, scope: Scope,
    recipients: seq<string>, recipientDomains: seq<string>, categories: seq<string>, limits: Limits,
    validFrom: Time, validUntil: Time, changeId: string, owners: Owners, provider: string, environment: string,
    releaseSha: string, reason: Name)

  const PROVIDER := "klyrow-postal"
  const TRANSACTIONAL_CATEGORIES := {"transactional", "account", "security", "trading", "funds", "statements",
                                     "support", "system", "service"}
  const MARKETING := "marketing"

  predicate Distinct(s: seq<string>) { forall i, j :: 0 <= i < j < |s| ==> s[i] != s[j] }

  /** What follows the last `@`, or the whole string. */
  function DomainOf(address: string): (d: string)
    ensures forall i :: 0 <= i < |d| ==> d[i] != '@'
  {
    if address == "" then ""
    else
      var n := |address| - 1;
      if address[n] == '@' then "" else DomainOf(address[..n]) + [address[n]]
  }

  predicate WellFormedDomain(d: string) {
    d != "" && |d| <= 253 && '@' !in d && d[0] != '.' && d[|d| - 1] != '.'
  }

  predicate OneAt(address: string) {
    exists i :: 0 <= i < |address| && address[i] == '@'
                && forall j :: 0 <= j < |address| && address[j] == '@' ==> j == i
  }

  /** The recipient list an authorization of this mode has to come with. */
  predicate ScopeFits(mode: Mode, scope: Scope, recipients: seq<string>, recipientDomains: seq<string>) {
    match mode
    case Canary => scope.Allowlist? && recipients != [] && recipientDomains == []
    case Production =>
      || (scope.Allowlist? && recipients != [] && recipientDomains == [])
      || (scope.DomainAllowlist? && recipientDomains != [] && recipients == [])
    case _ => false
  }

  predicate LimitsFit(l: Limits) {
    1 <= l.perMinute <= 100_000 && l.perHour <= 1_000_000 && l.perDay <= 10_000_000
    && l.perMinute <= l.perHour <= l.perDay
  }

  /** The request model's own validation. */
  predicate ValidAuthorization(b: Authorization) {
    && LimitsFit(b.limits)
    && b.domains != [] && b.senders != [] && b.categories != []
    && ScopeFits(b.mode, b.scope, b.recipients, b.recipientDomains)
    && Distinct(b.categories) && (forall c :: c in b.categories ==> c in TRANSACTIONAL_CATEGORIES)
    && Distinct(b.recipientDomains)
    && (forall d :: d in b.recipientDomains ==> d != "" && '@' !in d && |d| <= 253)
    && b.provider == PROVIDER
    && b.validFrom < b.validUntil
  }

  predicate SendersCovered(senders: seq<string>, domains: seq<string>) {
    forall s :: s in senders ==> DomainOf(s) in domains
  }

  /** The policy model's own validation, made on every write. */
  predicate ValidPolicy(p: Policy) {
    && Distinct(p.domains) && (forall d :: d in p.domains ==> WellFormedDomain(d))
    && Distinct(p.recipientDomains) && (forall d :: d in p.recipientDomains ==> WellFormedDomain(d))
    && Distinct(p.senders) && (forall a :: a in p.senders ==> OneAt(a))
    && Distinct(p.recipients) && (forall a :: a in p.recipients ==> OneAt(a))
    && (p.validFrom.Some? && p.validUntil.Some? ==> p.validFrom.value < p.validUntil.value)
  }

  // ---------------------------------------------------------------- activation

  datatype Settings = Settings(activationId: string, deliveryEnabled: bool, environment: string, sourceSha: string)

  datatype DomainRecord = DomainRecord(
    dnsPass: bool, dkimRotationRequired: bool, recheckRequired: bool, sendEligible: bool, productionReady: bool)

  predicate DomainReady(registry: map<string, DomainRecord>, d: string) {
    && d in registry && registry[d].dnsPass && !registry[d].dkimRotationRequired && !registry[d].recheckRequired
    && registry[d].sendEligible && registry[d].productionReady
  }

  predicate RecordComplete(p: Policy) {
    && p.owners.Some? && p.owners.value.production != "" && p.owners.value.monitoring != ""
    && p.owners.value.escalation != "" && p.owners.value.rollback != "" && p.owners.value.procedure != ""
    && p.approvedBy.Some? && p.approvedBy.value != "" && p.authorizedAt.Some? && p.validFrom.Some? && p.validUntil.Some?
  }

  /** No activation blocker. */
  predicate Activatable(p: Policy, settings: Settings, registry: map<string, DomainRecord>, now: Time) {
    && (p.state.AuthorizedNotActive? || p.state.Active?) && p.enabled && !p.mode.Safe? && !p.mode.Campaign?
    && settings.activationId != "" && p.changeId == Some(settings.activationId) && settings.deliveryEnabled
    && (p.validFrom.Some? ==> p.validFrom.value <= now) && (p.validUntil.Some? ==> now < p.validUntil.value)
    && p.domains != [] && p.senders != [] && p.categories != [] && MARKETING !in p.categories
    && (p.scope.Allowlist? || p.scope.DomainAllowlist?)
    && (p.scope.Allowlist? ==> p.recipients != []) && (p.scope.DomainAllowlist? ==> p.recipientDomains != [])
    && p.provider == Some(PROVIDER) && p.environment == Some(settings.environment)
    && p.releaseSha == Some(settings.sourceSha) && RecordComplete(p)
    && p.limits.perMinute > 0 && p.limits.perHour > 0 && p.limits.perDay > 0
    && (forall d :: d in p.domains ==> DomainReady(registry, d))
  }

  // ---------------------------------------------------------------- the store

  datatype Action = AuthorizeAction | ActivateAction | RevokeAction | OpenAction | CloseAction

  datatype Request =
    | AuthorizeRequest(body: Authorization)
    | ControlRequest(version: int, why: Name)
    | SwitchRequest(version: int, why: Name, open: bool)

  datatype MutationKey = MutationKey(tenant: Name, action: Action, actor: string, key: Name)
  datatype Mutation = Mutation(request: Request, response: Policy)
  datatype Audit = Audit(tenant: Name, action: Action, actor: string, reason: Name, previous: Policy, next: Policy)

  datatype Reservation = Reservation(tenant: Name, id: Name, units: nat, reservedAt: Time)

  /** A queued message: its recipients and the moment it was queued. */
  datatype Mail = Mail(to: seq<string>, queuedAt: Time)

  datatype Refusal = Conflict | Blocked | Unavailable | Invalid | RateLimited

  /** `pending` are the recipients of submissions that have not come back, `queued` those of queued messages. */
  datatype Control = Control(
    policies: map<Name, Policy>, mutations: map<MutationKey, Mutation>, audits: seq<Audit>,
    reservations: seq<Reservation>, releases: set<Name>,
    pending: map<Name, seq<string>>, queued: map<Name, Mail>)

  const START := Control(map[], map[], [], [], {}, map[], map[])

  function PolicyOf(policies: map<Name, Policy>, tenant: Name): Policy {
    if tenant in policies then policies[tenant] else DefaultPolicy(tenant)
  }

  datatype Change = Authorizing(body: Authorization) | Activating | Revoking | Switching(open: bool)

  function Transform(p: Policy, change: Change, actor: string, now: Time): Policy {
    match change
    case Authorizing(b) =>
      p.(enabled := true, mode := b.mode, state := AuthorizedNotActive, domains := b.domains, senders := b.senders,
         scope := b.scope, recipients := b.recipients, recipientDomains := b.recipientDomains,
         categories := b.categories, limits := b.limits,
         validFrom := Some(b.validFrom), validUntil := Some(b.validUntil),
         changeId := Some(b.changeId), approvedBy := Some(actor), activatedBy := None, owners := Some(b.owners),
         provider := Some(b.provider), environment := Some(b.environment), releaseSha := Some(b.releaseSha),
         authorizedAt := Some(now), activatedAt := None, killSwitchOpen := false)
    case Activating => p.(state := Active, activatedBy := Some(actor), activatedAt := Some(now), killSwitchOpen := true)
    case Revoking => p.(enabled := false, state := Revoked, mode := Safe, killSwitchOpen := false)
    case Switching(open) => p.(killSwitchOpen := open)
  }

  /** A write under optimistic concurrency, answered from the record when it is repeated. */
  function Mutate(y: Control, tenant: Name, action: Action, actor: string, key: Name, version: int, reason: Name,
                  request: Request, change: Change, now: Time): (Control, Result<Policy, Refusal>) {
    var mutation := MutationKey(tenant, action, actor, key);
    if mutation in y.mutations then
      if y.mutations[mutation].request != request then (y, Err(Conflict)) else (y, Ok(y.mutations[mutation].response))
    else
      var current := PolicyOf(y.policies, tenant);
      var changed := Transform(current, change, actor, now).(version := current.version + 1, updatedAt := now);
      if current.version != version then (y, Err(Conflict))
      else if !ValidPolicy(changed) then (y, Err(Invalid))
      else
        (y.(policies := y.policies[tenant := changed],
            mutations := y.mutations[mutation := Mutation(request, changed)],
            audits := y.audits + [Audit(tenant, action, actor, reason, current, changed)]),
         Ok(changed))
  }

  // ---------------------------------------------------------------- the lifecycle

  function Authorize(y: Control, tenant: Name, actor: string, key: Name, b: Authorization, now: Time)
    : (Control, Result<Policy, Refusal>)
  {
    if !ValidAuthorization(b) || !SendersCovered(b.senders, b.domains) then (y, Err(Invalid))
    else
      Mutate(y, tenant, AuthorizeAction, actor, key, b.expectedVersion, b.reason, AuthorizeRequest(b),
             Authorizing(b), now)
  }

  function Activate(y: Control, tenant: Name, actor: string, key: Name, version: int, reason: Name,
                    settings: Settings, registry: map<string, DomainRecord>, now: Time)
    : (Control, Result<Policy, Refusal>)
  {
    var current := PolicyOf(y.policies, tenant);
    if current.version != version then (y, Err(Conflict))
    else if !current.state.AuthorizedNotActive? then (y, Err(Blocked))
    else if !Activatable(current, settings, registry, now) then (y, Err(Blocked))
    else Mutate(y, tenant, ActivateAction, actor, key, version, reason, ControlRequest(version, reason), Activating,
                now)
  }

  function Revoke(y: Control, tenant: Name, actor: string, key: Name, version: int, reason: Name, now: Time)
    : (Control, Result<Policy, Refusal>)
  {
    Mutate(y, tenant, RevokeAction, actor, key, version, reason, ControlRequest(version, reason), Revoking, now)
  }

  function SetKillSwitch(y: Control, tenant: Name, actor: string, key: Name, version: int, reason: Name, open: bool,
                         settings: Settings, registry: map<string, DomainRecord>, now: Time)
    : (Control, Result<Policy, Refusal>)
  {
    var current := PolicyOf(y.policies, tenant);
    if open && !current.state.Active? then (y, Err(Blocked))
    else if open && !Activatable(current, settings, registry, now) then (y, Err(Blocked))
    else
      Mutate(y, tenant, if open then OpenAction else CloseAction, actor, key, version, reason,
             SwitchRequest(version, reason, open), Switching(open), now)
  }

  // ---------------------------------------------------------------- quota

  const MICROSECONDS := 1_000_000
  const MINUTE := 60 * MICROSECONDS
  const HOUR := 60 * MINUTE
  const DAY := 24 * HOUR

  /** The start of the calendar window of this length that `moment` lies in. */
  function WindowStart(moment: Time, length: int): Time requires length > 0 { moment / length * length }

  predicate Counts(r: Reservation, releases: set<Name>, tenant: Name, from: Time, until: Option<Time>) {
    && r.tenant == tenant && r.id !in releases && r.reservedAt >= from
    && (until.Some? ==> r.reservedAt < until.value)
  }

  /** Unreleased units of a tenant reserved from one instant on and, if given, before another. */
  function Held(rs: seq<Reservation>, releases: set<Name>, tenant: Name, from: Time, until: Option<Time>): nat {
    if rs == [] then 0
    else
      var n := |rs| - 1;
      Held(rs[..n], releases, tenant, from, until)
      + if Counts(rs[n], releases, tenant, from, until) then rs[n].units else 0
  }

  datatype Usage = Usage(minute: nat, hour: nat, day: nat)

  /** What the quota check takes as used: everything since the start of the current window. */
  function UsageAt(rs: seq<Reservation>, releases: set<Name>, tenant: Name, now: Time): Usage {
    Usage(Held(rs, releases, tenant, WindowStart(now, MINUTE), None),
          Held(rs, releases, tenant, WindowStart(now, HOUR), None),
          Held(rs, releases, tenant, WindowStart(now, DAY), None))
  }

  predicate Exhausted(usage: Usage, units: nat, limits: Limits) {
    usage.minute + units > limits.perMinute || usage.hour + units > limits.perHour || usage.day + units > limits.perDay
  }

  // ---------------------------------------------------------------- the send guard

  datatype Message = Message(category: Option<string>, to: seq<string>)

  function CategoryOf(m: Message): string {
    if m.category.Some? && m.category.value != "" then m.category.value else "transactional"
  }

  predicate RecipientListed(p: Policy, recipient: string) {
    match p.scope
    case Allowlist => recipient in p.recipients
    case DomainAllowlist => '@' in recipient && DomainOf(recipient) in p.recipientDomains
    case _ => false
  }

  /** The guard's decision before the quota is asked. */
  function Admit(p: Policy, m: Message, sender: string, settings: Settings, now: Time): Result<(), Refusal> {
    if !settings.deliveryEnabled then Err(Unavailable)
    else if !p.state.Active? || !p.enabled || !p.killSwitchOpen then Err(Blocked)
    else if p.validFrom.Some? && now < p.validFrom.value then Err(Blocked)
    else if p.validUntil.Some? && now >= p.validUntil.value then Err(Blocked)
    else if DomainOf(sender) !in p.domains || sender !in p.senders then Err(Blocked)
    else if CategoryOf(m) == MARKETING then
      if p.mode.Campaign? && p.scope.ConsentedMarketing? then Ok(()) else Err(Blocked)
    else if CategoryOf(m) !in p.categories || !(p.mode.Canary? || p.mode.Production?) then Err(Blocked)
    else if !(forall r :: r in m.to ==> RecipientListed(p, r)) then Err(Blocked)
    else if !p.scope.Allowlist? && !p.scope.DomainAllowlist? then Err(Blocked)
    else if p.mode.Canary? && !p.scope.Allowlist? then Err(Blocked)
    else Ok(())
  }

  /** An admitted submission with its quota; the reservation id is drawn at random. */
  function Guard(y: Control, tenant: Name, m: Message, sender: string, settings: Settings, now: Time)
    : (Control, Result<Reservation, Refusal>)
  {
    var p := PolicyOf(y.policies, tenant);
    var admitted := Admit(p, m, sender, settings, now);
    if admitted.Err? then (y, Err(admitted.error))
    else if Exhausted(UsageAt(y.reservations, y.releases, tenant, now), |m.to|, p.limits) then (y, Err(RateLimited))
    else
      var r := Reservation(tenant, Random(|y.reservations|), |m.to|, now);
      (y.(reservations := y.reservations + [r], pending := y.pending[r.id := m.to]), Ok(r))
  }

  /** How the submission behind a reservation comes back; a failure may leave the message queued. */
  datatype Settlement = Accepted | DuplicateOrSuppressed | Failed(afterQueueing: bool)

  /** Gives the units of a reservation back. */
  function Release(y: Control, id: Name): Control { y.(releases := y.releases + {id}) }

  /** The quota is given back only when the message is known not to have been queued. */
  function Settle(y: Control, id: Name, s: Settlement, now: Time): Control {
    if id !in y.pending then y
    else
      var settled := y.(pending := y.pending - {id});
      match s
      case Accepted => settled.(queued := y.queued[id := Mail(y.pending[id], now)])
      case DuplicateOrSuppressed => Release(settled, id)
      case Failed(afterQueueing) =>
        if afterQueueing then settled.(queued := y.queued[id := Mail(y.pending[id], now)]) else settled
  }

  // ---------------------------------------------------------------- runs

  datatype Step =
    | AuthorizeStep(tenant: Name, actor: string, key: Name, body: Authorization, at: Time)
    | ActivateStep(tenant: Name, actor: string, key: Name, version: int, reason: Name, settings: Settings,
                   registry: map<string, DomainRecord>, at: Time)
    | RevokeStep(tenant: Name, actor: string, key: Name, version: int, reason: Name, at: Time)
    | SwitchStep(tenant: Name, actor: string, key: Name, version: int, reason: Name, open: bool, settings: Settings,
                 registry: map<string, DomainRecord>, at: Time)
    | GuardStep(tenant: Name, message: Message, sender: string, settings: Settings, at: Time)
    | SettleStep(id: Name, settlement: Settlement, at: Time)

  function Apply(y: Control, step: Step): Control {
    match step
    case AuthorizeStep(tenant, actor, key, body, at) => Authorize(y, tenant, actor, key, body, at).0
    case ActivateStep(tenant, actor, key, version, reason, settings, registry, at) =>
      Activate(y, tenant, actor, key, version, reason, settings, registry, at).0
    case RevokeStep(tenant, actor, key, version, reason, at) => Revoke(y, tenant, actor, key, version, reason, at).0
    case SwitchStep(tenant, actor, key, version, reason, open, settings, registry, at) =>
      SetKillSwitch(y, tenant, actor, key, version, reason, open, settings, registry, at).0
    case GuardStep(tenant, message, sender, settings, at) => Guard(y, tenant, message, sender, settings, at).0
    case SettleStep(id, settlement, at) => Settle(y, id, settlement, at)
  }

  function Run(y: Control, steps: seq<Step>): Control {
    if steps == [] then y else Apply(Run(y, steps[..|steps| - 1]), steps[|steps| - 1])
  }
}
