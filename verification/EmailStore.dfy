/**
 `MemoryEmailProductionPolicyStore` and the control service over it, with the dictionaries and lists they
 update.  Each method acts on the store's `View` as the operation of the value model of the same name.
 */
module EmailStore {
  import opened Identities
  import E = EmailControl
  import opened EmailControl

  lemma NoneHeld(rs: seq<Reservation>, releases: set<Name>, tenant: Name, from: Time)
    ensures Held(rs[..0], releases, tenant, from, None) == 0
  {
  }

  lemma HeldNext(rs: seq<Reservation>, i: int, releases: set<Name>, tenant: Name, from: Time)
    requires 0 <= i < |rs|
    ensures Held(rs[..i + 1], releases, tenant, from, None)
         == Held(rs[..i], releases, tenant, from, None)
            + if Counts(rs[i], releases, tenant, from, None) then rs[i].units else 0
  {
    assert rs[..i + 1][..i] == rs[..i];
  }

  class MemoryEmailProductionPolicyStore {
    var policies: map<Name, Policy>
    var mutations: map<MutationKey, Mutation>
    var audits: seq<Audit>
    var quotaReservations: seq<Reservation>
    var quotaReleases: set<Name>

    /** The store's part of the state; submissions under way and queued messages are kept elsewhere. */
    ghost function View(): Control reads this {
      Control(policies, mutations, audits, quotaReservations, quotaReleases, map[], map[])
    }

    constructor ()
      ensures View() == START
    {
      policies, mutations, audits, quotaReservations, quotaReleases := map[], map[], [], [], {};
    }

    method Get(tenant: Name) returns (p: Policy)
      ensures p == PolicyOf(policies, tenant)
    {
      if tenant in policies { return policies[tenant]; }
      return DefaultPolicy(tenant);
    }

    method Mutate(tenant: Name, action: Action, actor: string, key: Name, version: int, reason: Name,
                  request: Request, change: Change, now: Time) returns (r: Result<Policy, Refusal>)
      modifies this
      ensures View() == E.Mutate(old(View()), tenant, action, actor, key, version, reason, request, change, now).0
      ensures r == E.Mutate(old(View()), tenant, action, actor, key, version, reason, request, change, now).1
    {
      hide Transform, ValidPolicy, PolicyOf;
      var mutation := MutationKey(tenant, action, actor, key);
      if mutation in mutations {
        if mutations[mutation].request != request { return Err(Conflict); }
        return Ok(mutations[mutation].response);
      }
      var current := Get(tenant);
      if current.version != version { return Err(Conflict); }
      var changed := Transform(current, change, actor, now).(version := current.version + 1, updatedAt := now);
      if !ValidPolicy(changed) { return Err(Invalid); }
      policies := policies[tenant := changed];
      mutations := mutations[mutation := Mutation(request, changed)];
      audits := audits + [Audit(tenant, action, actor, reason, current, changed)];
      return Ok(changed);
    }

    /** Adds up the unreleased units of the tenant since the start of the current minute, hour and day. */
    method CurrentUsage(tenant: Name, now: Time) returns (usage: Usage)
      ensures usage == UsageAt(quotaReservations, quotaReleases, tenant, now)
    {
      hide WindowStart, Held;
      var minute, hour, day := 0, 0, 0;
      var minuteStart, hourStart, dayStart := WindowStart(now, MINUTE), WindowStart(now, HOUR), WindowStart(now, DAY);
      forall from: Time { NoneHeld(quotaReservations, quotaReleases, tenant, from); }
      for i := 0 to |quotaReservations|
        invariant minute == Held(quotaReservations[..i], quotaReleases, tenant, minuteStart, None)
        invariant hour == Held(quotaReservations[..i], quotaReleases, tenant, hourStart, None)
        invariant day == Held(quotaReservations[..i], quotaReleases, tenant, dayStart, None)
      {
        var reservation := quotaReservations[i];
        HeldNext(quotaReservations, i, quotaReleases, tenant, minuteStart);
        HeldNext(quotaReservations, i, quotaReleases, tenant, hourStart);
        HeldNext(quotaReservations, i, quotaReleases, tenant, dayStart);
        if reservation.tenant != tenant || reservation.id in quotaReleases { continue; }
        if reservation.reservedAt >= minuteStart { minute := minute + reservation.units; }
        if reservation.reservedAt >= hourStart { hour := hour + reservation.units; }
        if reservation.reservedAt >= dayStart { day := day + reservation.units; }
      }
      assert quotaReservations[..|quotaReservations|] == quotaReservations;
      return Usage(minute, hour, day);
    }

    method ReserveQuota(tenant: Name, units: nat, policy: Policy, now: Time) returns (r: Result<Reservation, Refusal>)
      modifies this`quotaReservations
      ensures r == if Exhausted(UsageAt(old(quotaReservations), quotaReleases, tenant, now), units, policy.limits)
                   then Err(RateLimited)
                   else Ok(Reservation(tenant, Random(|old(quotaReservations)|), units, now))
      ensures quotaReservations == if r.Ok? then old(quotaReservations) + [r.value] else old(quotaReservations)
    {
      var usage := CurrentUsage(tenant, now);
      if usage.minute + units > policy.limits.perMinute { return Err(RateLimited); }
      if usage.hour + units > policy.limits.perHour { return Err(RateLimited); }
      if usage.day + units > policy.limits.perDay { return Err(RateLimited); }
      var reservation := Reservation(tenant, Random(|quotaReservations|), units, now);
      quotaReservations := quotaReservations + [reservation];
      return Ok(reservation);
    }

    method ReleaseQuota(reservation: Reservation)
      modifies this`quotaReleases
      ensures View() == Release(old(View()), reservation.id)
    {
      quotaReleases := quotaReleases + {reservation.id};
    }
  }

  class EmailProductionControlService {
    const store: MemoryEmailProductionPolicyStore
    const settings: Settings

    constructor (store: MemoryEmailProductionPolicyStore, settings: Settings)
      ensures this.store == store && this.settings == settings
    {
      this.store, this.settings := store, settings;
    }

    method Authorize(tenant: Name, actor: string, key: Name, body: Authorization, now: Time)
      returns (r: Result<Policy, Refusal>)
      modifies store
      ensures store.View() == E.Authorize(old(store.View()), tenant, actor, key, body, now).0
      ensures r == E.Authorize(old(store.View()), tenant, actor, key, body, now).1
    {
      hide E.Mutate, ValidAuthorization;
      if !ValidAuthorization(body) { return Err(Invalid); }
      for i := 0 to |body.senders|
        invariant forall j :: 0 <= j < i ==> DomainOf(body.senders[j]) in body.domains
      {
        if DomainOf(body.senders[i]) !in body.domains { return Err(Invalid); }
      }
      r := store.Mutate(tenant, AuthorizeAction, actor, key, body.expectedVersion, body.reason, AuthorizeRequest(body),
                        Authorizing(body), now);
    }

    method Activate(tenant: Name, actor: string, key: Name, version: int, reason: Name,
                    registry: map<string, DomainRecord>, now: Time) returns (r: Result<Policy, Refusal>)
      modifies store
      ensures store.View() == E.Activate(old(store.View()), tenant, actor, key, version, reason, settings, registry,
                                         now).0
      ensures r == E.Activate(old(store.View()), tenant, actor, key, version, reason, settings, registry, now).1
    {
      hide E.Mutate, Activatable;
      var current := store.Get(tenant);
      if current.version != version { return Err(Conflict); }
      if !current.state.AuthorizedNotActive? { return Err(Blocked); }
      if !Activatable(current, settings, registry, now) { return Err(Blocked); }
      r := store.Mutate(tenant, ActivateAction, actor, key, version, reason, ControlRequest(version, reason),
                        Activating, now);
    }

    method Revoke(tenant: Name, actor: string, key: Name, version: int, reason: Name, now: Time)
      returns (r: Result<Policy, Refusal>)
      modifies store
      ensures store.View() == E.Revoke(old(store.View()), tenant, actor, key, version, reason, now).0
      ensures r == E.Revoke(old(store.View()), tenant, actor, key, version, reason, now).1
    {
      hide E.Mutate;
      r := store.Mutate(tenant, RevokeAction, actor, key, version, reason, ControlRequest(version, reason), Revoking,
                        now);
    }

    method SetKillSwitch(tenant: Name, actor: string, key: Name, version: int, reason: Name, open: bool,
                         registry: map<string, DomainRecord>, now: Time) returns (r: Result<Policy, Refusal>)
      modifies store
      ensures store.View()
              == E.SetKillSwitch(old(store.View()), tenant, actor, key, version, reason, open, settings, registry,
                                 now).0
      ensures r == E.SetKillSwitch(old(store.View()), tenant, actor, key, version, reason, open, settings, registry,
                                   now).1
    {
      hide E.Mutate, Activatable;
      var current := store.Get(tenant);
      if open {
        if !current.state.Active? { return Err(Blocked); }
        if !Activatable(current, settings, registry, now) { return Err(Blocked); }
      }
      r := store.Mutate(tenant, if open then OpenAction else CloseAction, actor, key, version, reason,
                        SwitchRequest(version, reason, open), Switching(open), now);
    }

    /** Decides on a message and draws its quota. */
    method GuardRequest(tenant: Name, m: Message, sender: string, now: Time) returns (r: Result<Reservation, Refusal>)
      modifies store
      ensures r == Guard(old(store.View()), tenant, m, sender, settings, now).1
      ensures store.View() == Guard(old(store.View()), tenant, m, sender, settings, now).0.(pending := map[])
    {
      hide Admit, UsageAt, Exhausted;
      var policy := store.Get(tenant);
      var admitted := Admit(policy, m, sender, settings, now);
      if admitted.Err? { return Err(admitted.error); }
      r := store.ReserveQuota(tenant, |m.to|, policy, now);
    }
  }
}
