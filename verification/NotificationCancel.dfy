/**
 What cancelling the waiting notifications of an incident does to the command ledger.  The cancel uses
 one fixed idempotency key per notification, so it could meet a mutation recorded earlier; such a
 meeting is always a conflict and never passes for a cancellation.
 */
module NotificationCancel {
  import opened Identities
  import L = CommandLedger
  import LI = LedgerInvariants
  import LT = LedgerTheorems
  import opened Incidents

  function OperationKey(key: L.Key, item: Notification): L.Key { L.Key(key.tenant, item.operation) }

  function CancelKey(key: L.Key, item: Notification, actor: Name): L.MutationKey {
    L.MutationKey(key.tenant, item.operation, L.Cancel, actor, GroupWaitCancelKey(key.id, item.operation))
  }

  /** No command is lost and none becomes pending. */
  ghost predicate Calms(l: L.Ledger, l': L.Ledger) {
    forall k :: k in l.records ==> && k in l'.records
                                   && (l'.records[k].operation.state == l.records[k].operation.state
                                       || !Pending(l'.records[k].operation.state))
  }

  /** The notification still waits and its command is still to be sent. */
  predicate StillPending(l: L.Ledger, key: L.Key, item: Notification, now: Time) {
    && item.kind.Grouped? && item.scheduledAt > now
    && OperationKey(key, item) in l.records
    && var state := l.records[OperationKey(key, item)].operation.state; state.Persisted? || state.Queued?
  }

  /** A cancel of this notification by this actor is on record although its command is pending. */
  predicate Blocked(l: L.Ledger, key: L.Key, item: Notification, actor: Name, now: Time) {
    StillPending(l, key, item, now) && CancelKey(key, item, actor) in l.mutations
  }

  lemma RecordedCancelConflicts(l: L.Ledger, k: L.Key, m: L.MutationKey, reason: Name, now: Time)
    requires LI.Inv(l) && k in l.records && m in l.mutations && k == L.Key(m.tenant, m.id)
    ensures L.Mutate(l, k, m.action, m.actor, m.key, l.records[k].operation.resourceVersion, reason, now)
            == (l, Err(L.Conflict))
  {
    hide LI.Inv;
    LT.RecordedMutationIsStale(l, m);
  }

  lemma NewCancelAccepted(l: L.Ledger, k: L.Key, m: L.MutationKey, reason: Name, now: Time)
    requires k in l.records && Pending(l.records[k].operation.state)
    requires m !in l.mutations && k == L.Key(m.tenant, m.id) && m.action.Cancel?
    ensures
      var (l', r) := L.Mutate(l, k, L.Cancel, m.actor, m.key, l.records[k].operation.resourceVersion, reason, now);
      && r.Ok? && k in l'.records && !Pending(l'.records[k].operation.state)
      && l'.records == l.records[k := l'.records[k]]
      && (forall n :: n in l'.mutations <==> n in l.mutations || n == m)
  {
    hide L.MutatedOutbox, L.ActiveLease, L.Logged;
  }

  /** One cancellation: refused exactly when blocked, and otherwise the command is no longer pending. */
  lemma CancelOneEffect(l: L.Ledger, key: L.Key, item: Notification, actor: Name, reason: Name, now: Time)
    requires LI.Inv(l) && OperationKey(key, item) in l.records
    ensures var (l', failed) := CancelOne(l, key, item, actor, reason, now);
            && LI.Inv(l') && Calms(l, l') && l'.records.Keys == l.records.Keys
            && (failed.Some? <==> Blocked(l, key, item, actor, now))
            && (failed.Some? ==> failed == Some(L.Conflict))
            && (failed.None? ==> !StillPending(l', key, item, now))
            && (forall k :: k in l.records && k != OperationKey(key, item) ==> l'.records[k] == l.records[k])
            && (forall m: L.MutationKey :: m.id != item.operation ==> (m in l'.mutations <==> m in l.mutations))
  {
    hide LI.Inv, L.Mutate;
    var k := OperationKey(key, item);
    if StillPending(l, key, item, now) {
      var version := l.records[k].operation.resourceVersion;
      var idempotencyKey := GroupWaitCancelKey(key.id, item.operation);
      if CancelKey(key, item, actor) in l.mutations {
        RecordedCancelConflicts(l, k, CancelKey(key, item, actor), reason, now);
      } else {
        NewCancelAccepted(l, k, CancelKey(key, item, actor), reason, now);
      }
      LI.MutateKeeps(l, k, L.Cancel, actor, idempotencyKey, version, reason, now);
    }
  }

  ghost predicate Known(l: L.Ledger, key: L.Key, items: seq<Notification>) {
    forall i :: 0 <= i < |items| ==> OperationKey(key, items[i]) in l.records
  }

  predicate DistinctOperations(items: seq<Notification>) {
    forall i, j :: 0 <= i < j < |items| ==> items[i].operation != items[j].operation
  }

  /** What holds of the ledger after the notifications in `items` were gone through. */
  ghost predicate Swept(l: L.Ledger, l': L.Ledger, key: L.Key, items: seq<Notification>) {
    && LI.Inv(l') && Calms(l, l') && l'.records.Keys == l.records.Keys
    && (forall k :: k in l.records && (forall i :: 0 <= i < |items| ==> k != OperationKey(key, items[i]))
                    ==> l'.records[k] == l.records[k])
    && (forall m: L.MutationKey :: (forall i :: 0 <= i < |items| ==> m.id != items[i].operation)
                    ==> (m in l'.mutations <==> m in l.mutations))
  }

  lemma SweptMore(l: L.Ledger, before: L.Ledger, after: L.Ledger, key: L.Key, items: seq<Notification>)
    requires items != [] && Swept(l, before, key, items[..|items| - 1])
    requires LI.Inv(after) && Calms(before, after) && after.records.Keys == before.records.Keys
    requires forall k :: k in before.records && k != OperationKey(key, items[|items| - 1])
                         ==> after.records[k] == before.records[k]
    requires forall m: L.MutationKey :: m.id != items[|items| - 1].operation ==>
                                          (m in after.mutations <==> m in before.mutations)
    ensures Swept(l, after, key, items)
  {
    hide LI.Inv;
    var n := |items| - 1;
    assert forall i :: 0 <= i < n ==> items[..n][i] == items[i];
  }

  lemma {:induction false} SweepKeeps(l: L.Ledger, key: L.Key, items: seq<Notification>, actor: Name, reason: Name,
                                      now: Time)
    requires LI.Inv(l) && Known(l, key, items)
    ensures Swept(l, CancelPending(l, key, items, actor, reason, now).0, key, items)
  {
    hide LI.Inv, Swept, CancelOne, Calms;
    if items == [] {
      SweptNothing(l, key);
    } else {
      var n := |items| - 1;
      SweepKeeps(l, key, items[..n], actor, reason, now);
      var before := CancelPending(l, key, items[..n], actor, reason, now);
      SweptFacts(l, before.0, key, items[..n]);
      if before.1.Some? {
        CalmsItself(before.0);
        SweptMore(l, before.0, before.0, key, items);
      } else {
        CancelOneEffect(before.0, key, items[n], actor, reason, now);
        SweptMore(l, before.0, CancelOne(before.0, key, items[n], actor, reason, now).0, key, items);
      }
    }
  }

  lemma SweptNothing(l: L.Ledger, key: L.Key)
    requires LI.Inv(l)
    ensures Swept(l, l, key, [])
  {
  }

  lemma CalmsItself(l: L.Ledger)
    ensures Calms(l, l)
  {
  }

  lemma SweptFacts(l: L.Ledger, l': L.Ledger, key: L.Key, items: seq<Notification>)
    requires Swept(l, l', key, items)
    ensures LI.Inv(l') && Calms(l, l') && l'.records.Keys == l.records.Keys
  {
  }

  lemma StaysCalm(l: L.Ledger, l': L.Ledger, key: L.Key, item: Notification, now: Time)
    requires Calms(l, l') && l'.records.Keys == l.records.Keys && !StillPending(l, key, item, now)
    ensures !StillPending(l', key, item, now)
  {
  }

  /** After a cancellation that went through, none of the notifications is still pending. */
  lemma {:induction false} SweepCancels(l: L.Ledger, key: L.Key, items: seq<Notification>, actor: Name, reason: Name,
                                        now: Time, i: int)
    requires LI.Inv(l) && Known(l, key, items) && 0 <= i < |items|
    requires CancelPending(l, key, items, actor, reason, now).1.None?
    ensures !StillPending(CancelPending(l, key, items, actor, reason, now).0, key, items[i], now)
  {
    hide LI.Inv, Swept, CancelOne, Calms, StillPending, Blocked;
    var n := |items| - 1;
    var before := CancelPending(l, key, items[..n], actor, reason, now);
    SweepKeeps(l, key, items[..n], actor, reason, now);
    SweptFacts(l, before.0, key, items[..n]);
    CancelOneEffect(before.0, key, items[n], actor, reason, now);
    if i < n {
      SweepCancels(l, key, items[..n], actor, reason, now, i);
      StaysCalm(before.0, CancelOne(before.0, key, items[n], actor, reason, now).0, key, items[i], now);
    }
  }

  lemma SweptLeaves(l: L.Ledger, l': L.Ledger, key: L.Key, items: seq<Notification>, item: Notification, actor: Name,
                    now: Time)
    requires Swept(l, l', key, items) && OperationKey(key, item) in l.records
    requires forall i :: 0 <= i < |items| ==> items[i].operation != item.operation
    ensures Blocked(l', key, item, actor, now) <==> Blocked(l, key, item, actor, now)
  {
    hide LI.Inv, Calms;
  }

  /**
   The cancellation of an incident's notifications is refused exactly when some notification is
   pending while a cancel of it by the same actor is already on record.
   */
  lemma {:induction false} SweepFailsIff(l: L.Ledger, key: L.Key, items: seq<Notification>, actor: Name, reason: Name,
                                         now: Time)
    requires LI.Inv(l) && Known(l, key, items) && DistinctOperations(items)
    ensures var failed := CancelPending(l, key, items, actor, reason, now).1;
            && (failed.Some? <==> exists i :: 0 <= i < |items| && Blocked(l, key, items[i], actor, now))
            && (failed.Some? ==> failed == Some(L.Conflict))
  {
    hide LI.Inv, Swept, CancelOne, Calms, StillPending, Blocked;
    if items != [] {
      var n := |items| - 1;
      var before := CancelPending(l, key, items[..n], actor, reason, now);
      SweepFailsIff(l, key, items[..n], actor, reason, now);
      SweepKeeps(l, key, items[..n], actor, reason, now);
      SweptFacts(l, before.0, key, items[..n]);
      CancelOneEffect(before.0, key, items[n], actor, reason, now);
      SweptLeaves(l, before.0, key, items[..n], items[n], actor, now);
      assert forall i :: 0 <= i < n ==> items[..n][i] == items[i];
      if before.1.Some? {
        var i :| 0 <= i < n && Blocked(l, key, items[..n][i], actor, now);
        assert Blocked(l, key, items[i], actor, now);
      }
    }
  }

  /** The loop stops at a blocked notification. */
  lemma BlockedIsRefused(l: L.Ledger, key: L.Key, item: Notification, actor: Name, reason: Name, now: Time)
    requires LI.Inv(l) && Blocked(l, key, item, actor, now)
    ensures CancelOne(l, key, item, actor, reason, now) == (l, Some(L.Conflict))
  {
    hide LI.Inv, L.Mutate;
    RecordedCancelConflicts(l, OperationKey(key, item), CancelKey(key, item, actor), reason, now);
  }

  // ---------------------------------------------------------------- what becomes of each notification

  /** The command is as it was or, if its notification was still pending, cancelled or, under a lease, quarantined. */
  predicate SweptAs(l: L.Ledger, l': L.Ledger, key: L.Key, item: Notification, now: Time)
    requires OperationKey(key, item) in l.records && OperationKey(key, item) in l'.records
  {
    var k := OperationKey(key, item);
    var before, after := l.records[k], l'.records[k];
    if StillPending(l, key, item, now)
    then && after.operation.state == (if L.ActiveLease(l.outbox, k) then L.ReconciliationRequired else L.Cancelled)
         && after.operation.resourceVersion == before.operation.resourceVersion + 1
    else after == before
  }

  lemma CancelLeavesLeases(outbox: seq<L.Intent>, k: L.Key, j: L.Key)
    requires j != k
    ensures L.ActiveLease(L.CancelIntents(outbox, k), j) == L.ActiveLease(outbox, j)
  {
    var after := L.CancelIntents(outbox, k);
    if L.ActiveLease(outbox, j) {
      var i :| 0 <= i < |outbox| && L.Mine(outbox[i], j) && L.Leased(outbox[i]);
      assert after[i] == outbox[i];
    }
    if L.ActiveLease(after, j) {
      var i :| 0 <= i < |after| && L.Mine(after[i], j) && L.Leased(after[i]);
      assert after[i] == outbox[i];
    }
  }

  lemma CancelOneOutcome(l: L.Ledger, key: L.Key, item: Notification, actor: Name, reason: Name, now: Time, j: L.Key)
    requires LI.Inv(l) && OperationKey(key, item) in l.records
    requires CancelOne(l, key, item, actor, reason, now).1.None?
    ensures var l' := CancelOne(l, key, item, actor, reason, now).0;
            && OperationKey(key, item) in l'.records && SweptAs(l, l', key, item, now)
            && (j != OperationKey(key, item) ==> L.ActiveLease(l'.outbox, j) == L.ActiveLease(l.outbox, j))
  {
    hide LI.Inv, L.ActiveLease, L.CancelIntents, L.Logged;
    if StillPending(l, key, item, now) && CancelKey(key, item, actor) in l.mutations {
      BlockedIsRefused(l, key, item, actor, reason, now);
    }
    if j != OperationKey(key, item) { CancelLeavesLeases(l.outbox, OperationKey(key, item), j); }
  }

  lemma {:induction false} SweepLeavesLeases(l: L.Ledger, key: L.Key, items: seq<Notification>, actor: Name,
                                             reason: Name, now: Time, j: L.Key)
    requires LI.Inv(l) && Known(l, key, items) && CancelPending(l, key, items, actor, reason, now).1.None?
    requires forall i :: 0 <= i < |items| ==> j != OperationKey(key, items[i])
    ensures L.ActiveLease(CancelPending(l, key, items, actor, reason, now).0.outbox, j) == L.ActiveLease(l.outbox, j)
  {
    hide LI.Inv, Swept, CancelOne, L.ActiveLease, SweptAs, Calms, StillPending;
    if items != [] {
      var n := |items| - 1;
      var before := CancelPending(l, key, items[..n], actor, reason, now);
      SweepLeavesLeases(l, key, items[..n], actor, reason, now, j);
      SweepKeeps(l, key, items[..n], actor, reason, now);
      SweptFacts(l, before.0, key, items[..n]);
      CancelOneOutcome(before.0, key, items[n], actor, reason, now, j);
    }
  }

  lemma SweptRecord(l: L.Ledger, l': L.Ledger, key: L.Key, items: seq<Notification>, k: L.Key)
    requires Swept(l, l', key, items) && k in l.records
    requires forall i :: 0 <= i < |items| ==> k != OperationKey(key, items[i])
    ensures k in l'.records && l'.records[k] == l.records[k]
  {
    hide LI.Inv, Calms;
  }

  /**
   A sweep that goes through cancels exactly the notifications that were still pending, quarantining the
   command instead where an intent of it is leased, and leaves the commands of all others alone.
   */
  lemma {:induction false} SweepOutcome(l: L.Ledger, key: L.Key, items: seq<Notification>, actor: Name, reason: Name,
                                        now: Time, i: int)
    requires LI.Inv(l) && Known(l, key, items) && DistinctOperations(items) && 0 <= i < |items|
    requires CancelPending(l, key, items, actor, reason, now).1.None?
    ensures var l' := CancelPending(l, key, items, actor, reason, now).0;
            OperationKey(key, items[i]) in l'.records && SweptAs(l, l', key, items[i], now)
  {
    hide LI.Inv, Swept, CancelOne, Calms, L.ActiveLease;
    var n := |items| - 1;
    var before := CancelPending(l, key, items[..n], actor, reason, now);
    SweepKeeps(l, key, items[..n], actor, reason, now);
    SweptFacts(l, before.0, key, items[..n]);
    CancelOneEffect(before.0, key, items[n], actor, reason, now);
    CancelOneOutcome(before.0, key, items[n], actor, reason, now, OperationKey(key, items[n]));
    if i < n {
      SweepOutcome(l, key, items[..n], actor, reason, now, i);
    } else {
      SweptRecord(l, before.0, key, items[..n], OperationKey(key, items[n]));
      SweepLeavesLeases(l, key, items[..n], actor, reason, now, OperationKey(key, items[n]));
    }
  }
}
