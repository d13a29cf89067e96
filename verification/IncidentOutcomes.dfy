/**
 What an incident's timeline says, and what each accepted webhook, snapshot and operator action makes
 of the incident.  The tables are written out here and do not refer to the functions that take the
 decisions.
 */
module IncidentOutcomes {
  import opened Identities
  import L = CommandLedger
  import LI = LedgerInvariants
  import LT = LedgerTheorems
  import opened Incidents
  import opened NotificationCancel
  import opened IncidentInvariants
  import opened IncidentTheorems

  // ---------------------------------------------------------------- the grammar of timelines

  /** The kind of an event, with the state it started from, determines the state it led to. */
  predicate Meant(e: TimelineEvent) {
    match e.kind
    case AlertFiring =>
      e.previous != Some(Resolved) && e.next == if e.previous == Some(Acknowledged) then Acknowledged else Firing
    case AlertReopened => e.previous == Some(Resolved) && e.next.Firing?
    case AlertResolved => e.next.Resolved?
    case AlertInhibited => e.next.Inhibited?
    case AlertSilenced => e.next.Silenced?
    case NotificationRepeat => e.previous == Some(Firing) && e.next.Firing?
    case NotificationSuppressed => e.previous == Some(e.next)
    case OperatorAcknowledge => e.previous in {Some(Firing), Some(Inhibited), Some(Silenced)} && e.next.Acknowledged?
    case OperatorResolve => e.previous.Some? && e.previous != Some(Resolved) && e.next.Resolved?
    case OperatorReopen => e.previous == Some(Resolved) && e.next.Firing?
  }

  /** The kinds of event that a step may leave on the timeline of an incident. */
  predicate MayLeave(step: Step, key: L.Key, kind: EventKind) {
    match step
    case IngestStep(w, at) =>
      && KeyOf(w) == key
      && kind in (if w.alert.firing
                  then {AlertFiring, AlertReopened, NotificationRepeat, NotificationSuppressed} else {AlertResolved})
    case StatusStep(s, at) =>
      && IncidentKey(s.tenant, s.item.fingerprint) == key
      && (match s.item.signal
          case FiringSignal => kind in {AlertFiring, AlertReopened}
          case ResolvedSignal => kind == AlertResolved
          case InhibitedSignal => kind == AlertInhibited
          case SilencedSignal => kind == AlertSilenced)
    case OperatorStep(o, at) =>
      && o.key == key
      && (match o.action
          case Acknowledge => kind == OperatorAcknowledge
          case Resolve => kind == OperatorResolve
          case Reopen => kind == OperatorReopen)
    case LedgerStep(_) => false
  }

  /** A step leaves at most one event, of a kind it may leave, with the state that the kind means. */
  ghost predicate LeavesOne(y: Projection, step: Step, k: L.Key, after: seq<TimelineEvent>) {
    var before := if k in y.files then y.files[k].events else [];
    || after == before
    || (&& |after| == |before| + 1 && after[..|before|] == before
        && Meant(after[|before|]) && MayLeave(step, k, after[|before|].kind)
        && after[|before|].previous == (if k in y.files then Some(y.files[k].incident.state) else None))
  }

  lemma OccurLeaves(y: Projection, w: Webhook, now: Time, k: L.Key)
    requires k in Occur(y, w, now).0.files
    ensures LeavesOne(y, IngestStep(w, now), k, Occur(y, w, now).0.files[k].events)
  {
    hide OccurrenceCancel, L.Submit, OccurrenceCommand, OccurrenceStatus, RenotifySchedule;
  }

  lemma RenotifyLeaves(y: Projection, w: Webhook, repeat: bool, now: Time, k: L.Key)
    requires KeyOf(w) in y.files && k in Renotify(y, w, repeat, now).0.files
    requires w.alert.firing && y.files[KeyOf(w)].incident.state.Firing?
    ensures LeavesOne(y, IngestStep(w, now), k, Renotify(y, w, repeat, now).0.files[k].events)
  {
    hide L.Submit, RenotifyCommand, RenotifySchedule;
  }

  lemma SuppressLeaves(y: Projection, w: Webhook, result: IngestionResult, now: Time, k: L.Key)
    requires KeyOf(w) in y.files && k in Suppress(y, w, result, now).0.files && w.alert.firing
    ensures LeavesOne(y, IngestStep(w, now), k, Suppress(y, w, result, now).0.files[k].events)
  {
  }

  lemma IngestLeaves(y: Projection, w: Webhook, now: Time, k: L.Key)
    requires k in Ingest(y, w, now).0.files
    ensures LeavesOne(y, IngestStep(w, now), k, Ingest(y, w, now).0.files[k].events)
  {
    hide Renotify, Occur, Latest, Suppress, Meant, MayLeave;
    if k in Occur(y, w, now).0.files { OccurLeaves(y, w, now, k); }
    if KeyOf(w) in y.files {
      var f := y.files[KeyOf(w)];
      if Activates(f, w) && k in Renotify(y, w, false, now).0.files { RenotifyLeaves(y, w, false, now, k); }
      if RepeatDue(f, w, now) && k in Renotify(y, w, true, now).0.files { RenotifyLeaves(y, w, true, now, k); }
      if Suppresses(f, w) {
        forall r | k in Suppress(y, w, r, now).0.files
          ensures LeavesOne(y, IngestStep(w, now), k, Suppress(y, w, r, now).0.files[k].events)
        {
          SuppressLeaves(y, w, r, now, k);
        }
      }
    }
  }

  lemma StatusLeaves(y: Projection, s: Snapshot, now: Time, k: L.Key)
    requires k in IngestStatus(y, s, now).0.files
    ensures LeavesOne(y, StatusStep(s, now), k, IngestStatus(y, s, now).0.files[k].events)
  {
    hide StatusCancel, Outdated;
  }

  lemma OperateLeaves(y: Projection, o: Operator, now: Time, k: L.Key)
    requires k in Operate(y, o, now).0.files
    ensures LeavesOne(y, OperatorStep(o, now), k, Operate(y, o, now).0.files[k].events)
  {
    hide OperatorCancel;
  }

  lemma StepLeaves(y: Projection, step: Step, k: L.Key)
    requires k in Apply(y, step).files
    ensures LeavesOne(y, step, k, Apply(y, step).files[k].events)
  {
    hide Ingest, IngestStatus, Operate, L.Apply, Meant, MayLeave;
    match step
    case IngestStep(w, at) => IngestLeaves(y, w, at, k);
    case StatusStep(s, at) => StatusLeaves(y, s, at, k);
    case OperatorStep(o, at) => OperateLeaves(y, o, at, k);
    case LedgerStep(step) =>
  }

  /**
   In every reachable projection the kind of each event determines, with the state before it, the state
   after it, so that the stored state of an incident can be read off the kinds of its events.
   */
  lemma {:induction false} TimelineIsMeant(steps: seq<Step>, k: L.Key, i: int)
    requires k in Run(START, steps).files && 0 <= i < |Run(START, steps).files[k].events|
    ensures Meant(Run(START, steps).files[k].events[i])
  {
    hide Apply, Meant, MayLeave;
    if steps != [] {
      var n := |steps| - 1;
      var y := Run(START, steps[..n]);
      StepLeaves(y, steps[n], k);
      var before := if k in y.files then y.files[k].events else [];
      var after := Run(START, steps).files[k].events;
      assert i < |before| ==> after[i] == before[i];
      if i < |before| { TimelineIsMeant(steps[..n], k, i); }
    }
  }

  /** The state that a sequence of events leads to, by their kinds alone. */
  function ReadOff(events: seq<TimelineEvent>): Option<IncidentState> {
    if events == [] then None
    else
      var before := ReadOff(events[..|events| - 1]);
      match events[|events| - 1].kind
      case AlertFiring => if before == Some(Acknowledged) then before else Some(Firing)
      case AlertReopened => Some(Firing)
      case AlertResolved => Some(Resolved)
      case AlertInhibited => Some(Inhibited)
      case AlertSilenced => Some(Silenced)
      case NotificationRepeat => Some(Firing)
      case NotificationSuppressed => before
      case OperatorAcknowledge => Some(Acknowledged)
      case OperatorResolve => Some(Resolved)
      case OperatorReopen => Some(Firing)
  }

  lemma {:induction false} ChainReadsOff(events: seq<TimelineEvent>)
    requires events != [] && events[0].previous.None?
    requires forall i :: 0 < i < |events| ==> events[i].previous == Some(events[i - 1].next)
    requires forall i :: 0 <= i < |events| ==> Meant(events[i])
    ensures ReadOff(events) == Some(events[|events| - 1].next)
  {
    var n := |events| - 1;
    var first := events[..n];
    assert Meant(events[n]);
    if n > 0 {
      ChainReadsOff(first);
      assert events[n].previous == Some(first[n - 1].next);
    }
  }

  /** In every reachable projection the state of an incident is the one its timeline reads off to. */
  lemma StateReadsOff(steps: seq<Step>, k: L.Key)
    requires k in Run(START, steps).files
    ensures ReadOff(Run(START, steps).files[k].events) == Some(Run(START, steps).files[k].incident.state)
  {
    hide Run, Meant, Accounted, ReadOff;
    TimelineHolds(steps, k);
    var f := Run(START, steps).files[k];
    forall i | 0 <= i < |f.events| ensures Meant(f.events[i]) { TimelineIsMeant(steps, k, i); }
    ChainReadsOff(f.events);
  }
}
