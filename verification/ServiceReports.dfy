/**
 The contract between the collector and the Discord notifier: what
 scripts/service-health-monitor.py leaves on disk for one source, and what `service_entry` and
 `collect_service_health` of scripts/discord-ops-alerts.py make of it.
 */
module ServiceReports {
  import opened Prelude
  import opened IncidentTracking
  import opened ServiceMonitor
  import opened AlertOutbox

  // ----- Every record a collector can reach -----

  /** What can happen to a record: a sample is observed, or doubt interrupts its healthy run. */
  datatype Happening = Seen(p: Policy, status: Status, at: real) | Interruption

  function Lived(h: History, x: Happening): History {
    match x
    case Seen(p, status, at) => Observe(p, h, status, at).0
    case Interruption => Interrupted(h)
  }

  function LifeOf(xs: seq<Happening>): History {
    if xs == [] then FRESH else Lived(LifeOf(xs[..|xs| - 1]), xs[|xs| - 1])
  }

  predicate Between(low: real, x: Option<real>, high: Option<real>) {
    x.Some? && high.Some? && low <= x.value <= high.value
  }

  ghost predicate Sound(h: History) {
    && NumbersOk(h)
    && (if h.sequence > 0 then Between(0.0, h.openedAt, h.sampleAt) else h.openedAt == None)
    && (if h.closedIncident.Some? then Between(0.0, h.closedAt, h.sampleAt) else h.closedAt == None)
  }

  lemma SoundStep(h: History, x: Happening)
    requires Sound(h)
    ensures Sound(Lived(h, x))
  {
    if x.Seen? {
      ObserveRenumbers(x.p, h, x.status, x.at);
    }
  }

  lemma {:induction false} LifeIsSound(xs: seq<Happening>)
    ensures Sound(LifeOf(xs))
  {
    if xs != [] {
      LifeIsSound(xs[..|xs| - 1]);
      SoundStep(LifeOf(xs[..|xs| - 1]), xs[|xs| - 1]);
    }
  }

  predicate NoLater(a: Option<real>, b: Option<real>) {
    a.None? || (b.Some? && a.value <= b.value)
  }

  predicate SameIncidents(a: History, b: History) {
    && a.incident == b.incident && a.sequence == b.sequence && a.closedIncident == b.closedIncident
    && a.openedAt == b.openedAt && a.closedAt == b.closedAt
  }

  /** b is a later state of the same record as a. */
  ghost predicate Succeeds(a: History, b: History) {
    && NoLater(a.sampleAt, b.sampleAt)
    && (a.sampleAt == b.sampleAt ==> SameIncidents(a, b))
    && a.sequence <= b.sequence
    && (b.incident.Some? ==> b.incident == a.incident || b.incident.value > a.sequence)
    && (a.sequence == b.sequence ==> a.openedAt == b.openedAt)
    && (a.closedIncident.Some? ==> b.closedIncident.Some? && a.closedIncident.value <= b.closedIncident.value)
    && (a.closedIncident == b.closedIncident ==> a.closedAt == b.closedAt)
  }

  lemma SucceedsTransitive(a: History, b: History, c: History)
    requires Succeeds(a, b) && Succeeds(b, c)
    ensures Succeeds(a, c)
  {
  }

  lemma SucceedsStep(h: History, x: Happening)
    requires NumbersOk(h)
    ensures Succeeds(h, Lived(h, x))
  {
    if x.Seen? {
      ObserveRenumbers(x.p, h, x.status, x.at);
    }
  }

  /** Time and incident numbers of one record only move forward. */
  lemma {:induction false} LifeSucceeds(xs: seq<Happening>, n: nat)
    requires n <= |xs|
    ensures Succeeds(LifeOf(xs[..n]), LifeOf(xs))
  {
    if n == |xs| {
      assert xs[..n] == xs;
    } else {
      var front := xs[..|xs| - 1];
      assert front[..n] == xs[..n];
      LifeSucceeds(front, n);
      LifeIsSound(front);
      SucceedsStep(LifeOf(front), xs[|xs| - 1]);
      SucceedsTransitive(LifeOf(xs[..n]), LifeOf(front), LifeOf(xs));
    }
  }

  // ----- The consumer's reading of one record -----

  /** `service_entry`: None where the program raises. */
  function ServiceEntry(h: History, expected: Status, sampleAt: real, observedAt: real): Option<Report> {
    if h.latestStatus != Some(expected) || h.sampleAt != Some(sampleAt) then None
    else if h.incident.Some? && (h.incident.value != h.sequence || h.incident.value < 1) then None
    else if h.closedIncident.Some? && (!(1 <= h.closedIncident.value <= h.sequence)
                                       || (h.incident.Some? && h.closedIncident.value >= h.incident.value)) then None
    else if (h.sequence > 0 && h.openedAt.None?) || (h.closedIncident.Some? && h.closedAt.None?) then None
    else if (h.sequence > 0 && !(0.0 <= h.openedAt.value <= sampleAt))
            || (h.closedIncident.Some? && !(0.0 <= h.closedAt.value <= sampleAt))
            || (h.sequence > 0 && h.incident.None? && h.closedIncident != Some(h.sequence)) then None
    else
      Some(Report(Unknown, h.incident, h.sequence, h.closedIncident,
                  if h.sequence > 0 then h.openedAt else None,
                  if h.closedIncident.Some? then h.closedAt else None, sampleAt, observedAt))
  }

  /** The report carries exactly the incident history of the record. */
  ghost predicate Describes(r: Report, h: History) {
    && h.sampleAt == Some(r.sampleAt)
    && r.incident == h.incident && r.sequence == h.sequence && r.closed == h.closedIncident
    && r.openedAt == h.openedAt && r.closedAt == h.closedAt
    && (r.status == Alarm ==> h.incident.Some?)
    && (r.status == Normal ==> h.incident.None?)
  }

  /** For a record a collector can reach, `service_entry` raises only when the sample it is
      shown is not the one the record last took; its incident history never makes it raise. */
  lemma HistoryIsNeverRefused(xs: seq<Happening>, expected: Status, sampleAt: real, observedAt: real)
    ensures var h := LifeOf(xs);
            var r := ServiceEntry(h, expected, sampleAt, observedAt);
            && (r.Some? <==> h.latestStatus == Some(expected) && h.sampleAt == Some(sampleAt))
            && (r.Some? ==> Describes(r.value, h))
  {
    LifeIsSound(xs);
  }

  function WithStatus(r: Report, status: Level): Report {
    r.(status := status)
  }

  /** Two snapshots of one record, read in the order they were written, never look like a
      regression to the consumer. */
  lemma LaterSnapshotsNeverRegress(xs: seq<Happening>, n: nat, prev: Cursor, r: Report)
    requires n <= |xs| && prev.report.Some?
    requires Describes(prev.report.value, LifeOf(xs[..n])) && Describes(r, LifeOf(xs))
    requires prev.report.value.observedAt <= r.observedAt
    ensures !Regressed(prev, r)
  {
    LifeSucceeds(xs, n);
  }

  // ----- One collection, as it is published and read back -----

  /** What the sampler made of a result file: a usable status with its time, or nothing, because
      the file is absent or stale (`missing`) or otherwise wrong. */
  datatype Evidence = Usable(raw: Status, at: real) | Unusable(missing: bool)

  function SampledStatus(e: Evidence): Status {
    if e.Usable? && e.raw != BudgetLimit then e.raw else ObserverError
  }

  function SampledAt(e: Evidence, now: real): real {
    if e.Usable? then e.at else now
  }

  function AsObservation(e: Evidence, now: real): Observation {
    Observation(SampledStatus(e), SampledAt(e, now), e.Unusable? && e.missing)
  }

  /** The published pair for one source: its two records and its row of the summary. */
  datatype Published = Published(entry: History, observer: History, observedAt: real, evidence: Evidence,
                                 status: Status, sampleAt: real, observerStatus: Status,
                                 incident: Option<nat>, observerIncident: Option<nat>,
                                 suppressed: bool, parentStatus: Option<Status>)

  function Publish(p: Policy, entry: Target, observer: Target, e: Evidence, parentStatus: Option<Status>, now: real,
                   notify: bool): Published
  {
    var o := AsObservation(e, now);
    var suppressed := o.missing && parentStatus == Some(ObserverError);
    var entryAfter := CollectTarget(p, entry, o.status, o.at, o.status == ObserverError, notify).0.history;
    var observerAfter := CollectTarget(OBSERVER_POLICY, observer, ObserverStatus(o.status, suppressed), now, suppressed,
                                       notify && !suppressed).0.history;
    Published(entryAfter, observerAfter, now, e, o.status, o.at, ObserverStatus(o.status, suppressed),
              entryAfter.incident, observerAfter.incident, suppressed, parentStatus)
  }

  /** `collect_service_health`: the condition and observer reports, or None where it answers
      UNKNOWN without an incident history. */
  function Classify(s: Published, now: real, maxAge: real): Option<(Report, Report)> {
    if !(-5.0 <= now - s.observedAt <= 180.0) then None
    else if s.status == BudgetLimit || !(0.0 <= s.sampleAt <= s.observedAt + 30.0) then None
    else
      var c := ServiceEntry(s.entry, s.status, s.sampleAt, s.observedAt);
      if c.None? || s.observerStatus !in {Healthy, Failed, ObserverError} then None
      else
        var o := ServiceEntry(s.observer, s.observerStatus, s.observedAt, s.observedAt);
        if o.None? || s.incident != c.value.incident || s.observerIncident != o.value.incident then None
        else if s.suppressed && !(s.parentStatus == Some(ObserverError) && s.evidence.Unusable? && s.evidence.missing
                                  && s.status == ObserverError && s.observerStatus == ObserverError) then None
        else if s.evidence.Usable? && (s.evidence.at != s.sampleAt || s.status != SampledStatus(s.evidence)) then None
        else if s.evidence.Unusable? && s.status != ObserverError then None
        else if s.evidence.Usable? && !(-5.0 <= now - s.evidence.at <= maxAge) then None
        else
          var condition :=
            if s.evidence.Usable? && s.evidence.raw in {Healthy, Failed} then
              if c.value.incident.Some? then Alarm else if s.evidence.raw == Healthy then Normal else Unknown
            else Unknown;
          var watching :=
            if s.suppressed then Unknown
            else if o.value.incident.Some? then Alarm
            else if s.observerStatus == Healthy then Normal else Unknown;
          Some((WithStatus(c.value, condition), WithStatus(o.value, watching)))
  }

  predicate Absorbed(h: History, status: Status, at: real) {
    Late(h, at) || (h.sampleAt == Some(at) && h.latestStatus == Some(status))
  }

  lemma CollectedHistory(p: Policy, t: Target, status: Status, at: real, interrupt: bool, notify: bool)
    requires at >= 0.0
    ensures var after := CollectTarget(p, t, status, at, interrupt, notify).0.history;
            && after == (if interrupt then Interrupted(Observe(p, t.history, status, at).0)
                         else Observe(p, t.history, status, at).0)
            && (Sound(t.history) ==> Sound(after))
            && (after.latestStatus == Some(status) && after.sampleAt == Some(at) <==> Absorbed(t.history, status, at))
  {
    ObserveRenumbers(p, t.history, status, at);
    if Sound(t.history) {
      SoundStep(t.history, Seen(p, status, at));
      SoundStep(Observe(p, t.history, status, at).0, Interruption);
    }
  }

  /** What every published row says about the records beside it. */
  ghost predicate Consistent(s: Published) {
    && Sound(s.entry) && Sound(s.observer)
    && s.status == SampledStatus(s.evidence) && s.sampleAt == SampledAt(s.evidence, s.observedAt)
    && s.incident == s.entry.incident && s.observerIncident == s.observer.incident
    && s.observerStatus == ObserverStatus(s.status, s.suppressed)
    && (s.suppressed ==> s.parentStatus == Some(ObserverError) && s.evidence.Unusable? && s.evidence.missing)
    && 0.0 <= s.sampleAt <= s.observedAt + 30.0
  }

  ghost predicate Took(h: History, status: Status, at: real) {
    h.latestStatus == Some(status) && h.sampleAt == Some(at)
  }

  lemma ConsistentIsUnderstood(s: Published, t: real, maxAge: real)
    requires Consistent(s) && -5.0 <= t - s.observedAt <= 180.0
    ensures var read := Classify(s, t, maxAge);
            && (read.Some? <==>
                  && Took(s.entry, s.status, s.sampleAt) && Took(s.observer, s.observerStatus, s.observedAt)
                  && (s.evidence.Usable? ==> -5.0 <= t - s.evidence.at <= maxAge))
            && (read.Some? ==>
                  && Describes(read.value.0, s.entry) && Describes(read.value.1, s.observer)
                  && Named(read.value.0) && Named(read.value.1)
                  && read.value.0.observedAt == s.observedAt && read.value.1.observedAt == s.observedAt)
  {
    EntryOfSound(s.entry, s.status, s.sampleAt, s.observedAt);
    EntryOfSound(s.observer, s.observerStatus, s.observedAt, s.observedAt);
  }

  lemma PublishedIsConsistent(p: Policy, entry: Target, observer: Target, e: Evidence,
                              parentStatus: Option<Status>, now: real, notify: bool)
    requires Sound(entry.history) && Sound(observer.history)
    requires now >= 0.0 && (e.Usable? ==> 0.0 <= e.at <= now + 30.0)
    ensures var s := Publish(p, entry, observer, e, parentStatus, now, notify);
            && Consistent(s) && s.observedAt == now && s.evidence == e
            && (Took(s.entry, s.status, s.sampleAt) <==> Absorbed(entry.history, s.status, s.sampleAt))
            && (Took(s.observer, s.observerStatus, now) <==> Absorbed(observer.history, s.observerStatus, now))
  {
    var o := AsObservation(e, now);
    var suppressed := o.missing && parentStatus == Some(ObserverError);
    CollectedHistory(p, entry, o.status, o.at, o.status == ObserverError, notify);
    CollectedHistory(OBSERVER_POLICY, observer, ObserverStatus(o.status, suppressed), now, suppressed,
                     notify && !suppressed);
  }

  /** A published snapshot of sound records, read while it is fresh, is understood exactly when
      both records took the sample shown and the original probe is not too old; what is read is
      then the true incident history. */
  lemma GenuineSnapshotsAreUnderstood(p: Policy, entry: Target, observer: Target, e: Evidence,
                                      parentStatus: Option<Status>, now: real, notify: bool, t: real, maxAge: real)
    requires Sound(entry.history) && Sound(observer.history)
    requires now >= 0.0 && (e.Usable? ==> 0.0 <= e.at <= now + 30.0)
    requires -5.0 <= t - now <= 180.0
    ensures var s := Publish(p, entry, observer, e, parentStatus, now, notify);
            var read := Classify(s, t, maxAge);
            && (read.Some? <==>
                  && Absorbed(entry.history, s.status, s.sampleAt)
                  && Absorbed(observer.history, s.observerStatus, now)
                  && (e.Usable? ==> -5.0 <= t - e.at <= maxAge))
            && (read.Some? ==>
                  && Describes(read.value.0, s.entry) && Describes(read.value.1, s.observer)
                  && Named(read.value.0) && Named(read.value.1)
                  && read.value.0.observedAt == now && read.value.1.observedAt == now)
  {
    PublishedIsConsistent(p, entry, observer, e, parentStatus, now, notify);
    ConsistentIsUnderstood(Publish(p, entry, observer, e, parentStatus, now, notify), t, maxAge);
  }

  lemma EntryOfSound(h: History, expected: Status, sampleAt: real, observedAt: real)
    requires Sound(h)
    ensures var r := ServiceEntry(h, expected, sampleAt, observedAt);
            && (r.Some? <==> h.latestStatus == Some(expected) && h.sampleAt == Some(sampleAt))
            && (r.Some? ==> Describes(r.value, h) && r.value.status == Unknown && r.value.observedAt == observedAt)
  {
  }
}
