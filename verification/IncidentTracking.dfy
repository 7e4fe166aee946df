/**
 The incident state machine of `observe` in scripts/lib/llm_health.py: it turns a stream
 of health samples into numbered incidents that open after a streak of failures and close
 after a long enough run of healthy samples.

 `Entry` is the mutable record the program keeps; `Observe` is its specification on values,
 and the lemmas below relate `Observe` to the list of samples it was offered.
 */
module IncidentTracking {
  import opened Prelude

  datatype Status = Healthy | Failed | Loading | ObserverError | BudgetLimit

  /** What one call reports. `BadEpoch` stands for the exception raised for a negative time. */
  datatype Event = BadEpoch | Duplicate | Unchanged | Opened | Recovered

  datatype Policy = Policy(failureCount: nat, freshness: real, recoverySamples: nat, recoverySeconds: real)

  datatype History = History(
    sampleAt: Option<real>,
    latestStatus: Option<Status>,
    failures: nat,
    healthySince: Option<real>,
    healthySamples: nat,
    lastFailure: Option<real>,
    incident: Option<nat>,
    sequence: nat,
    openedAt: Option<real>,
    closedIncident: Option<nat>,
    closedAt: Option<real>)

  const FRESH := History(None, None, 0, None, 0, None, None, 0, None, None, None)

  /** The program tests an incident number for truth, so the number zero would count as absent. */
  predicate IsOpen(h: History) {
    h.incident.Some? && h.incident.value != 0
  }

  predicate Late(h: History, at: real) {
    h.sampleAt.None? || h.sampleAt.value < at
  }

  predicate Gap(p: Policy, h: History, at: real) {
    h.sampleAt.Some? && at - h.sampleAt.value > p.freshness
  }

  function Interrupted(h: History): History {
    h.(healthySince := None, healthySamples := 0, failures := 0)
  }

  function ObserveFailure(p: Policy, h: History, at: real): (History, Event) {
    var counted := h.(healthySince := None, healthySamples := 0,
                      failures := h.failures + 1, lastFailure := Some(at));
    if !IsOpen(h) && counted.failures >= p.failureCount then
      (counted.(sequence := h.sequence + 1, incident := Some(h.sequence + 1), openedAt := Some(at)), Opened)
    else
      (counted, Unchanged)
  }

  function ObserveHealth(p: Policy, h: History, at: real): (History, Event) {
    var quiet := h.(failures := 0);
    if !IsOpen(h) then (quiet, Unchanged)
    else
      var since := if h.healthySince.None? then at else h.healthySince.value;
      var counted := quiet.(healthySince := Some(since), healthySamples := h.healthySamples + 1);
      if counted.healthySamples >= p.recoverySamples && at - since >= p.recoverySeconds then
        (counted.(closedIncident := h.incident, incident := None, closedAt := Some(at), healthySince := None),
         Recovered)
      else
        (counted, Unchanged)
  }

  /** The specification of one call of `observe`. */
  function Observe(p: Policy, h: History, status: Status, at: real): (History, Event) {
    if at < 0.0 then (h, BadEpoch)
    else if !Late(h, at) then (h, Duplicate)
    else
      var stamped := h.(sampleAt := Some(at), latestStatus := Some(status));
      var cleared := if Gap(p, h, at) || status !in {Healthy, Failed} then Interrupted(stamped) else stamped;
      match status
      case Failed => ObserveFailure(p, cleared, at)
      case Healthy => ObserveHealth(p, cleared, at)
      case _ => (cleared, Unchanged)
  }

  /** The record as the program holds it, updated field by field. */
  class Entry {
    var sampleAt: Option<real>
    var latestStatus: Option<Status>
    var failures: nat
    var healthySince: Option<real>
    var healthySamples: nat
    var lastFailure: Option<real>
    var incident: Option<nat>
    var sequence: nat
    var openedAt: Option<real>
    var closedIncident: Option<nat>
    var closedAt: Option<real>

    function State(): History
      reads this
    {
      History(sampleAt, latestStatus, failures, healthySince, healthySamples, lastFailure,
              incident, sequence, openedAt, closedIncident, closedAt)
    }

    constructor ()
      ensures State() == FRESH
    {
      sampleAt, latestStatus, failures, healthySince, healthySamples := None, None, 0, None, 0;
      lastFailure, incident, sequence, openedAt := None, None, 0, None;
      closedIncident, closedAt := None, None;
    }

    method Interrupt()
      modifies this
      ensures State() == Interrupted(old(State()))
    {
      healthySince := None;
      healthySamples := 0;
      failures := 0;
    }

    method CountFailure(p: Policy, at: real) returns (event: Event)
      modifies this
      ensures (State(), event) == ObserveFailure(p, old(State()), at)
    {
      healthySince := None;
      healthySamples := 0;
      failures := failures + 1;
      lastFailure := Some(at);
      event := Unchanged;
      if (incident.None? || incident.value == 0) && failures >= p.failureCount {
        sequence := sequence + 1;
        incident := Some(sequence);
        openedAt := Some(at);
        event := Opened;
      }
    }

    method CountHealth(p: Policy, at: real) returns (event: Event)
      modifies this
      ensures (State(), event) == ObserveHealth(p, old(State()), at)
    {
      failures := 0;
      event := Unchanged;
      if incident.Some? && incident.value != 0 {
        if healthySince.None? {
          healthySince := Some(at);
        }
        healthySamples := healthySamples + 1;
        if healthySamples >= p.recoverySamples && at - healthySince.value >= p.recoverySeconds {
          closedIncident := incident;
          incident := None;
          closedAt := Some(at);
          healthySince := None;
          event := Recovered;
        }
      }
    }

    method ObserveSample(p: Policy, status: Status, at: real) returns (event: Event)
      modifies this
      ensures (State(), event) == Observe(p, old(State()), status, at)
    {
      if at < 0.0 {
        return BadEpoch;
      }
      var previous := sampleAt;
      if previous.Some? && at <= previous.value {
        return Duplicate;
      }
      var gap := previous.Some? && at - previous.value > p.freshness;
      sampleAt := Some(at);
      latestStatus := Some(status);
      if gap || (status != Healthy && status != Failed) {
        Interrupt();
      }
      if status == Failed {
        event := CountFailure(p, at);
      } else if status == Healthy {
        event := CountHealth(p, at);
      } else {
        event := Unchanged;
      }
    }
  }

  // ----- The state against the samples that led to it -----

  datatype Sample = Sample(status: Status, at: real)

  /** The state after a whole trace of offered samples. */
  ghost function After(p: Policy, trace: seq<Sample>): History {
    if trace == [] then FRESH
    else
      var s := trace[|trace| - 1];
      Observe(p, After(p, trace[..|trace| - 1]), s.status, s.at).0
  }

  ghost predicate Admits(accepted: seq<Sample>, s: Sample) {
    s.at >= 0.0 && (accepted == [] || accepted[|accepted| - 1].at < s.at)
  }

  /** The samples that count: those later than every sample counted before them. */
  ghost function Accepted(trace: seq<Sample>): seq<Sample> {
    if trace == [] then []
    else
      var before := Accepted(trace[..|trace| - 1]);
      var s := trace[|trace| - 1];
      if Admits(before, s) then before + [s] else before
  }

  /** The last k counted samples all have this status, with no gap longer than the freshness. */
  ghost predicate Tail(p: Policy, status: Status, xs: seq<Sample>, k: nat) {
    && k <= |xs|
    && (forall i | |xs| - k <= i < |xs| :: xs[i].status == status)
    && (forall i | |xs| - k < i < |xs| :: xs[i].at - xs[i - 1].at <= p.freshness)
  }

  /** The length of the longest such tail. */
  ghost function Streak(p: Policy, status: Status, xs: seq<Sample>): nat {
    if xs == [] || xs[|xs| - 1].status != status then 0
    else if |xs| == 1 || xs[|xs| - 1].at - xs[|xs| - 2].at > p.freshness then 1
    else 1 + Streak(p, status, xs[..|xs| - 1])
  }

  lemma TailUnfolds(p: Policy, status: Status, xs: seq<Sample>, k: nat)
    requires 1 <= k <= |xs|
    ensures Tail(p, status, xs, k) <==>
            && xs[|xs| - 1].status == status
            && (k == 1 || (xs[|xs| - 1].at - xs[|xs| - 2].at <= p.freshness
                           && Tail(p, status, xs[..|xs| - 1], k - 1)))
  {
    var front := xs[..|xs| - 1];
    if xs[|xs| - 1].status == status && k > 1 && xs[|xs| - 1].at - xs[|xs| - 2].at <= p.freshness
       && Tail(p, status, front, k - 1) {
      forall i | |xs| - k <= i < |xs| ensures xs[i].status == status {
        if i < |front| { assert front[i] == xs[i]; }
      }
      forall i | |xs| - k < i < |xs| ensures xs[i].at - xs[i - 1].at <= p.freshness {
        if i < |front| { assert front[i] == xs[i]; }
      }
    }
  }

  lemma {:induction false} StreakIsLongestTail(p: Policy, status: Status, xs: seq<Sample>, k: nat)
    ensures Tail(p, status, xs, k) <==> k <= Streak(p, status, xs)
    ensures Streak(p, status, xs) <= |xs|
  {
    if xs != [] {
      StreakIsLongestTail(p, status, xs[..|xs| - 1], if k == 0 then 0 else k - 1);
      if 1 <= k <= |xs| {
        TailUnfolds(p, status, xs, k);
      }
    }
  }

  ghost predicate Increasing(xs: seq<Sample>) {
    forall i, j | 0 <= i < j < |xs| :: xs[i].at < xs[j].at
  }

  ghost predicate Breaks(p: Policy, xs: seq<Sample>, at: real) {
    xs != [] && at - xs[|xs| - 1].at > p.freshness
  }

  /** How a streak changes with one more sample. */
  lemma StreakGrows(p: Policy, status: Status, xs: seq<Sample>, s: Sample)
    ensures Streak(p, status, xs + [s]) ==
            if s.status != status then 0 else if Breaks(p, xs, s.at) then 1 else 1 + Streak(p, status, xs)
    ensures Streak(p, status, xs) <= |xs|
  {
    assert (xs + [s])[..|xs|] == xs;
    StreakIsLongestTail(p, status, xs, 0);
  }

  /** Where the healthy run began stays where it is while the run goes on. */
  ghost function Since(p: Policy, xs: seq<Sample>): Option<real> {
    var run := Streak(p, Healthy, xs);
    if 1 <= run <= |xs| then Some(xs[|xs| - run].at) else None
  }

  lemma SinceGrows(p: Policy, xs: seq<Sample>, s: Sample)
    ensures Since(p, xs + [s]) ==
            if s.status != Healthy then None
            else if Breaks(p, xs, s.at) || Since(p, xs).None? then Some(s.at) else Since(p, xs)
  {
    StreakGrows(p, Healthy, xs, s);
  }

  function LastAt(xs: seq<Sample>): Option<real> {
    if xs == [] then None else Some(xs[|xs| - 1].at)
  }

  /** The record holds these counts; the healthy ones matter only while an incident is open. */
  predicate Counts(h: History, sampleAt: Option<real>, failed: nat, healthy: nat, since: Option<real>) {
    && h.sampleAt == sampleAt
    && (h.incident.Some? ==> h.incident.value != 0)
    && h.failures == failed
    && (IsOpen(h) ==> h.healthySamples == healthy && h.healthySince == since)
  }

  /** What the counters of the record say about the counted samples. */
  ghost predicate Tracks(p: Policy, h: History, xs: seq<Sample>) {
    Counts(h, LastAt(xs), Streak(p, Failed, xs), Streak(p, Healthy, xs), Since(p, xs))
  }

  lemma ObserveCounts(p: Policy, h: History, status: Status, at: real, failed: nat, healthy: nat, since: Option<real>)
    requires Counts(h, h.sampleAt, failed, healthy, since) && at >= 0.0 && Late(h, at)
    ensures var after := Observe(p, h, status, at).0; var gap := Gap(p, h, at);
            match status
            case Failed => Counts(after, Some(at), if gap then 1 else 1 + failed, 0, None)
            case Healthy =>
              Counts(after, Some(at), 0, if gap then 1 else 1 + healthy, if gap || since.None? then Some(at) else since)
            case _ => Counts(after, Some(at), 0, 0, None)
  {
  }

  lemma TracksStep(p: Policy, h: History, xs: seq<Sample>, s: Sample)
    requires Tracks(p, h, xs) && Admits(xs, s)
    ensures Tracks(p, Observe(p, h, s.status, s.at).0, xs + [s])
  {
    ObserveCounts(p, h, s.status, s.at, Streak(p, Failed, xs), Streak(p, Healthy, xs), Since(p, xs));
    StreakGrows(p, Failed, xs, s);
    StreakGrows(p, Healthy, xs, s);
    SinceGrows(p, xs, s);
  }

  lemma {:induction false} TraceIsTracked(p: Policy, trace: seq<Sample>)
    ensures Tracks(p, After(p, trace), Accepted(trace))
    ensures Increasing(Accepted(trace))
  {
    if trace != [] {
      var front := trace[..|trace| - 1];
      TraceIsTracked(p, front);
      if Admits(Accepted(front), trace[|trace| - 1]) {
        TracksStep(p, After(p, front), Accepted(front), trace[|trace| - 1]);
      }
    }
  }

  /** Enough recent healthy samples, without a gap, over enough time. */
  ghost predicate StableRecovery(p: Policy, xs: seq<Sample>) {
    exists k: nat | 1 <= k <= |xs| ::
      k >= p.recoverySamples && Tail(p, Healthy, xs, k)
      && xs[|xs| - 1].at - xs[|xs| - k].at >= p.recoverySeconds
  }

  ghost predicate LongEnough(p: Policy, xs: seq<Sample>, k: nat) {
    1 <= k <= |xs| && k >= p.recoverySamples && xs[|xs| - 1].at - xs[|xs| - k].at >= p.recoverySeconds
  }

  lemma LongerIsLongEnough(p: Policy, xs: seq<Sample>, k: nat, run: nat)
    requires Increasing(xs) && LongEnough(p, xs, k) && k <= run <= |xs|
    ensures LongEnough(p, xs, run)
  {
    if k < run {
      assert xs[|xs| - run].at < xs[|xs| - k].at;
    }
  }

  lemma StableRecoveryIsTheStreak(p: Policy, xs: seq<Sample>)
    requires Increasing(xs)
    ensures StableRecovery(p, xs) <==> LongEnough(p, xs, Streak(p, Healthy, xs))
  {
    var run := Streak(p, Healthy, xs);
    StreakIsLongestTail(p, Healthy, xs, run);
    if StableRecovery(p, xs) {
      var k: nat :| 1 <= k <= |xs| && k >= p.recoverySamples && Tail(p, Healthy, xs, k)
                    && xs[|xs| - 1].at - xs[|xs| - k].at >= p.recoverySeconds;
      StreakIsLongestTail(p, Healthy, xs, k);
      LongerIsLongEnough(p, xs, k, run);
    }
  }

  lemma CountedAfter(trace: seq<Sample>, s: Sample)
    ensures Accepted(trace + [s]) ==
            if Admits(Accepted(trace), s) then Accepted(trace) + [s] else Accepted(trace)
  {
    assert (trace + [s])[..|trace|] == trace;
  }

  lemma OpenedByCount(p: Policy, h: History, xs: seq<Sample>, s: Sample)
    requires p.failureCount >= 1 && Tracks(p, h, xs)
    ensures Observe(p, h, s.status, s.at).1 == Opened <==>
            Admits(xs, s) && !IsOpen(h) && Streak(p, Failed, xs + [s]) >= p.failureCount
  {
    StreakGrows(p, Failed, xs, s);
  }

  /** An incident opens just when none is open and the last `failureCount` counted samples all
      failed, with no gap between them. */
  lemma OpensExactly(p: Policy, trace: seq<Sample>, s: Sample)
    requires p.failureCount >= 1
    ensures Observe(p, After(p, trace), s.status, s.at).1 == Opened <==>
            && Admits(Accepted(trace), s) && !IsOpen(After(p, trace))
            && Tail(p, Failed, Accepted(trace + [s]), p.failureCount)
  {
    TraceIsTracked(p, trace);
    CountedAfter(trace, s);
    OpenedByCount(p, After(p, trace), Accepted(trace), s);
    StreakIsLongestTail(p, Failed, Accepted(trace) + [s], p.failureCount);
  }

  lemma RecoveredByCount(p: Policy, h: History, xs: seq<Sample>, s: Sample)
    requires Tracks(p, h, xs)
    ensures Observe(p, h, s.status, s.at).1 == Recovered <==>
            && Admits(xs, s) && IsOpen(h)
            && LongEnough(p, xs + [s], Streak(p, Healthy, xs + [s]))
  {
    StreakGrows(p, Healthy, xs, s);
    SinceGrows(p, xs, s);
  }

  /** An incident closes just when one is open and the counted samples end in a healthy run
      without a gap that is long enough in samples and in time. */
  lemma RecoversExactly(p: Policy, trace: seq<Sample>, s: Sample)
    ensures Observe(p, After(p, trace), s.status, s.at).1 == Recovered <==>
            && Admits(Accepted(trace), s) && IsOpen(After(p, trace))
            && StableRecovery(p, Accepted(trace + [s]))
  {
    TraceIsTracked(p, trace);
    TraceIsTracked(p, trace + [s]);
    CountedAfter(trace, s);
    RecoveredByCount(p, After(p, trace), Accepted(trace), s);
    StableRecoveryIsTheStreak(p, Accepted(trace + [s]));
  }

  // ----- Numbering -----

  datatype Transition = Opens(id: nat) | Closes(id: nat)

  /** The incidents opened and closed along a trace, in order. */
  ghost function Transitions(p: Policy, trace: seq<Sample>): seq<Transition> {
    if trace == [] then []
    else
      var front := trace[..|trace| - 1];
      var s := trace[|trace| - 1];
      var (after, event) := Observe(p, After(p, front), s.status, s.at);
      Transitions(p, front) +
      (if event == Opened && after.incident.Some? then [Opens(after.incident.value)]
       else if event == Recovered && after.closedIncident.Some? then [Closes(after.closedIncident.value)]
       else [])
  }

  /** The n-th transition of any record, counted from zero. */
  function Numbered(n: nat): Transition {
    if n % 2 == 0 then Opens(n / 2 + 1) else Closes(n / 2 + 1)
  }

  /** What an event does to the numbers of a record; everything else leaves them alone. */
  ghost predicate Renumbers(h: History, event: Event, after: History) {
    match event
    case Opened =>
      && !IsOpen(h) && after.sequence == h.sequence + 1 && after.incident == Some(after.sequence)
      && after.closedIncident == h.closedIncident && after.closedAt == h.closedAt
      && after.openedAt == after.sampleAt
    case Recovered =>
      && IsOpen(h) && after.sequence == h.sequence && after.incident == None
      && after.closedIncident == h.incident && after.closedAt == after.sampleAt
      && after.openedAt == h.openedAt
    case _ =>
      && after.sequence == h.sequence && after.incident == h.incident
      && after.closedIncident == h.closedIncident && after.closedAt == h.closedAt
      && after.openedAt == h.openedAt
  }

  lemma ObserveRenumbers(p: Policy, h: History, status: Status, at: real)
    ensures var (after, event) := Observe(p, h, status, at);
            && Renumbers(h, event, after)
            && (if at >= 0.0 && Late(h, at) then after.sampleAt == Some(at) && after.latestStatus == Some(status)
                else after == h && event in {BadEpoch, Duplicate})
            && (event == Opened ==> status == Failed)
            && (event == Recovered ==> status == Healthy)
  {
  }

  /** The open incident is the newest one, and the one closed last comes just before it. */
  ghost predicate NumbersOk(h: History) {
    && (h.incident.Some? ==> h.incident == Some(h.sequence) && h.sequence >= 1)
    && h.closedIncident == ClosedBefore(h.sequence, h.incident)
  }

  ghost predicate Alternates(h: History, ts: seq<Transition>) {
    && (forall i | 0 <= i < |ts| :: ts[i] == Numbered(i))
    && |ts| == 2 * h.sequence - (if h.incident.Some? then 1 else 0)
    && NumbersOk(h)
  }

  lemma AlternatesStep(h: History, event: Event, after: History, ts: seq<Transition>)
    requires Alternates(h, ts) && Renumbers(h, event, after)
    ensures event == Opened ==> Alternates(after, ts + [Opens(after.sequence)])
    ensures event == Recovered ==> Alternates(after, ts + [Closes(after.sequence)])
    ensures event !in {Opened, Recovered} ==> Alternates(after, ts)
  {
    assert Numbered(|ts|) == if h.incident.Some? then Closes(h.sequence) else Opens(h.sequence + 1);
  }

  /** Incidents are numbered 1, 2, 3, ... and each one closes before the next one opens. */
  lemma {:induction false} IncidentsAlternate(p: Policy, trace: seq<Sample>)
    ensures Alternates(After(p, trace), Transitions(p, trace))
  {
    if trace != [] {
      var front, s := trace[..|trace| - 1], trace[|trace| - 1];
      var h := After(p, front);
      IncidentsAlternate(p, front);
      ObserveRenumbers(p, h, s.status, s.at);
      AlternatesStep(h, Observe(p, h, s.status, s.at).1, After(p, trace), Transitions(p, front));
    }
  }

  /** The incident closed last: the one numbered just before the open one, or the newest one. */
  function ClosedBefore(sequence: nat, incident: Option<nat>): Option<nat> {
    if incident.Some? then (if sequence <= 1 then None else Some(sequence - 1))
    else if sequence == 0 then None else Some(sequence)
  }
}
