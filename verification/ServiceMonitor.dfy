/**
 One collection of scripts/service-health-monitor.py and the mail it owes: every source has a
 service record and an observer record, each with at most one failure mail and one recovery
 mail waiting. `CollectTarget` and `CollectOne` specify `collect`; `Claim` and `Settle`
 specify the two halves of `deliver` in scripts/lib/llm_health.py.
 */
module ServiceMonitor {
  import opened Prelude
  import opened IncidentTracking

  datatype Notice = FailureNotice | RecoveryNotice

  datatype MailStatus = New | NotSent | Attempted | Sent | Uncertain | Exhausted | Superseded

  datatype Mail = Mail(incident: Option<nat>, attempts: nat, status: MailStatus, retryAfter: real)

  datatype Target = Target(history: History, failure: Option<Mail>, recovery: Option<Mail>) {
    function Slot(n: Notice): Option<Mail> {
      if n == FailureNotice then failure else recovery
    }

    function Put(n: Notice, m: Mail): Target {
      if n == FailureNotice then this.(failure := Some(m)) else this.(recovery := Some(m))
    }
  }

  const FRESH_TARGET := Target(FRESH, None, None)

  datatype TargetId = Service(name: string) | Observer(name: string)

  type Targets = map<TargetId, Target>

  function Get(targets: Targets, id: TargetId): Target {
    if id in targets then targets[id] else FRESH_TARGET
  }

  predicate Pending(m: Mail) {
    m.status == New || m.status == NotSent
  }

  function Withdraw(slot: Option<Mail>, condition: bool): Option<Mail> {
    if condition && slot.Some? && Pending(slot.value) then Some(slot.value.(status := Superseded)) else slot
  }

  /** A mail reserved: which notice, and for which incident. */
  datatype Reservation = Reservation(notice: Notice, incident: Option<nat>)

  /** A record, and the reservations just made for it. */
  datatype Booked = Booked(target: Target, reserved: seq<Reservation>)

  /** `reserve_event`: a new mail for the open incident, or for the one just closed. */
  function Reserve(t: Target, n: Notice): Booked {
    var incident := if n == FailureNotice then t.history.incident else t.history.closedIncident;
    Booked(t.Put(n, Mail(incident, 0, New, 0.0)), [Reservation(n, incident)])
  }

  function Announce(t: Target, event: Event): Booked {
    if event == Opened then Reserve(t, FailureNotice)
    else if event == Recovered then Reserve(t, RecoveryNotice)
    else if IsOpen(t.history) && (t.failure.None? || t.failure.value.incident != t.history.incident) then
      Reserve(t, FailureNotice)
    else Booked(t, [])
  }

  /** One record in one collection: observe, interrupt a doubtful healthy run, withdraw mail
      that is no longer true, then reserve the mail now due. */
  function CollectTarget(p: Policy, t: Target, status: Status, at: real, interrupt: bool, notify: bool)
    : (Target, Event, seq<Reservation>)
  {
    var (seen, event) := Observe(p, t.history, status, at);
    var kept := Target(if interrupt then Interrupted(seen) else seen,
                       Withdraw(t.failure, event == Recovered),
                       Withdraw(t.recovery, status != Healthy));
    var booked := if notify then Announce(kept, event) else Booked(kept, []);
    (booked.target, event, booked.reserved)
  }

  /** What the sampler found for a source: `missing` is a result absent or stale. */
  datatype Observation = Observation(status: Status, at: real, missing: bool)

  datatype Source = Source(name: string, policy: Policy, parent: Option<string>)

  const OBSERVER_POLICY := Policy(3, 180.0, 2, 3600.0)

  predicate SuppressedBy(source: Source, samples: map<string, Observation>)
    requires source.name in samples
    requires source.parent.Some? ==> source.parent.value in samples
  {
    source.parent.Some? && samples[source.name].missing && samples[source.parent.value].status == ObserverError
  }

  predicate Sampled(sources: seq<Source>, samples: map<string, Observation>) {
    forall s | s in sources ::
      s.name in samples && samples[s.name].at >= 0.0 && (s.parent.Some? ==> s.parent.value in samples)
  }

  function ObserverStatus(status: Status, suppressed: bool): Status {
    if suppressed then ObserverError else if status == ObserverError then Failed else Healthy
  }

  /** The reservations of a run, each with the record it was made for. */
  type Bookings = seq<(TargetId, Reservation)>

  function BookedFor(id: TargetId, reserved: seq<Reservation>): (bookings: Bookings)
    ensures |bookings| == |reserved| && forall i | 0 <= i < |reserved| :: bookings[i] == (id, reserved[i])
  {
    seq(|reserved|, i requires 0 <= i < |reserved| => (id, reserved[i]))
  }

  /** The records after a collection, and every reservation it made, in order. */
  datatype Collection = Collection(targets: Targets, bookings: Bookings)

  function CollectInto(c: Collection, id: TargetId, p: Policy, status: Status, at: real, interrupt: bool, notify: bool)
    : Collection
  {
    var (after, _, reserved) := CollectTarget(p, Get(c.targets, id), status, at, interrupt, notify);
    Collection(c.targets[id := after], c.bookings + BookedFor(id, reserved))
  }

  function CollectOne(source: Source, samples: map<string, Observation>, now: real, notify: bool, c: Collection)
    : Collection
    requires Sampled([source], samples)
  {
    assert source in [source];
    var o := samples[source.name];
    var suppressed := SuppressedBy(source, samples);
    var entry := CollectInto(c, Service(source.name), source.policy, o.status, o.at, o.status == ObserverError, notify);
    CollectInto(entry, Observer(source.name), OBSERVER_POLICY, ObserverStatus(o.status, suppressed), now, suppressed,
                notify && !suppressed)
  }

  function CollectAll(sources: seq<Source>, samples: map<string, Observation>, now: real, notify: bool,
                      c: Collection): Collection
    requires Sampled(sources, samples)
  {
    if sources == [] then c
    else
      var last := sources[|sources| - 1];
      CollectOne(last, samples, now, notify, CollectAll(sources[..|sources| - 1], samples, now, notify, c))
  }

  lemma OneSourceMore(sources: seq<Source>, i: nat, samples: map<string, Observation>, now: real, notify: bool,
                      c: Collection)
    requires i < |sources| && Sampled(sources, samples)
    ensures Sampled(sources[..i], samples) && Sampled(sources[..i + 1], samples) && Sampled([sources[i]], samples)
    ensures CollectAll(sources[..i + 1], samples, now, notify, c) ==
            CollectOne(sources[i], samples, now, notify, CollectAll(sources[..i], samples, now, notify, c))
  {
    assert sources[..i + 1][..i] == sources[..i] && sources[..i + 1][i] == sources[i];
  }

  predicate Due(m: Mail, now: real) {
    Pending(m) && now >= m.retryAfter
  }

  function Claim(m: Mail): Mail {
    m.(attempts := m.attempts + 1, status := Attempted)
  }

  /** How a transport call ends: taken, refused before anything was submitted, or unclear. */
  datatype MailOutcome = Accepted | Refused | Unclear

  function Settle(m: Mail, now: real, outcome: MailOutcome): Mail {
    match outcome
    case Accepted => m.(status := Sent)
    case Unclear => m.(status := Uncertain)
    case Refused =>
      m.(status := if m.attempts >= 3 then Exhausted else NotSent,
         retryAfter := now + (if m.attempts == 1 then 60.0 else 300.0))
  }

  datatype MailCall = MailCall(target: TargetId, notice: Notice, incident: Option<nat>, outcome: MailOutcome)

  /** What one `deliver` leaves: the records, the last file written, and the calls made. */
  datatype Delivered = Delivered(targets: Targets, disk: Targets, calls: seq<MailCall>)

  function Deliver(d: Delivered, id: TargetId, n: Notice, now: real, outcome: MailOutcome): Delivered {
    var t := Get(d.targets, id);
    if t.Slot(n).None? || !Due(t.Slot(n).value, now) then d
    else
      var claimed := Claim(t.Slot(n).value);
      var settled := d.targets[id := t.Put(n, Settle(claimed, now, outcome))];
      Delivered(settled, settled, d.calls + [MailCall(id, n, claimed.incident, outcome)])
  }

  /** The monitor process: its records in memory, the state file, the calls it has made and, for
      the specification, the reservations. */
  class Monitor {
    var targets: Targets
    ghost var bookings: Bookings
    var disk: Targets
    var lastCollection: real
    var calls: seq<MailCall>

    constructor ()
      ensures targets == map[] && disk == map[] && lastCollection == 0.0 && calls == [] && bookings == []
    {
      targets, disk, lastCollection, calls, bookings := map[], map[], 0.0, [], [];
    }

    ghost function Seen(): Collection
      reads this
    {
      Collection(targets, bookings)
    }

    method Persist()
      modifies this`disk
      ensures disk == targets
    {
      disk := targets;
    }

    method Collect(sources: seq<Source>, samples: map<string, Observation>, now: real, notify: bool)
      returns (done: bool)
      requires Sampled(sources, samples)
      modifies this`targets, this`lastCollection, this`bookings
      ensures done == (now >= old(lastCollection))
      ensures lastCollection == if done then now else old(lastCollection)
      ensures Seen() == if done then CollectAll(sources, samples, now, notify, old(Seen())) else old(Seen())
    {
      if now < lastCollection {
        return false;
      }
      lastCollection := now;
      var i := 0;
      while i < |sources|
        invariant 0 <= i <= |sources| && lastCollection == now
        invariant Seen() == CollectAll(sources[..i], samples, now, notify, old(Seen()))
      {
        OneSourceMore(sources, i, samples, now, notify, old(Seen()));
        CollectSource(sources[i], samples, now, notify);
        i := i + 1;
      }
      assert sources[..i] == sources;
      done := true;
    }

    /** The two records of one source. */
    method CollectSource(source: Source, samples: map<string, Observation>, now: real, notify: bool)
      requires Sampled([source], samples)
      modifies this`targets, this`bookings
      ensures Seen() == CollectOne(source, samples, now, notify, old(Seen()))
    {
      assert source in [source];
      var o := samples[source.name];
      var suppressed := SuppressedBy(source, samples);
      var entry := CollectRecord(source.policy, Service(source.name), o.status, o.at, o.status == ObserverError, notify);
      var observer := CollectRecord(OBSERVER_POLICY, Observer(source.name), ObserverStatus(o.status, suppressed), now,
                                    suppressed, notify && !suppressed);
    }

    method CollectRecord(p: Policy, id: TargetId, status: Status, at: real, interrupt: bool, notify: bool)
      returns (event: Event)
      modifies this`targets, this`bookings
      ensures Seen() == CollectInto(old(Seen()), id, p, status, at, interrupt, notify)
      ensures event == CollectTarget(p, Get(old(targets), id), status, at, interrupt, notify).1
    {
      var t := Get(targets, id);
      var (seen, happened) := Observe(p, t.history, status, at);
      event := happened;
      t := t.(history := if interrupt then Interrupted(seen) else seen);
      if status != Healthy && t.recovery.Some? && Pending(t.recovery.value) {
        t := t.(recovery := Some(t.recovery.value.(status := Superseded)));
      }
      if event == Recovered && t.failure.Some? && Pending(t.failure.value) {
        t := t.(failure := Some(t.failure.value.(status := Superseded)));
      }
      if notify {
        var booked := Announce(t, event);
        t := booked.target;
        bookings := bookings + BookedFor(id, booked.reserved);
      }
      targets := targets[id := t];
    }

    method DeliverMail(id: TargetId, n: Notice, now: real, outcome: MailOutcome)
      modifies this`targets, this`disk, this`calls
      ensures Delivered(targets, disk, calls) ==
              Deliver(Delivered(old(targets), old(disk), old(calls)), id, n, now, outcome)
    {
      var t := Get(targets, id);
      var slot := t.Slot(n);
      if slot.None? || !Pending(slot.value) || now < slot.value.retryAfter {
        return;
      }
      var mail := slot.value.(attempts := slot.value.attempts + 1, status := Attempted);
      targets := targets[id := t.Put(n, mail)];
      Persist();
      calls := calls + [MailCall(id, n, mail.incident, outcome)];
      match outcome {
        case Refused =>
          mail := mail.(status := if mail.attempts >= 3 then Exhausted else NotSent,
                        retryAfter := now + (if mail.attempts == 1 then 60.0 else 300.0));
        case Unclear => mail := mail.(status := Uncertain);
        case Accepted => mail := mail.(status := Sent);
      }
      targets := targets[id := t.Put(n, mail)];
      Persist();
    }
  }
}
