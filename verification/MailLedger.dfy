/**
 Whole runs of the mail monitor with a crash allowed between any two steps. `disk` is the last
 state file written; memory is lost in a crash; `sent` is what the transport has seen and
 `reserved` logs, in order, every reservation a collection made that reached the disk.

 The order of deliveries inside a run is left free, so the theorems hold for the order the
 program uses.
 */
module MailLedger {
  import opened Prelude
  import opened IncidentTracking
  import opened ServiceMonitor

  /** One process: loaded, collected but not yet saved, ready to deliver, and the three points
      inside one delivery. `current` holds the status each record was given by this run. */
  datatype Process =
    | Down
    | Loaded(mem: Targets)
    | Collected(mem: Targets, now: real, current: map<TargetId, Status>, booked: Bookings)
    | Ready(mem: Targets, now: real, current: map<TargetId, Status>)
    | Claimed(mem: Targets, now: real, current: map<TargetId, Status>, id: TargetId, notice: Notice)
    | Calling(mem: Targets, now: real, current: map<TargetId, Status>, id: TargetId, notice: Notice)
    | Answered(mem: Targets, now: real, current: map<TargetId, Status>)

  /** A transport call together with what was on disk for that record when it was made. */
  datatype Sending = Sending(call: MailCall, history: History, current: Status)

  datatype World = World(disk: Targets, process: Process, sent: seq<Sending>, reserved: Bookings)

  datatype Action =
    | Begin
    | Collect(sources: seq<Source>, samples: map<string, Observation>, now: real, notify: bool)
    | Save
    | TakeUp(id: TargetId, notice: Notice)
    | Call(outcome: MailOutcome)
    | Crash

  const START := World(map[], Down, [], [])

  function Statuses(sources: seq<Source>, samples: map<string, Observation>): map<TargetId, Status>
    requires Sampled(sources, samples)
  {
    if sources == [] then map[]
    else
      var last := sources[|sources| - 1];
      var status := samples[last.name].status;
      Statuses(sources[..|sources| - 1], samples)
        [Service(last.name) := status]
        [Observer(last.name) := ObserverStatus(status, SuppressedBy(last, samples))]
  }

  function SlotNumber(t: Target, n: Notice): Option<nat> {
    if t.Slot(n).Some? then t.Slot(n).value.incident else None
  }

  ghost function Step(w: World, a: Action): World {
    match (a, w.process)
    case (Crash, _) => w.(process := Down)
    case (Begin, Down) => w.(process := Loaded(w.disk))
    case (Collect(sources, samples, now, notify), Loaded(mem)) =>
      if Sampled(sources, samples) then
        var c := CollectAll(sources, samples, now, notify, Collection(mem, []));
        w.(process := Collected(c.targets, now, Statuses(sources, samples), c.bookings))
      else w
    case (Save, Collected(mem, now, current, booked)) =>
      World(mem, Ready(mem, now, current), w.sent, w.reserved + booked)
    case (TakeUp(id, n), Ready(mem, now, current)) =>
      if id in current && Get(mem, id).Slot(n).Some? && Due(Get(mem, id).Slot(n).value, now) then
        var t := Get(mem, id);
        w.(process := Claimed(mem[id := t.Put(n, ServiceMonitor.Claim(t.Slot(n).value))], now, current, id, n))
      else w
    case (Save, Claimed(mem, now, current, id, n)) =>
      w.(disk := mem, process := Calling(mem, now, current, id, n))
    case (Call(outcome), Calling(mem, now, current, id, n)) =>
      if id in current && Get(mem, id).Slot(n).Some? then
        var t := Get(mem, id);
        var m := t.Slot(n).value;
        w.(sent := w.sent + [Sending(MailCall(id, n, m.incident, outcome), Get(w.disk, id).history, current[id])],
           process := Answered(mem[id := t.Put(n, Settle(m, now, outcome))], now, current))
      else w
    case (Save, Answered(mem, now, current)) =>
      w.(disk := mem, process := Ready(mem, now, current))
    case _ => w
  }

  ghost function Exec(w: World, actions: seq<Action>): World
    decreases |actions|
  {
    if actions == [] then w
    else Step(Exec(w, actions[..|actions| - 1]), actions[|actions| - 1])
  }

  // ----- What the transport has seen of one mail -----

  ghost function Outcomes(sent: seq<Sending>, id: TargetId, n: Notice, i: nat): seq<MailOutcome> {
    if sent == [] then []
    else
      var c := sent[|sent| - 1].call;
      Outcomes(sent[..|sent| - 1], id, n, i) +
      (if c.target == id && c.notice == n && c.incident == Some(i) then [c.outcome] else [])
  }

  ghost predicate AllRefused(cs: seq<MailOutcome>) {
    forall k | 0 <= k < |cs| :: cs[k] == Refused
  }

  /** Only the last try may have ended in anything but a refusal. */
  ghost predicate NeverReplayed(cs: seq<MailOutcome>) {
    forall k | 0 <= k < |cs| - 1 :: cs[k] == Refused
  }

  ghost predicate MailOk(m: Mail, cs: seq<MailOutcome>) {
    && |cs| <= m.attempts <= 3
    && NeverReplayed(cs)
    && (Pending(m) ==> AllRefused(cs) && m.attempts <= 2)
  }

  ghost predicate SlotOk(id: TargetId, n: Notice, slot: Option<Mail>, sent: seq<Sending>) {
    match slot
    case None => forall i: nat :: Outcomes(sent, id, n, i) == []
    case Some(m) =>
      && m.incident.Some?
      && MailOk(m, Outcomes(sent, id, n, m.incident.value))
      && forall i: nat | i > m.incident.value :: Outcomes(sent, id, n, i) == []
  }

  /** A waiting failure mail is about the open incident; a waiting recovery mail is about the
      newest closed one while none is open. */
  ghost predicate AboutNow(t: Target) {
    && (t.failure.Some? && t.failure.value.incident.Some? ==>
          && 1 <= t.failure.value.incident.value <= t.history.sequence
          && (Pending(t.failure.value) ==> t.history.incident == t.failure.value.incident))
    && (t.recovery.Some? && t.recovery.value.incident.Some? ==>
          && t.history.closedIncident.Some?
          && 1 <= t.recovery.value.incident.value <= t.history.closedIncident.value
          && (Pending(t.recovery.value) ==>
                t.history.incident == None && t.history.closedIncident == t.recovery.value.incident))
  }

  ghost predicate TargetOk(id: TargetId, t: Target, sent: seq<Sending>) {
    && NumbersOk(t.history)
    && SlotOk(id, FailureNotice, t.failure, sent)
    && SlotOk(id, RecoveryNotice, t.recovery, sent)
    && AboutNow(t)
  }

  ghost predicate StateOk(targets: Targets, sent: seq<Sending>) {
    forall id :: TargetOk(id, Get(targets, id), sent)
  }

  // ----- The log of reservations -----

  /** Each mail slot moves on to a later incident or stays with the one it has. */
  ghost predicate Onward(before: Target, after: Target) {
    forall n | SlotNumber(before, n).Some? ::
      SlotNumber(after, n).Some? && SlotNumber(before, n).value <= SlotNumber(after, n).value
  }

  ghost predicate OnwardAll(before: Targets, after: Targets) {
    forall id :: Onward(Get(before, id), Get(after, id))
  }

  /** The same mail, withdrawn or tried further, but not started afresh. */
  ghost predicate Continues(before: Option<Mail>, after: Option<Mail>) {
    before == after
    || (before.Some? && after.Some? && after.value.incident == before.value.incident
        && after.value.attempts >= before.value.attempts && after.value.status != New)
  }

  /** Every mail that does not continue the one before it stands in the bookings. */
  ghost predicate Open(id: TargetId, before: Target, after: Target, booked: Bookings) {
    forall n ::
      Continues(before.Slot(n), after.Slot(n))
      || (after.Slot(n).Some? && (id, Reservation(n, after.Slot(n).value.incident)) in booked)
  }

  ghost predicate OpenAll(before: Targets, after: Targets, booked: Bookings) {
    forall id :: Open(id, Get(before, id), Get(after, id), booked)
  }

  /** Per record and notice, incidents are reserved in ascending order, and the slot holds the
      last one. */
  ghost predicate ReservedOk(targets: Targets, log: Bookings) {
    && (forall k | 0 <= k < |log| :: Reached(Get(targets, log[k].0), log[k].1))
    && Ascending(log)
  }

  ghost predicate Reached(t: Target, r: Reservation) {
    && r.incident.Some? && SlotNumber(t, r.notice).Some?
    && r.incident.value <= SlotNumber(t, r.notice).value
  }

  ghost predicate Ascending(log: Bookings) {
    forall j, k | 0 <= j < k < |log| && log[j].0 == log[k].0 && log[j].1.notice == log[k].1.notice ::
      log[j].1.incident.Some? && log[k].1.incident.Some? && log[j].1.incident.value < log[k].1.incident.value
  }

  lemma ReservedCarries(before: Targets, after: Targets, log: Bookings)
    requires ReservedOk(before, log) && OnwardAll(before, after)
    ensures ReservedOk(after, log)
  {
    forall k | 0 <= k < |log| ensures Reached(Get(after, log[k].0), log[k].1) {
      assert Reached(Get(before, log[k].0), log[k].1) && Onward(Get(before, log[k].0), Get(after, log[k].0));
    }
  }

  lemma ReservedGrows(before: Targets, after: Targets, log: Bookings, id: TargetId, r: Reservation)
    requires ReservedOk(before, log) && OnwardAll(before, after)
    requires r.incident.Some? && SlotNumber(Get(after, id), r.notice) == r.incident
    requires SlotNumber(Get(before, id), r.notice).Some? ==>
               SlotNumber(Get(before, id), r.notice).value < r.incident.value
    ensures ReservedOk(after, log + [(id, r)])
  {
    ReservedCarries(before, after, log);
    forall k | 0 <= k < |log| && log[k].0 == id && log[k].1.notice == r.notice
      ensures log[k].1.incident.Some? && log[k].1.incident.value < r.incident.value
    {
      assert Reached(Get(before, log[k].0), log[k].1);
    }
  }

  // ----- One collection keeps every record in order -----

  /** What a record may reserve: one mail, about an incident later than its slot has seen. */
  ghost predicate BookedWell(t: Target, after: Target, reserved: seq<Reservation>) {
    reserved == []
    || (&& |reserved| == 1
        && reserved[0].incident.Some?
        && after.Slot(reserved[0].notice) == Some(Mail(reserved[0].incident, 0, New, 0.0))
        && (SlotNumber(t, reserved[0].notice).Some? ==>
              SlotNumber(t, reserved[0].notice).value < reserved[0].incident.value))
  }

  lemma AnnounceKeeps(id: TargetId, t: Target, event: Event, sent: seq<Sending>)
    requires TargetOk(id, t, sent)
    requires event == Opened ==> t.history.incident.Some?
                                 && (SlotNumber(t, FailureNotice).Some? ==>
                                       SlotNumber(t, FailureNotice).value < t.history.sequence)
    requires event == Recovered ==> t.history.incident.None? && t.history.closedIncident.Some?
                                    && (SlotNumber(t, RecoveryNotice).Some? ==>
                                          SlotNumber(t, RecoveryNotice).value < t.history.sequence)
    ensures var b := Announce(t, event);
            && TargetOk(id, b.target, sent)
            && Onward(t, b.target)
            && BookedWell(t, b.target, b.reserved)
            && (event != Recovered ==> b.target.recovery == t.recovery)
  {
  }

  function Reviewed(p: Policy, t: Target, status: Status, at: real, interrupt: bool): Target {
    CollectTarget(p, t, status, at, interrupt, false).0
  }

  lemma ReviewKeeps(id: TargetId, p: Policy, t: Target, status: Status, at: real, interrupt: bool, sent: seq<Sending>)
    requires TargetOk(id, t, sent)
    ensures TargetOk(id, Reviewed(p, t, status, at, interrupt), sent)
    ensures forall n :: SlotNumber(Reviewed(p, t, status, at, interrupt), n) == SlotNumber(t, n)
  {
    ObserveRenumbers(p, t.history, status, at);
  }

  lemma CollectTargetKeeps(id: TargetId, p: Policy, t: Target, status: Status, at: real, interrupt: bool,
                           notify: bool, sent: seq<Sending>)
    requires TargetOk(id, t, sent)
    ensures var (after, _, reserved) := CollectTarget(p, t, status, at, interrupt, notify);
            && TargetOk(id, after, sent)
            && Onward(t, after)
            && BookedWell(t, after, reserved)
            && (status != Healthy ==> after.recovery.None? || !Pending(after.recovery.value))
  {
    ReviewKeeps(id, p, t, status, at, interrupt, sent);
    ObserveRenumbers(p, t.history, status, at);
    var reviewed := Reviewed(p, t, status, at, interrupt);
    var event := Observe(p, t.history, status, at).1;
    if notify {
      AnnounceKeeps(id, reviewed, event, sent);
      assert CollectTarget(p, t, status, at, interrupt, notify).0 == Announce(reviewed, event).target;
    }
  }

  /** A collected slot holds the mail it held, the same mail withdrawn, or a mail just reserved:
      there is no fresh mail that the log of reservations does not show. */
  lemma SlotsChangeOpenly(p: Policy, t: Target, status: Status, at: real, interrupt: bool, notify: bool, n: Notice)
    ensures var (after, _, reserved) := CollectTarget(p, t, status, at, interrupt, notify);
            || after.Slot(n) == t.Slot(n)
            || after.Slot(n) == Withdraw(t.Slot(n), true)
            || exists i :: reserved == [Reservation(n, i)] && after.Slot(n) == Some(Mail(i, 0, New, 0.0))
  {
    var (after, event, reserved) := CollectTarget(p, t, status, at, interrupt, notify);
    if reserved != [] && reserved[0].notice == n {
      assert reserved == [Reservation(n, reserved[0].incident)];
    }
  }

  /** No recovery mail waits on a record that this run found anything but healthy. */
  ghost predicate CurrentOk(mem: Targets, current: map<TargetId, Status>) {
    forall id | id in current && current[id] != Healthy ::
      var slot := Get(mem, id).recovery; slot.None? || !Pending(slot.value)
  }

  /** What holds of the records and reservations of a run under way: `disk` is where it began
      and `log` what was reserved before. */
  ghost predicate RunOk(disk: Targets, log: Bookings, c: Collection, current: map<TargetId, Status>, sent: seq<Sending>) {
    && StateOk(c.targets, sent) && OnwardAll(disk, c.targets) && CurrentOk(c.targets, current)
    && ReservedOk(c.targets, log + c.bookings) && OpenAll(disk, c.targets, c.bookings)
  }

  lemma StillOpen(id: TargetId, disk: Target, t: Target, booked: Bookings, p: Policy, status: Status, at: real,
                  interrupt: bool, notify: bool)
    requires Open(id, disk, t, booked)
    ensures var (after, _, reserved) := CollectTarget(p, t, status, at, interrupt, notify);
            Open(id, disk, after, booked + BookedFor(id, reserved))
  {
    var (after, event, reserved) := CollectTarget(p, t, status, at, interrupt, notify);
    var all := booked + BookedFor(id, reserved);
    forall n
      ensures Continues(disk.Slot(n), after.Slot(n))
              || (after.Slot(n).Some? && (id, Reservation(n, after.Slot(n).value.incident)) in all)
    {
      SlotsChangeOpenly(p, t, status, at, interrupt, notify, n);
      if after.Slot(n) != t.Slot(n) && after.Slot(n) != Withdraw(t.Slot(n), true) {
        assert all[|booked|] == (id, reserved[0]);
      }
    }
  }

  lemma CollectIntoKeeps(disk: Targets, log: Bookings, c: Collection, current: map<TargetId, Status>, id: TargetId,
                         p: Policy, status: Status, at: real, interrupt: bool, notify: bool, sent: seq<Sending>)
    requires RunOk(disk, log, c, current, sent)
    ensures RunOk(disk, log, CollectInto(c, id, p, status, at, interrupt, notify), current[id := status], sent)
  {
    var t := Get(c.targets, id);
    var (after, event, reserved) := CollectTarget(p, t, status, at, interrupt, notify);
    var d := CollectInto(c, id, p, status, at, interrupt, notify);
    CollectTargetKeeps(id, p, t, status, at, interrupt, notify, sent);
    StillOpen(id, Get(disk, id), t, c.bookings, p, status, at, interrupt, notify);
    forall other
      ensures TargetOk(other, Get(d.targets, other), sent) && Onward(Get(disk, other), Get(d.targets, other))
      ensures Onward(Get(c.targets, other), Get(d.targets, other))
      ensures Open(other, Get(disk, other), Get(d.targets, other), d.bookings)
    {
      assert Onward(Get(disk, other), Get(c.targets, other));
      if other != id {
        assert Get(d.targets, other) == Get(c.targets, other) && TargetOk(other, Get(c.targets, other), sent);
        assert Open(other, Get(disk, other), Get(c.targets, other), c.bookings);
      }
    }
    if reserved == [] {
      assert log + d.bookings == log + c.bookings;
      ReservedCarries(c.targets, d.targets, log + c.bookings);
    } else {
      ReservedGrows(c.targets, d.targets, log + c.bookings, id, reserved[0]);
      assert log + d.bookings == log + c.bookings + [(id, reserved[0])];
    }
  }

  lemma {:induction false} CollectAllKeeps(disk: Targets, log: Bookings, sources: seq<Source>,
                                           samples: map<string, Observation>, now: real, notify: bool,
                                           sent: seq<Sending>)
    requires Sampled(sources, samples) && StateOk(disk, sent) && ReservedOk(disk, log)
    ensures RunOk(disk, log, CollectAll(sources, samples, now, notify, Collection(disk, [])),
                  Statuses(sources, samples), sent)
  {
    if sources == [] {
      assert log + [] == log;
    } else {
      var front, last := sources[..|sources| - 1], sources[|sources| - 1];
      CollectAllKeeps(disk, log, front, samples, now, notify, sent);
      var c := CollectAll(front, samples, now, notify, Collection(disk, []));
      var o := samples[last.name];
      var suppressed := SuppressedBy(last, samples);
      var current := Statuses(front, samples);
      CollectIntoKeeps(disk, log, c, current, Service(last.name), last.policy, o.status, o.at,
                       o.status == ObserverError, notify, sent);
      CollectIntoKeeps(disk, log,
                       CollectInto(c, Service(last.name), last.policy, o.status, o.at, o.status == ObserverError, notify),
                       current[Service(last.name) := o.status], Observer(last.name), OBSERVER_POLICY,
                       ObserverStatus(o.status, suppressed), now, suppressed, notify && !suppressed, sent);
    }
  }

  // ----- The invariant of the whole system -----

  /** A claim on disk for which no call has been made yet. */
  ghost predicate Armed(t: Target, id: TargetId, n: Notice, sent: seq<Sending>) {
    && t.Slot(n).Some?
    && var m := t.Slot(n).value;
       && m.incident.Some? && m.status == Attempted
       && var cs := Outcomes(sent, id, n, m.incident.value);
          AllRefused(cs) && |cs| < m.attempts <= 3
  }

  ghost predicate Justified(h: History, n: Notice, incident: Option<nat>, current: Status) {
    && incident.Some?
    && (n == FailureNotice ==> h.incident == incident)
    && (n == RecoveryNotice ==> h.incident == None && h.closedIncident == incident && current == Healthy)
  }

  ghost predicate ClaimOk(w: World, mem: Targets, current: map<TargetId, Status>, id: TargetId, n: Notice) {
    && id in current
    && Armed(Get(mem, id), id, n, w.sent)
    && Justified(Get(mem, id).history, n, SlotNumber(Get(mem, id), n), current[id])
  }

  ghost predicate LogOk(sent: seq<Sending>) {
    && (forall k | 0 <= k < |sent| ::
          Justified(sent[k].history, sent[k].call.notice, sent[k].call.incident, sent[k].current))
    && (forall id, n, i :: |Outcomes(sent, id, n, i)| <= 3 && NeverReplayed(Outcomes(sent, id, n, i)))
  }

  /** Memory that is ahead of the disk, without new reservations. */
  ghost predicate Ahead(w: World, mem: Targets, current: map<TargetId, Status>) {
    && StateOk(mem, w.sent) && OnwardAll(w.disk, mem) && CurrentOk(mem, current) && OpenAll(w.disk, mem, [])
  }

  ghost predicate ProcessOk(w: World) {
    match w.process
    case Down => true
    case Loaded(mem) => mem == w.disk
    case Collected(mem, _, current, booked) => RunOk(w.disk, w.reserved, Collection(mem, booked), current, w.sent)
    case Ready(mem, _, current) => mem == w.disk && CurrentOk(mem, current)
    case Claimed(mem, _, current, id, n) => Ahead(w, mem, current) && ClaimOk(w, mem, current, id, n)
    case Calling(mem, _, current, id, n) =>
      mem == w.disk && CurrentOk(mem, current) && ClaimOk(w, mem, current, id, n)
    case Answered(mem, _, current) => Ahead(w, mem, current)
  }

  ghost predicate Inv(w: World) {
    && StateOk(w.disk, w.sent)
    && LogOk(w.sent)
    && ReservedOk(w.disk, w.reserved)
    && ProcessOk(w)
  }

  lemma ClaimTarget(t: Target, id: TargetId, n: Notice, sent: seq<Sending>, current: Status)
    requires TargetOk(id, t, sent) && t.Slot(n).Some? && Pending(t.Slot(n).value)
    requires n == RecoveryNotice ==> current == Healthy
    ensures var after := t.Put(n, ServiceMonitor.Claim(t.Slot(n).value));
            && TargetOk(id, after, sent) && Onward(t, after) && Open(id, t, after, []) && Armed(after, id, n, sent)
            && Justified(after.history, n, SlotNumber(after, n), current)
  {
  }

  lemma TakeUpKeeps(w: World, id: TargetId, n: Notice)
    requires Inv(w) && w.process.Ready?
    ensures Inv(Step(w, TakeUp(id, n)))
  {
    var mem := w.process.mem;
    if Step(w, TakeUp(id, n)) != w {
      var t := Get(mem, id);
      var after := Step(w, TakeUp(id, n)).process.mem;
      assert TargetOk(id, t, w.sent);
      ClaimTarget(t, id, n, w.sent, w.process.current[id]);
      forall other
        ensures TargetOk(other, Get(after, other), w.sent) && Onward(Get(mem, other), Get(after, other))
        ensures Open(other, Get(mem, other), Get(after, other), [])
      {
        if other != id {
          assert Get(after, other) == Get(mem, other) && TargetOk(other, Get(mem, other), w.sent);
        }
      }
    }
  }

  lemma OutcomesOfCall(sent: seq<Sending>, s: Sending, id: TargetId, n: Notice, i: nat)
    ensures Outcomes(sent + [s], id, n, i) ==
            Outcomes(sent, id, n, i) +
            (if s.call.target == id && s.call.notice == n && s.call.incident == Some(i) then [s.call.outcome] else [])
  {
    assert (sent + [s])[..|sent|] == sent;
  }

  lemma SlotUntouched(id: TargetId, n: Notice, slot: Option<Mail>, sent: seq<Sending>, s: Sending)
    requires SlotOk(id, n, slot, sent)
    requires s.call.target != id || s.call.notice != n
    ensures SlotOk(id, n, slot, sent + [s])
  {
    forall i: nat ensures Outcomes(sent + [s], id, n, i) == Outcomes(sent, id, n, i) {
      OutcomesOfCall(sent, s, id, n, i);
    }
  }

  /** The mail whose claim this call answers, as it stays on disk and as it is in memory. */
  lemma SlotAnswered(t: Target, id: TargetId, n: Notice, sent: seq<Sending>, s: Sending, now: real)
    requires Armed(t, id, n, sent) && SlotOk(id, n, t.Slot(n), sent)
    requires s.call == MailCall(id, n, SlotNumber(t, n), s.call.outcome)
    ensures SlotOk(id, n, t.Slot(n), sent + [s])
    ensures SlotOk(id, n, Some(Settle(t.Slot(n).value, now, s.call.outcome)), sent + [s])
  {
    forall i: nat
      ensures Outcomes(sent + [s], id, n, i) ==
              Outcomes(sent, id, n, i) + (if s.call.incident == Some(i) then [s.call.outcome] else [])
    {
      OutcomesOfCall(sent, s, id, n, i);
    }
  }

  lemma TargetAnswered(t: Target, id: TargetId, n: Notice, sent: seq<Sending>, s: Sending, now: real, current: Status)
    requires Armed(t, id, n, sent) && TargetOk(id, t, sent)
    requires Justified(t.history, n, SlotNumber(t, n), current)
    requires s.call == MailCall(id, n, SlotNumber(t, n), s.call.outcome)
    ensures TargetOk(id, t, sent + [s])
    ensures TargetOk(id, t.Put(n, Settle(t.Slot(n).value, now, s.call.outcome)), sent + [s])
  {
    SlotAnswered(t, id, n, sent, s, now);
    if n == FailureNotice {
      SlotUntouched(id, RecoveryNotice, t.recovery, sent, s);
    } else {
      SlotUntouched(id, FailureNotice, t.failure, sent, s);
    }
  }

  lemma CallLog(w: World, s: Sending, t: Target, id: TargetId, n: Notice)
    requires LogOk(w.sent) && Armed(t, id, n, w.sent)
    requires s.call == MailCall(id, n, SlotNumber(t, n), s.call.outcome)
    requires Justified(s.history, n, s.call.incident, s.current)
    ensures LogOk(w.sent + [s])
  {
    forall who, m, i
      ensures |Outcomes(w.sent + [s], who, m, i)| <= 3 && NeverReplayed(Outcomes(w.sent + [s], who, m, i))
    {
      OutcomesOfCall(w.sent, s, who, m, i);
    }
  }

  lemma CallKeepsTargets(mem: Targets, id: TargetId, n: Notice, sent: seq<Sending>, s: Sending, now: real,
                         current: Status)
    requires StateOk(mem, sent) && Armed(Get(mem, id), id, n, sent)
    requires Justified(Get(mem, id).history, n, SlotNumber(Get(mem, id), n), current)
    requires s.call == MailCall(id, n, SlotNumber(Get(mem, id), n), s.call.outcome)
    ensures StateOk(mem, sent + [s])
    ensures var t := Get(mem, id);
            var after := mem[id := t.Put(n, Settle(t.Slot(n).value, now, s.call.outcome))];
            StateOk(after, sent + [s]) && OnwardAll(mem, after) && OpenAll(mem, after, [])
  {
    var t := Get(mem, id);
    var after := mem[id := t.Put(n, Settle(t.Slot(n).value, now, s.call.outcome))];
    assert TargetOk(id, t, sent);
    TargetAnswered(t, id, n, sent, s, now, current);
    forall other
      ensures TargetOk(other, Get(mem, other), sent + [s]) && TargetOk(other, Get(after, other), sent + [s])
    {
      if other != id {
        assert Get(after, other) == Get(mem, other);
        assert TargetOk(other, Get(mem, other), sent);
        SlotUntouched(other, FailureNotice, Get(mem, other).failure, sent, s);
        SlotUntouched(other, RecoveryNotice, Get(mem, other).recovery, sent, s);
      }
    }
    forall other
      ensures Onward(Get(mem, other), Get(after, other)) && Open(other, Get(mem, other), Get(after, other), [])
    {
      if other != id {
        assert Get(after, other) == Get(mem, other);
      }
    }
  }

  lemma CallKeeps(w: World, outcome: MailOutcome)
    requires Inv(w) && w.process.Calling?
    ensures Inv(Step(w, Call(outcome)))
  {
    var p := w.process;
    var t := Get(p.mem, p.id);
    var s := Sending(MailCall(p.id, p.notice, t.Slot(p.notice).value.incident, outcome), Get(w.disk, p.id).history,
                     p.current[p.id]);
    CallLog(w, s, t, p.id, p.notice);
    CallKeepsTargets(p.mem, p.id, p.notice, w.sent, s, p.now, p.current[p.id]);
    CallKeepsCurrent(p.mem, p.current, p.id, p.notice, p.now, outcome);
  }

  lemma CallKeepsCurrent(mem: Targets, current: map<TargetId, Status>, id: TargetId, n: Notice, now: real,
                         outcome: MailOutcome)
    requires CurrentOk(mem, current) && id in current && Get(mem, id).Slot(n).Some?
    requires n == RecoveryNotice ==> current[id] == Healthy
    ensures CurrentOk(mem[id := Get(mem, id).Put(n, Settle(Get(mem, id).Slot(n).value, now, outcome))], current)
  {
  }

  lemma StepKeeps(w: World, a: Action)
    requires Inv(w)
    ensures Inv(Step(w, a))
  {
    match (a, w.process)
    case (Collect(sources, samples, now, notify), Loaded(mem)) =>
      if Sampled(sources, samples) {
        CollectAllKeeps(w.disk, w.reserved, sources, samples, now, notify, w.sent);
      }
    case (TakeUp(id, n), Ready(_, _, _)) => TakeUpKeeps(w, id, n);
    case (Call(outcome), Calling(_, _, _, _, _)) => CallKeeps(w, outcome);
    case (Save, Claimed(mem, _, _, _, _)) => ReservedCarries(w.disk, mem, w.reserved);
    case (Save, Answered(mem, _, _)) => ReservedCarries(w.disk, mem, w.reserved);
    case _ =>
  }

  lemma {:induction false} AlwaysInv(actions: seq<Action>)
    ensures Inv(Exec(START, actions))
    decreases |actions|
  {
    if actions == [] {
      forall id ensures TargetOk(id, Get(START.disk, id), []) {}
    } else {
      AlwaysInv(actions[..|actions| - 1]);
      StepKeeps(Exec(START, actions[..|actions| - 1]), actions[|actions| - 1]);
    }
  }

  /** Whatever the samples, the notification setting, the answers of the transport and the
      crashes: a mail is tried at most three times and never again after a try that was not
      refused, and no record reserves a mail twice for one incident. */
  lemma MailIsSafe(actions: seq<Action>, id: TargetId, n: Notice, i: nat)
    ensures var w := Exec(START, actions);
            && |Outcomes(w.sent, id, n, i)| <= 3
            && (forall k | 0 <= k < |Outcomes(w.sent, id, n, i)| - 1 :: Outcomes(w.sent, id, n, i)[k] == Refused)
            && (forall j, k | 0 <= j < k < |w.reserved| :: w.reserved[j] != w.reserved[k])
  {
    AlwaysInv(actions);
  }

  /** The log misses nothing: a mail that a step leaves on disk continues the one that was there,
      withdrawn or tried further, or the step logged its reservation. */
  lemma NoMailUnlogged(actions: seq<Action>, a: Action, id: TargetId, n: Notice)
    ensures var w, after := Exec(START, actions), Step(Exec(START, actions), a);
            && w.reserved <= after.reserved
            && (Continues(Get(w.disk, id).Slot(n), Get(after.disk, id).Slot(n))
                || (Get(after.disk, id).Slot(n).Some?
                    && (id, Reservation(n, Get(after.disk, id).Slot(n).value.incident))
                       in after.reserved[|w.reserved|..]))
  {
    AlwaysInv(actions);
    var w := Exec(START, actions);
    match (a, w.process)
    case (Save, Collected(mem, _, _, booked)) =>
      assert Open(id, Get(w.disk, id), Get(mem, id), booked);
      assert Step(w, a).reserved[|w.reserved|..] == booked;
    case (Save, Claimed(mem, _, _, _, _)) => assert Open(id, Get(w.disk, id), Get(mem, id), []);
    case (Save, Answered(mem, _, _)) => assert Open(id, Get(w.disk, id), Get(mem, id), []);
    case _ => assert Step(w, a).disk == w.disk && Step(w, a).reserved == w.reserved;
  }

  /** A failure mail only goes out while its incident is open on disk; a recovery mail only in a
      run that found the record healthy, with that incident the last one closed and none open. */
  lemma MailIsTrueWhenSent(actions: seq<Action>, k: nat)
    requires k < |Exec(START, actions).sent|
    ensures var s := Exec(START, actions).sent[k];
            && s.call.incident.Some?
            && (s.call.notice == FailureNotice ==> s.history.incident == s.call.incident)
            && (s.call.notice == RecoveryNotice ==>
                  s.current == Healthy && s.history.incident == None && s.history.closedIncident == s.call.incident)
  {
    AlwaysInv(actions);
    assert Justified(Exec(START, actions).sent[k].history, Exec(START, actions).sent[k].call.notice,
                     Exec(START, actions).sent[k].call.incident, Exec(START, actions).sent[k].current);
  }

  /** A delivery that is not cut short is the claim, its write, the call and its write. */
  lemma DeliverIsFourSteps(w: World, id: TargetId, n: Notice, outcome: MailOutcome)
    requires w.process.Ready? && id in w.process.current && w.process.mem == w.disk
    requires Get(w.disk, id).Slot(n).Some? && Due(Get(w.disk, id).Slot(n).value, w.process.now)
    ensures var p := w.process;
            var d := Deliver(Delivered(p.mem, w.disk, []), id, n, p.now, outcome);
            var after := Step(Step(Step(Step(w, TakeUp(id, n)), Save), Call(outcome)), Save);
            && |d.calls| == 1
            && after == World(d.disk, Ready(d.targets, p.now, p.current),
                              w.sent + [Sending(d.calls[0], Get(w.disk, id).history, p.current[id])], w.reserved)
  {
    var p := w.process;
    var t := Get(p.mem, id);
    var mail := ServiceMonitor.Claim(t.Slot(n).value);
    var claimed := p.mem[id := t.Put(n, mail)];
    assert Get(claimed, id).Slot(n) == Some(mail);
    var settled := claimed[id := Get(claimed, id).Put(n, Settle(mail, p.now, outcome))];
    assert settled == p.mem[id := t.Put(n, Settle(mail, p.now, outcome))];
  }
}
