/**
 Failure mails and recovery mails of one incident: in what order they go out, and exactly when a
 recovery mail has a failure mail before it. scripts/service-health-monitor.py withdraws an unsent
 failure mail when its incident closes and reserves the recovery mail all the same.
 */
module MailOrder {
  import opened Prelude
  import opened IncidentTracking
  import opened ServiceMonitor
  import opened MailLedger

  type Claims = set<(TargetId, Notice, nat)>

  /** The claim that a crash hides in this world: written to disk, and not yet called. */
  function Hidden(w: World): Claims {
    if w.process.Calling? && SlotNumber(Get(w.disk, w.process.id), w.process.notice).Some? then
      {(w.process.id, w.process.notice, SlotNumber(Get(w.disk, w.process.id), w.process.notice).value)}
    else {}
  }

  /** Every claim a crash has kept from being called. */
  ghost function Lost(actions: seq<Action>): Claims
    decreases |actions|
  {
    if actions == [] then {}
    else
      var front := actions[..|actions| - 1];
      Lost(front) + (if actions[|actions| - 1] == Crash then Hidden(Exec(START, front)) else {})
  }

  // ----- What the attempts of a mail count -----

  function One(b: bool): nat {
    if b then 1 else 0
  }

  /** The attempts on record are the calls made, the claim a crash hid, and the claim about to be called. */
  ghost predicate SlotCounted(id: TargetId, n: Notice, slot: Option<Mail>, sent: seq<Sending>, lost: Claims, claimed: bool) {
    && (slot.Some? && slot.value.incident.Some? ==>
          var i := slot.value.incident.value; var hid := (id, n, i) in lost;
          && slot.value.attempts == |Outcomes(sent, id, n, i)| + One(hid) + One(claimed)
          && (hid ==> !Pending(slot.value) && !claimed))
    && forall i: nat | (id, n, i) in lost ::
         slot.Some? && slot.value.incident.Some? && i <= slot.value.incident.value
  }

  ghost predicate Counted(targets: Targets, sent: seq<Sending>, lost: Claims, claim: Option<(TargetId, Notice)>) {
    forall id, n :: SlotCounted(id, n, Get(targets, id).Slot(n), sent, lost, claim == Some((id, n)))
  }

  ghost predicate WorldCounted(w: World, lost: Claims) {
    match w.process
    case Collected(mem, _, _, _) => Counted(w.disk, w.sent, lost, None) && Counted(mem, w.sent, lost, None)
    case Claimed(mem, _, _, id, n) => Counted(w.disk, w.sent, lost, None) && Counted(mem, w.sent, lost, Some((id, n)))
    case Calling(_, _, _, id, n) => Counted(w.disk, w.sent, lost, Some((id, n)))
    case Answered(mem, _, _) => Counted(w.disk, w.sent, lost, None) && Counted(mem, w.sent, lost, None)
    case _ => Counted(w.disk, w.sent, lost, None)
  }

  // ----- Every step keeps it -----

  lemma CollectTargetCounted(id: TargetId, p: Policy, t: Target, status: Status, at: real, interrupt: bool,
                             notify: bool, sent: seq<Sending>, lost: Claims, n: Notice)
    requires TargetOk(id, t, sent) && SlotCounted(id, n, t.Slot(n), sent, lost, false)
    ensures SlotCounted(id, n, CollectTarget(p, t, status, at, interrupt, notify).0.Slot(n), sent, lost, false)
  {
    SlotsChangeOpenly(p, t, status, at, interrupt, notify, n);
    CollectTargetKeeps(id, p, t, status, at, interrupt, notify, sent);
    var (after, event, reserved) := CollectTarget(p, t, status, at, interrupt, notify);
    if after.Slot(n) != t.Slot(n) && after.Slot(n) != Withdraw(t.Slot(n), true) {
      FreshCounted(id, n, t.Slot(n), after.Slot(n).value, sent, lost);
    }
  }

  lemma FreshCounted(id: TargetId, n: Notice, slot: Option<Mail>, m: Mail, sent: seq<Sending>, lost: Claims)
    requires SlotOk(id, n, slot, sent) && SlotCounted(id, n, slot, sent, lost, false)
    requires m.attempts == 0 && m.incident.Some?
    requires slot.Some? && slot.value.incident.Some? ==> slot.value.incident.value < m.incident.value
    ensures SlotCounted(id, n, Some(m), sent, lost, false)
  {
  }

  lemma CollectIntoCounted(c: Collection, id: TargetId, p: Policy, status: Status, at: real, interrupt: bool,
                           notify: bool, sent: seq<Sending>, lost: Claims)
    requires StateOk(c.targets, sent) && Counted(c.targets, sent, lost, None)
    ensures Counted(CollectInto(c, id, p, status, at, interrupt, notify).targets, sent, lost, None)
  {
    var after := CollectInto(c, id, p, status, at, interrupt, notify).targets;
    forall other, n ensures SlotCounted(other, n, Get(after, other).Slot(n), sent, lost, false) {
      assert SlotCounted(other, n, Get(c.targets, other).Slot(n), sent, lost, false);
      if other == id {
        assert TargetOk(id, Get(c.targets, id), sent);
        CollectTargetCounted(id, p, Get(c.targets, id), status, at, interrupt, notify, sent, lost, n);
      }
    }
  }

  lemma {:induction false} CollectAllCounted(disk: Targets, log: Bookings, sources: seq<Source>,
                                             samples: map<string, Observation>, now: real, notify: bool,
                                             sent: seq<Sending>, lost: Claims)
    requires Sampled(sources, samples) && StateOk(disk, sent) && ReservedOk(disk, log) && Counted(disk, sent, lost, None)
    ensures Counted(CollectAll(sources, samples, now, notify, Collection(disk, [])).targets, sent, lost, None)
  {
    if sources != [] {
      var front, last := sources[..|sources| - 1], sources[|sources| - 1];
      CollectAllCounted(disk, log, front, samples, now, notify, sent, lost);
      CollectAllKeeps(disk, log, front, samples, now, notify, sent);
      var c := CollectAll(front, samples, now, notify, Collection(disk, []));
      var o := samples[last.name];
      var suppressed := SuppressedBy(last, samples);
      CollectIntoCounted(c, Service(last.name), last.policy, o.status, o.at, o.status == ObserverError, notify, sent, lost);
      CollectIntoKeeps(disk, log, c, Statuses(front, samples), Service(last.name), last.policy, o.status, o.at,
                       o.status == ObserverError, notify, sent);
      CollectIntoCounted(
        CollectInto(c, Service(last.name), last.policy, o.status, o.at, o.status == ObserverError, notify),
        Observer(last.name), OBSERVER_POLICY, ObserverStatus(o.status, suppressed), now, suppressed,
        notify && !suppressed, sent, lost);
    }
  }

  lemma ClaimedSlot(id: TargetId, n: Notice, m: Mail, sent: seq<Sending>, lost: Claims)
    requires SlotCounted(id, n, Some(m), sent, lost, false) && Pending(m)
    ensures SlotCounted(id, n, Some(ServiceMonitor.Claim(m)), sent, lost, true)
  {
  }

  lemma ClaimedAll(disk: Targets, sent: seq<Sending>, lost: Claims, id: TargetId, n: Notice)
    requires Counted(disk, sent, lost, None)
    requires Get(disk, id).Slot(n).Some? && Pending(Get(disk, id).Slot(n).value)
    ensures var t := Get(disk, id);
            Counted(disk[id := t.Put(n, ServiceMonitor.Claim(t.Slot(n).value))], sent, lost, Some((id, n)))
  {
    var t := Get(disk, id);
    var after := disk[id := t.Put(n, ServiceMonitor.Claim(t.Slot(n).value))];
    forall other, k
      ensures SlotCounted(other, k, Get(after, other).Slot(k), sent, lost, Some((id, n)) == Some((other, k)))
    {
      assert SlotCounted(other, k, Get(disk, other).Slot(k), sent, lost, false);
      if other == id && k == n {
        ClaimedSlot(id, n, t.Slot(n).value, sent, lost);
      }
    }
  }

  lemma TakeUpCounted(w: World, lost: Claims, id: TargetId, n: Notice)
    requires w.process.Ready? && w.process.mem == w.disk && WorldCounted(w, lost)
    ensures WorldCounted(Step(w, TakeUp(id, n)), lost)
  {
    if Step(w, TakeUp(id, n)) != w {
      ClaimedAll(w.disk, w.sent, lost, id, n);
    }
  }

  /** One slot when the claimed mail is called: the call takes the place of the claim. */
  lemma CalledSlot(id: TargetId, n: Notice, slot: Option<Mail>, sent: seq<Sending>, lost: Claims, s: Sending)
    requires SlotCounted(id, n, slot, sent, lost, (id, n) == (s.call.target, s.call.notice))
    requires (id, n) == (s.call.target, s.call.notice) ==>
               slot.Some? && slot.value.incident.Some? && s.call.incident == slot.value.incident
    ensures SlotCounted(id, n, slot, sent + [s], lost, false)
  {
    if slot.Some? && slot.value.incident.Some? {
      OutcomesOfCall(sent, s, id, n, slot.value.incident.value);
    }
  }

  lemma SettledSlot(id: TargetId, n: Notice, m: Mail, sent: seq<Sending>, lost: Claims, now: real, outcome: MailOutcome)
    requires SlotCounted(id, n, Some(m), sent, lost, false) && m.incident.Some? && (id, n, m.incident.value) !in lost
    ensures SlotCounted(id, n, Some(Settle(m, now, outcome)), sent, lost, false)
  {
  }

  lemma CallCounted(w: World, lost: Claims, outcome: MailOutcome)
    requires Inv(w) && WorldCounted(w, lost) && w.process.Calling?
    ensures WorldCounted(Step(w, Call(outcome)), lost)
  {
    var p := w.process;
    var t := Get(w.disk, p.id);
    var m := t.Slot(p.notice).value;
    var s := Sending(MailCall(p.id, p.notice, m.incident, outcome), t.history, p.current[p.id]);
    var mem := w.disk[p.id := t.Put(p.notice, Settle(m, p.now, outcome))];
    assert Step(w, Call(outcome)) == w.(sent := w.sent + [s], process := Answered(mem, p.now, p.current));
    assert SlotCounted(p.id, p.notice, t.Slot(p.notice), w.sent, lost, true);
    CalledAll(w.disk, w.sent, lost, s);
    SettledAll(w.disk, w.sent + [s], lost, p.id, p.notice, p.now, outcome);
  }

  lemma CalledAll(disk: Targets, sent: seq<Sending>, lost: Claims, s: Sending)
    requires Counted(disk, sent, lost, Some((s.call.target, s.call.notice)))
    requires var slot := Get(disk, s.call.target).Slot(s.call.notice);
             slot.Some? && slot.value.incident.Some? && s.call.incident == slot.value.incident
    ensures Counted(disk, sent + [s], lost, None)
  {
    forall id, n ensures SlotCounted(id, n, Get(disk, id).Slot(n), sent + [s], lost, false) {
      assert SlotCounted(id, n, Get(disk, id).Slot(n), sent, lost, Some((s.call.target, s.call.notice)) == Some((id, n)));
      CalledSlot(id, n, Get(disk, id).Slot(n), sent, lost, s);
    }
  }

  lemma SettledAll(disk: Targets, sent: seq<Sending>, lost: Claims, id: TargetId, n: Notice, now: real,
                   outcome: MailOutcome)
    requires Counted(disk, sent, lost, None) && Get(disk, id).Slot(n).Some?
    requires var i := SlotNumber(Get(disk, id), n); i.Some? && (id, n, i.value) !in lost
    ensures var t := Get(disk, id);
            Counted(disk[id := t.Put(n, Settle(t.Slot(n).value, now, outcome))], sent, lost, None)
  {
    var t := Get(disk, id);
    var after := disk[id := t.Put(n, Settle(t.Slot(n).value, now, outcome))];
    forall other, k ensures SlotCounted(other, k, Get(after, other).Slot(k), sent, lost, false) {
      assert SlotCounted(other, k, Get(disk, other).Slot(k), sent, lost, false);
      if other == id && k == n {
        SettledSlot(id, n, t.Slot(n).value, sent, lost, now, outcome);
      }
    }
  }

  lemma HiddenSlot(id: TargetId, n: Notice, slot: Option<Mail>, sent: seq<Sending>, lost: Claims,
                   who: (TargetId, Notice), i: nat)
    requires SlotCounted(id, n, slot, sent, lost, (id, n) == who)
    requires (id, n) == who ==> slot.Some? && slot.value.incident == Some(i) && !Pending(slot.value)
    ensures SlotCounted(id, n, slot, sent, lost + {(who.0, who.1, i)}, false)
  {
  }

  lemma HiddenAll(disk: Targets, sent: seq<Sending>, lost: Claims, id: TargetId, n: Notice, i: nat)
    requires Counted(disk, sent, lost, Some((id, n)))
    requires var slot := Get(disk, id).Slot(n);
             slot.Some? && slot.value.incident == Some(i) && !Pending(slot.value)
    ensures Counted(disk, sent, lost + {(id, n, i)}, None)
  {
    forall other, k ensures SlotCounted(other, k, Get(disk, other).Slot(k), sent, lost + {(id, n, i)}, false) {
      assert SlotCounted(other, k, Get(disk, other).Slot(k), sent, lost, Some((id, n)) == Some((other, k)));
      HiddenSlot(other, k, Get(disk, other).Slot(k), sent, lost, (id, n), i);
    }
  }

  lemma CalledIsArmed(w: World)
    requires Inv(w) && w.process.Calling?
    ensures var slot := Get(w.disk, w.process.id).Slot(w.process.notice);
            slot.Some? && slot.value.incident.Some? && !Pending(slot.value)
  {
    assert Armed(Get(w.disk, w.process.id), w.process.id, w.process.notice, w.sent);
  }

  lemma CrashCounted(w: World, lost: Claims)
    requires WorldCounted(w, lost)
    requires w.process.Calling? ==>
               var slot := Get(w.disk, w.process.id).Slot(w.process.notice);
               slot.Some? && slot.value.incident.Some? && !Pending(slot.value)
    ensures WorldCounted(Step(w, Crash), lost + Hidden(w))
  {
    if w.process.Calling? {
      var p := w.process;
      HiddenAll(w.disk, w.sent, lost, p.id, p.notice, SlotNumber(Get(w.disk, p.id), p.notice).value);
    } else {
      assert lost + Hidden(w) == lost;
    }
  }

  lemma StepCounted(w: World, lost: Claims, a: Action)
    requires Inv(w) && WorldCounted(w, lost)
    ensures WorldCounted(Step(w, a), lost + (if a == Crash then Hidden(w) else {}))
  {
    assert lost + {} == lost;
    match (a, w.process)
    case (Crash, _) =>
      if w.process.Calling? {
        CalledIsArmed(w);
      }
      CrashCounted(w, lost);
    case (Collect(sources, samples, now, notify), Loaded(_)) =>
      if Sampled(sources, samples) {
        CollectAllCounted(w.disk, w.reserved, sources, samples, now, notify, w.sent, lost);
      }
    case (TakeUp(id, n), Ready(_, _, _)) => TakeUpCounted(w, lost, id, n);
    case (Call(outcome), Calling(_, _, _, _, _)) => CallCounted(w, lost, outcome);
    case _ =>
  }

  lemma {:induction false} AlwaysCounted(actions: seq<Action>)
    ensures WorldCounted(Exec(START, actions), Lost(actions))
    decreases |actions|
  {
    if actions != [] {
      var front := actions[..|actions| - 1];
      AlwaysCounted(front);
      AlwaysInv(front);
      StepCounted(Exec(START, front), Lost(front), actions[|actions| - 1]);
    }
  }

  // ----- Which mail comes first -----

  ghost predicate WasCalled(sent: seq<Sending>, id: TargetId, n: Notice, i: nat) {
    exists k | 0 <= k < |sent| :: sent[k].call.target == id && sent[k].call.notice == n && sent[k].call.incident == Some(i)
  }

  lemma {:induction false} CalledHasOutcome(sent: seq<Sending>, id: TargetId, n: Notice, i: nat)
    ensures WasCalled(sent, id, n, i) <==> Outcomes(sent, id, n, i) != []
  {
    if sent != [] {
      var front, last := sent[..|sent| - 1], sent[|sent| - 1];
      CalledHasOutcome(front, id, n, i);
      assert sent == front + [last];
      if WasCalled(front, id, n, i) {
        var k :| 0 <= k < |front| && front[k].call.target == id && front[k].call.notice == n
                 && front[k].call.incident == Some(i);
        assert sent[k] == front[k];
      }
    }
  }

  /** A failure mail is never called once the recovery mail of its incident has been. */
  lemma FailureComesFirst(actions: seq<Action>)
    requires Exec(START, actions).process.Calling? && Exec(START, actions).process.notice == FailureNotice
    ensures var w := Exec(START, actions);
            var i := SlotNumber(Get(w.disk, w.process.id), FailureNotice);
            i.Some? && !WasCalled(w.sent, w.process.id, RecoveryNotice, i.value)
  {
    AlwaysInv(actions);
    var w := Exec(START, actions);
    var t := Get(w.disk, w.process.id);
    assert TargetOk(w.process.id, t, w.sent);
    CalledHasOutcome(w.sent, w.process.id, RecoveryNotice, SlotNumber(t, FailureNotice).value);
  }

  /** When a recovery mail is about to be called, the failure mail of its incident has been called
      before exactly when it is the one on record and has been claimed more often than a crash hid. */
  lemma RecoveryFollowsFailure(actions: seq<Action>)
    requires Exec(START, actions).process.Calling? && Exec(START, actions).process.notice == RecoveryNotice
    ensures var w := Exec(START, actions);
            var id := w.process.id; var t := Get(w.disk, id);
            var i := SlotNumber(t, RecoveryNotice);
            && i.Some?
            && (WasCalled(w.sent, id, FailureNotice, i.value) <==>
                && t.failure.Some? && t.failure.value.incident == i
                && t.failure.value.attempts > One((id, FailureNotice, i.value) in Lost(actions)))
  {
    AlwaysInv(actions);
    AlwaysCounted(actions);
    var w := Exec(START, actions);
    var id := w.process.id;
    var t := Get(w.disk, id);
    assert TargetOk(id, t, w.sent);
    assert SlotCounted(id, FailureNotice, t.Slot(FailureNotice), w.sent, Lost(actions), false);
    CalledHasOutcome(w.sent, id, FailureNotice, SlotNumber(t, RecoveryNotice).value);
  }

  // ----- A recovery mail without a failure mail -----

  const SOURCE := Source("s", Policy(1, 100.0, 1, 0.0), None)

  function Sampling(status: Status, at: real): map<string, Observation> {
    map["s" := Observation(status, at, false)]
  }

  /** One run up to where its collection is on disk. */
  function CollectAt(status: Status, at: real): seq<Action> {
    [Begin, Collect([SOURCE], Sampling(status, at), at, true), Save]
  }

  /** The incident opens and the run ends before it delivers; the next run sees the recovery. */
  const SILENT := CollectAt(Failed, 1.0) + ([Crash] + (CollectAt(Healthy, 2.0) + CLAIM))
  const CLAIM: seq<Action> := [TakeUp(Service("s"), RecoveryNotice), Save]

  ghost function Do(w: World, actions: seq<Action>): World
    decreases |actions|
  {
    if actions == [] then w else Do(Step(w, actions[0]), actions[1..])
  }

  lemma {:induction false} DoIsExec(before: seq<Action>, actions: seq<Action>)
    ensures Exec(START, before + actions) == Do(Exec(START, before), actions)
    decreases |actions|
  {
    if actions == [] {
      assert before + actions == before;
    } else {
      DoIsExec(before + [actions[0]], actions[1..]);
      assert before + [actions[0]] + actions[1..] == before + actions;
      assert (before + [actions[0]])[..|before|] == before;
    }
  }

  lemma {:induction false} DoApart(w: World, a: seq<Action>, b: seq<Action>)
    ensures Do(w, a + b) == Do(Do(w, a), b)
    decreases |a|
  {
    if a == [] {
      assert a + b == b;
    } else {
      assert (a + b)[1..] == a[1..] + b;
      DoApart(Step(w, a[0]), a[1..], b);
    }
  }

  lemma CollectSteps(w: World, status: Status, at: real)
    requires w.process.Down? && Sampled([SOURCE], Sampling(status, at))
    ensures var c := CollectAll([SOURCE], Sampling(status, at), at, true, Collection(w.disk, []));
            Do(w, CollectAt(status, at)) ==
            World(c.targets, Ready(c.targets, at, Statuses([SOURCE], Sampling(status, at))), w.sent, w.reserved + c.bookings)
  {
    var a := CollectAt(status, at);
    var loaded := Step(w, Begin);
    assert a[1..] == [a[1], Save] && a[1..][1..] == [Save] && [Save][1..] == [];
    assert Do(w, a) == Do(loaded, a[1..]);
    assert Do(loaded, a[1..]) == Do(Step(loaded, a[1]), [Save]);
  }

  lemma CollectedAt(w: World, status: Status, at: real)
    requires w.process.Down? && status in {Healthy, Failed} && at >= 0.0
    ensures var after := Do(w, CollectAt(status, at));
            var t := CollectTarget(SOURCE.policy, Get(w.disk, Service("s")), status, at, false, true);
            && after.process.Ready? && after.process.mem == after.disk && after.process.now == at
            && Service("s") in after.process.current && after.sent == w.sent
            && Get(after.disk, Service("s")) == t.0
            && w.reserved <= after.reserved
            && (forall r | r in t.2 :: (Service("s"), r) in after.reserved)
  {
    OneSource(w.disk, status, at);
    CollectSteps(w, status, at);
  }

  lemma OneSource(disk: Targets, status: Status, at: real)
    requires status in {Healthy, Failed} && at >= 0.0
    ensures Sampled([SOURCE], Sampling(status, at))
    ensures var c := CollectAll([SOURCE], Sampling(status, at), at, true, Collection(disk, []));
            var t := CollectTarget(SOURCE.policy, Get(disk, Service("s")), status, at, false, true);
            && Get(c.targets, Service("s")) == t.0 && (forall r | r in t.2 :: (Service("s"), r) in c.bookings)
            && Service("s") in Statuses([SOURCE], Sampling(status, at))
  {
    var samples := Sampling(status, at);
    var reserved := CollectTarget(SOURCE.policy, Get(disk, Service("s")), status, at, false, true).2;
    assert [SOURCE][..0] == [];
    var c := CollectOne(SOURCE, samples, at, true, Collection(disk, []));
    assert CollectAll([SOURCE], samples, at, true, Collection(disk, [])) == c;
    forall r | r in reserved ensures (Service("s"), r) in c.bookings {
      var i :| 0 <= i < |reserved| && reserved[i] == r;
      assert ([] + BookedFor(Service("s"), reserved))[i] == (Service("s"), r);
      assert c.bookings[i] == (Service("s"), r);
    }
  }

  /** What the two collections make of the record. */
  lemma FailThenRecover()
    ensures var first := CollectTarget(SOURCE.policy, FRESH_TARGET, Failed, 1.0, false, true);
            var second := CollectTarget(SOURCE.policy, first.0, Healthy, 2.0, false, true);
            && first.2 == [Reservation(FailureNotice, Some(1))]
            && second.0.failure == Some(Mail(Some(1), 0, Superseded, 0.0))
            && second.0.recovery == Some(Mail(Some(1), 0, New, 0.0))
  {
  }

  lemma DoOne(w: World, a: Action, more: seq<Action>)
    ensures Do(w, [a] + more) == Do(Step(w, a), more)
  {
    assert ([a] + more)[1..] == more;
  }

  lemma DoClaim(w: World)
    ensures Do(w, CLAIM) == Step(Step(w, TakeUp(Service("s"), RecoveryNotice)), Save)
  {
    assert CLAIM[1..] == [Save] && CLAIM[1..][1..] == [];
  }

  lemma RunsOfSilence()
    ensures var after := Do(Step(Do(START, CollectAt(Failed, 1.0)), Crash), CollectAt(Healthy, 2.0));
            Exec(START, SILENT) == Step(Step(after, TakeUp(Service("s"), RecoveryNotice)), Save)
  {
    var a, b := CollectAt(Failed, 1.0), CollectAt(Healthy, 2.0);
    DoIsExec([], SILENT);
    assert [] + SILENT == SILENT;
    DoApart(START, a, [Crash] + (b + CLAIM));
    DoOne(Do(START, a), Crash, b + CLAIM);
    var down := Step(Do(START, a), Crash);
    DoApart(down, b, CLAIM);
    DoClaim(Do(down, b));
  }

  lemma ClaimedOnDisk(w: World, id: TargetId, i: nat)
    requires w.process.Ready? && w.process.mem == w.disk && w.process.now >= 0.0 && id in w.process.current
    requires Get(w.disk, id).recovery == Some(Mail(Some(i), 0, New, 0.0))
    ensures var after := Step(Step(w, TakeUp(id, RecoveryNotice)), Save);
            && after.process.Calling? && after.process.id == id && after.process.notice == RecoveryNotice
            && SlotNumber(Get(after.disk, id), RecoveryNotice) == Some(i)
            && after.sent == w.sent && after.reserved == w.reserved
  {
  }

  function FailedOnce(): Target {
    CollectTarget(SOURCE.policy, FRESH_TARGET, Failed, 1.0, false, true).0
  }

  lemma FailureReserves()
    ensures Reservation(FailureNotice, Some(1)) in CollectTarget(SOURCE.policy, FRESH_TARGET, Failed, 1.0, false, true).2
  {
    FailThenRecover();
  }

  lemma AfterFailure(w: World)
    requires w.process.Down? && Get(w.disk, Service("s")) == FRESH_TARGET
    ensures var down := Step(Do(w, CollectAt(Failed, 1.0)), Crash); var id := Service("s");
            && down.process.Down? && down.sent == w.sent && Get(down.disk, id) == FailedOnce()
            && (id, Reservation(FailureNotice, Some(1))) in down.reserved
  {
    FailureReserves();
    CollectedAt(w, Failed, 1.0);
  }

  lemma AfterRecovery(w: World)
    requires w.process.Down? && Get(w.disk, Service("s")) == FailedOnce()
    ensures var after := Step(Step(Do(w, CollectAt(Healthy, 2.0)), TakeUp(Service("s"), RecoveryNotice)), Save);
            var id := Service("s");
            && after.process.Calling? && after.process.id == id && after.process.notice == RecoveryNotice
            && SlotNumber(Get(after.disk, id), RecoveryNotice) == Some(1)
            && after.sent == w.sent && w.reserved <= after.reserved
  {
    FailThenRecover();
    CollectedAt(w, Healthy, 2.0);
    ClaimedOnDisk(Do(w, CollectAt(Healthy, 2.0)), Service("s"), 1);
  }

  /** A recovery mail about to be called, of an incident whose failure mail was reserved and never called. */
  lemma RecoveryOfSilence()
    ensures var w := Exec(START, SILENT); var id := Service("s");
            && w.process.Calling? && w.process.id == id && w.process.notice == RecoveryNotice
            && SlotNumber(Get(w.disk, id), RecoveryNotice) == Some(1)
            && (id, Reservation(FailureNotice, Some(1))) in w.reserved && !WasCalled(w.sent, id, FailureNotice, 1)
  {
    RunsOfSilence();
    AfterFailure(START);
    AfterRecovery(Step(Do(START, CollectAt(Failed, 1.0)), Crash));
  }
}
