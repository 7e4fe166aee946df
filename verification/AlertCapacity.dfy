/**
 The bound of the outbox (the check of MAX_OUTBOX in `run` of scripts/discord-ops-alerts.py):
 exactly when a run may start, what stays stored for ever, and what becomes of the program once a
 full outbox holds nothing but messages that can be neither sent nor withdrawn.
 */
module AlertCapacity {
  import opened Prelude
  import opened AlertOutbox
  import opened AlertDispatch
  import opened AlertSafety

  /** Its outcome is unknown or it was refused for good: it is never sent, withdrawn or dropped. */
  predicate Dead(x: Item) {
    x.delivery == Uncertain || x.delivery == Rejected
  }

  // ----- When a run starts -----

  /** How many messages one poll adds. */
  function Adds(s: State, p: Poll): nat
    requires PollOk(p)
  {
    match p
    case Nothing => 0
    case ServicePoll(key, r) =>
      if At(s, key).Some? && Regressed(At(s, key).value, r) then 0
      else if EventDue(At(s, key), ReviewAll(s.outbox, key, r), key, r) then 1 else 0
    case PlainPoll(key, level) =>
      if level == Unknown || (At(s, key).None? && level == Normal)
         || (At(s, key).Some? && At(s, key).value.status == level) then 0 else 1
  }

  function AddsAll(s: State, polls: seq<Poll>, now: real): nat
    requires PollsOk(polls)
  {
    if polls == [] then 0
    else
      var front := polls[..|polls| - 1];
      AddsAll(s, front, now) + Adds(PollAll(s, front, now), polls[|polls| - 1])
  }

  function NewMessages(disk: State, now: real, test: bool, polls: seq<Poll>): nat
    requires PollsOk(polls)
  {
    if test then (if disk.testQueued then 0 else 1) else AddsAll(Trim(disk), polls, now)
  }

  function Count(outbox: seq<Item>, completed: bool): nat {
    |Filter(outbox, completed)|
  }

  lemma {:induction false} PollAllAdds(s: State, polls: seq<Poll>, now: real)
    requires PollsOk(polls)
    ensures |PollAll(s, polls, now).outbox| == |s.outbox| + AddsAll(s, polls, now)
  {
    if polls != [] {
      PollAllAdds(s, polls[..|polls| - 1], now);
    }
  }

  lemma PreparedAdds(disk: State, now: real, test: bool, polls: seq<Poll>)
    requires PollsOk(polls)
    ensures |Prepared(disk, now, test, polls).outbox| == |Trim(disk).outbox| + NewMessages(disk, now, test, polls)
  {
    if !test {
      PollAllAdds(Trim(disk), polls, now);
    }
  }

  /** A run starts exactly when the clock has not gone back and the unresolved messages, the newest
      hundred resolved ones and the new ones fit; otherwise nothing changes at all. */
  lemma StartsExactly(w: World, now: real, test: bool, active: set<string>, polls: seq<Poll>)
    requires w.process.Down? && PollsOk(polls)
    ensures var after := Begin(w, now, test, active, polls);
            var resolved := Count(w.disk.outbox, true);
            && (after.process.Up? <==>
                  && now + 1.0 >= w.disk.lastRun
                  && Count(w.disk.outbox, false) + (if resolved <= 100 then resolved else 100)
                     + NewMessages(w.disk, now, test, polls) <= 1000)
            && (after.process.Down? ==> after == w)
  {
    PreparedAdds(w.disk, now, test, polls);
  }

  // ----- The outbox never outgrows its bound -----

  ghost predicate Fits(w: World) {
    |w.disk.outbox| <= MAX_OUTBOX && (w.process.Up? ==> |w.process.mem.outbox| <= MAX_OUTBOX)
  }

  lemma TickFits(w: World, reply: Reply)
    requires Fits(w)
    ensures Fits(Tick(w, reply))
  {
  }

  lemma {:induction false} OutboxFits(actions: seq<Action>)
    ensures Fits(Exec(START, actions))
    decreases |actions|
  {
    if actions != [] {
      var front, a := actions[..|actions| - 1], actions[|actions| - 1];
      OutboxFits(front);
      if a.Next? {
        TickFits(Exec(START, front), a.reply);
      }
    }
  }

  // ----- What is dead stays -----

  ghost predicate Holds(w: World, x: Item) {
    x in w.disk.outbox && (w.process.Up? ==> x in w.process.mem.outbox)
  }

  lemma PollKeepsDead(s: State, p: Poll, now: real)
    requires PollOk(p)
    ensures |s.outbox| <= |PollOne(s, p, now).outbox|
    ensures forall i | 0 <= i < |s.outbox| && Dead(s.outbox[i]) :: PollOne(s, p, now).outbox[i] == s.outbox[i]
  {
  }

  lemma {:induction false} PollAllKeepsDead(s: State, polls: seq<Poll>, now: real)
    requires PollsOk(polls)
    ensures |s.outbox| <= |PollAll(s, polls, now).outbox|
    ensures forall i | 0 <= i < |s.outbox| && Dead(s.outbox[i]) :: PollAll(s, polls, now).outbox[i] == s.outbox[i]
  {
    if polls != [] {
      PollAllKeepsDead(s, polls[..|polls| - 1], now);
      PollKeepsDead(PollAll(s, polls[..|polls| - 1], now), polls[|polls| - 1], now);
    }
  }

  lemma PreparedKeepsDead(disk: State, now: real, test: bool, polls: seq<Poll>)
    requires PollsOk(polls)
    ensures var before, after := Trim(disk).outbox, Prepared(disk, now, test, polls).outbox;
            && |before| <= |after| && forall i | 0 <= i < |before| && Dead(before[i]) :: after[i] == before[i]
  {
    if !test {
      PollAllKeepsDead(Trim(disk), polls, now);
    }
  }

  lemma PreparedHolds(disk: State, now: real, test: bool, polls: seq<Poll>, x: Item)
    requires PollsOk(polls) && x in disk.outbox && Dead(x)
    ensures x in Prepared(disk, now, test, polls).outbox
  {
    TrimKeeps(disk);
    var before := Trim(disk).outbox;
    var i :| 0 <= i < |before| && before[i] == x;
    PreparedKeepsDead(disk, now, test, polls);
    assert Prepared(disk, now, test, polls).outbox[i] == x;
  }

  lemma PutHolds(outbox: seq<Item>, i: nat, next: Item, x: Item)
    requires i < |outbox| && x in outbox && outbox[i] != x
    ensures x in outbox[i := next]
  {
    var k :| 0 <= k < |outbox| && outbox[k] == x;
    assert outbox[i := next][k] == x;
  }

  lemma ScanHolds(w: World, i: nat, tried: nat, x: Item)
    requires Holds(w, x) && Dead(x) && w.process.Up? && w.process.at == Scan(i, tried)
    ensures Holds(ScanStep(w, i, tried), x)
  {
    var outbox := w.process.mem.outbox;
    if i < |outbox| && outbox[i].delivery == Waiting {
      PutHolds(outbox, i, outbox[i].(delivery := Rejected), x);
      PutHolds(outbox, i, AlertOutbox.Claim(outbox[i]), x);
    }
  }

  lemma CallHolds(w: World, i: nat, tried: nat, reply: Reply, x: Item)
    requires Holds(w, x) && Dead(x) && w.process.Up? && w.process.at == Calling(i, tried)
    requires i < |w.process.mem.outbox| && w.process.mem.outbox[i].delivery == Attempted
    ensures Holds(CallStep(w, i, tried, reply), x)
  {
    var outbox := w.process.mem.outbox;
    if outbox[i].attempts >= 1 {
      PutHolds(outbox, i, Answer(outbox[i], w.process.mode.now, reply), x);
    }
  }

  lemma CalledIsAttempted(w: World)
    requires Inv(w) && w.process.Up? && w.process.at.Calling?
    ensures var i := w.process.at.i;
            i < |w.process.mem.outbox| && w.process.mem.outbox[i].delivery == Attempted
  {
  }

  lemma TickHolds(w: World, reply: Reply, x: Item)
    requires Holds(w, x) && Dead(x)
    requires w.process.Up? && w.process.at.Calling? ==>
               w.process.at.i < |w.process.mem.outbox| && w.process.mem.outbox[w.process.at.i].delivery == Attempted
    ensures Holds(Tick(w, reply), x)
  {
    if w.process.Up? {
      match w.process.at
      case Sweep(i) =>
        var outbox := w.process.mem.outbox;
        if i < |outbox| && outbox[i].delivery == Attempted {
          PutHolds(outbox, i, outbox[i].(delivery := Uncertain), x);
        }
      case Scan(i, tried) => ScanHolds(w, i, tried, x);
      case Calling(i, tried) => CallHolds(w, i, tried, reply, x);
      case _ =>
    }
  }

  lemma StepHolds(w: World, a: Action, x: Item)
    requires Inv(w) && Holds(w, x) && Dead(x)
    ensures Holds(Step(w, a), x)
  {
    match a
    case Start(now, test, active, polls) =>
      if PollsOk(polls) {
        PreparedHolds(w.disk, now, test, polls, x);
      }
    case Next(reply) =>
      if w.process.Up? && w.process.at.Calling? {
        CalledIsAttempted(w);
      }
      TickHolds(w, reply, x);
    case Crash =>
  }

  lemma {:induction false} ExecKeepsInv(w: World, more: seq<Action>)
    requires Inv(w)
    ensures Inv(Exec(w, more))
    decreases |more|
  {
    if more != [] {
      ExecKeepsInv(w, more[..|more| - 1]);
      StepKeeps(Exec(w, more[..|more| - 1]), more[|more| - 1]);
    }
  }

  lemma {:induction false} HoldsOn(w: World, more: seq<Action>, x: Item)
    requires Inv(w) && Holds(w, x) && Dead(x)
    ensures Holds(Exec(w, more), x)
    decreases |more|
  {
    if more != [] {
      var front := more[..|more| - 1];
      HoldsOn(w, front, x);
      ExecKeepsInv(w, front);
      StepHolds(Exec(w, front), more[|more| - 1], x);
    }
  }

  /** A stored message with an unknown or final outcome is stored for ever, exactly as it is. */
  lemma DeadStays(actions: seq<Action>, more: seq<Action>, x: Item)
    requires Exec(START, actions).process.Down?
    requires x in Exec(START, actions).disk.outbox && Dead(x)
    ensures x in Exec(Exec(START, actions), more).disk.outbox
  {
    AlwaysInv(actions);
    HoldsOn(Exec(START, actions), more, x);
  }

  // ----- A full outbox of dead messages -----

  ghost predicate AllDead(outbox: seq<Item>) {
    forall i | 0 <= i < |outbox| :: Dead(outbox[i])
  }

  /** Nothing can move: the outbox in memory is the one on disk, and no message is in hand. */
  ghost predicate Stuck(w: World, outbox: seq<Item>) {
    && w.disk.outbox == outbox
    && (w.process.Up? ==>
          && w.process.mem.outbox == outbox
          && (w.process.at.Fresh? || w.process.at.Sweep? || w.process.at.Scan? || w.process.at.Finished?))
  }

  lemma {:induction false} DeadIsUnresolved(outbox: seq<Item>)
    requires AllDead(outbox)
    ensures Filter(outbox, false) == outbox && Filter(outbox, true) == []
  {
    if outbox != [] {
      DeadIsUnresolved(outbox[..|outbox| - 1]);
      assert outbox == outbox[..|outbox| - 1] + [outbox[|outbox| - 1]];
    }
  }

  lemma StuckBegin(w: World, now: real, test: bool, active: set<string>, polls: seq<Poll>)
    requires PollsOk(polls) && Stuck(w, w.disk.outbox) && AllDead(w.disk.outbox) && |w.disk.outbox| == MAX_OUTBOX
    ensures Stuck(Begin(w, now, test, active, polls), w.disk.outbox)
  {
    var outbox := w.disk.outbox;
    DeadIsUnresolved(outbox);
    assert Trim(w.disk).outbox == outbox;
    PreparedKeepsDead(w.disk, now, test, polls);
    var mem := Prepared(w.disk, now, test, polls).outbox;
    if |mem| == |outbox| {
      assert mem == outbox;
    }
  }

  lemma StuckTick(w: World, reply: Reply)
    requires Stuck(w, w.disk.outbox) && AllDead(w.disk.outbox)
    ensures Stuck(Tick(w, reply), w.disk.outbox) && Tick(w, reply).calls == w.calls
  {
  }

  /** Once a thousand dead messages are stored, nothing is stored, sent or withdrawn any more,
      whatever is polled and however often the program is started. */
  lemma {:induction false} FullForEver(w: World, more: seq<Action>)
    requires w.process.Down? && AllDead(w.disk.outbox) && |w.disk.outbox| == 1000
    ensures Stuck(Exec(w, more), w.disk.outbox)
    ensures Exec(w, more).disk.outbox == w.disk.outbox && Exec(w, more).calls == w.calls
    decreases |more|
  {
    if more != [] {
      var front, a := more[..|more| - 1], more[|more| - 1];
      FullForEver(w, front);
      var before := Exec(w, front);
      match a
      case Start(now, test, active, polls) =>
        if PollsOk(polls) {
          StuckBegin(before, now, test, active, polls);
        }
      case Next(reply) => StuckTick(before, reply);
      case Crash =>
    }
  }

  // ----- A full outbox can be reached -----

  const KEY := Key("s", "d")

  lemma {:induction false} ExecApart(w: World, a: seq<Action>, b: seq<Action>)
    ensures Exec(w, a + b) == Exec(Exec(w, a), b)
    decreases |b|
  {
    if b == [] {
      assert a + b == a;
    } else {
      ExecApart(w, a, b[..|b| - 1]);
      assert (a + b)[..|a + b| - 1] == a + b[..|b| - 1];
    }
  }

  lemma ExecOne(w: World, a: Action, more: seq<Action>)
    ensures Exec(w, [a] + more) == Exec(Step(w, a), more)
  {
    ExecApart(w, [a], more);
    assert [a][..0] == [];
    assert Exec(w, [a]) == Step(w, a);
  }

  lemma {:induction false} SweepOver(w: World, i: nat) returns (more: seq<Action>)
    requires w.process.Up? && w.process.at == Sweep(i) && i <= |w.process.mem.outbox|
    requires w.process.mem.retryAt <= w.process.mode.now
    requires forall k | 0 <= k < |w.process.mem.outbox| :: w.process.mem.outbox[k].delivery != Attempted
    ensures Exec(w, more) == Goto(w, Scan(0, 0))
    decreases |w.process.mem.outbox| - i
  {
    var a := Next(Ambiguous);
    if i == |w.process.mem.outbox| {
      more := [];
      ExecOne(w, a, []);
    } else {
      assert Step(w, a) == Goto(w, Sweep(i + 1));
      more := SweepOver(Step(w, a), i + 1);
      ExecOne(w, a, more);
    }
    more := [a] + more;
  }

  lemma {:induction false} ScanOver(w: World, i: nat, n: nat) returns (more: seq<Action>)
    requires w.process.Up? && w.process.at == Scan(i, 0) && i <= n <= |w.process.mem.outbox|
    requires forall k | 0 <= k < n :: Dead(w.process.mem.outbox[k])
    ensures Exec(w, more) == Goto(w, Scan(n, 0))
    decreases n - i
  {
    more := [];
    if i < n {
      var a := Next(Ambiguous);
      assert Step(w, a) == Goto(w, Scan(i + 1, 0));
      more := ScanOver(Step(w, a), i + 1, n);
      ExecOne(w, a, more);
      more := [a] + more;
    }
  }

  function NewLevel(s: State): Level {
    if At(s, KEY).Some? && At(s, KEY).value.status == Alarm then Normal else Alarm
  }

  function NewItem(s: State): Item {
    Item(Queued(KEY, NextSequence(At(s, KEY))), Waiting, 0, 0.0, None)
  }

  lemma OnePollAdds(s: State)
    ensures var polls := [PlainPoll(KEY, NewLevel(s))]; var t := PollAll(s, polls, 0.0);
            PollsOk(polls) && t.outbox == s.outbox + [NewItem(s)] && t.retryAt == s.retryAt
  {
    var polls := [PlainPoll(KEY, NewLevel(s))];
    assert polls[..0] == [];
    assert PollAll(s, polls, 0.0) == EnqueuePlain(s, KEY, NewLevel(s), 0.0);
  }

  /** What a run of one poll starts with when only dead messages are stored. */
  lemma OneNewMessage(w: World) returns (a: Action)
    requires w.process.Down? && AllDead(w.disk.outbox) && |w.disk.outbox| < MAX_OUTBOX
    requires w.disk.retryAt == 0.0 && w.disk.lastRun == 0.0
    ensures var p := Step(w, a).process;
            && p.Up? && p.at == Fresh && p.mem.outbox == w.disk.outbox + [NewItem(w.disk)]
            && p.mem.retryAt == 0.0 && p.mem.lastRun == 0.0
            && p.mode.now == 0.0 && !p.mode.onlyTest && p.mode.active == {"s"}
  {
    var polls := [PlainPoll(KEY, NewLevel(w.disk))];
    a := Action.Start(0.0, false, {"s"}, polls);
    DeadIsUnresolved(w.disk.outbox);
    assert Trim(w.disk) == w.disk;
    OnePollAdds(w.disk);
    assert Prepared(w.disk, 0.0, false, polls) == PollAll(w.disk, polls, 0.0).(lastRun := 0.0);
  }

  /** The claim, the call with an unclear answer, both writes, and the end of the run. */
  lemma CallUnclear(w: World, n: nat)
    requires w.process.Up? && w.process.at == Scan(n, 0) && n + 1 == |w.process.mem.outbox|
    requires var m := w.process.mem.outbox[n];
             !Skips(w.process.mode, m) && Ready(m, w.process.mode.now) && m.attempts == 0 && m.tag == None
    ensures var next := Next(Ambiguous);
            var after := Step(Step(Step(Step(Step(w, next), next), next), next), Crash);
            && after.process.Down? && after.disk.retryAt == w.process.mem.retryAt
            && after.disk.lastRun == w.process.mem.lastRun && |after.disk.outbox| == n + 1
            && after.disk.outbox[..n] == w.process.mem.outbox[..n] && after.disk.outbox[n].delivery == Uncertain
  {
  }

  /** From the start of a run to where it takes up its one new message. */
  lemma UpToTheScan(w: World, n: nat) returns (more: seq<Action>)
    requires w.process.Up? && w.process.at == Fresh && w.process.mem.retryAt <= w.process.mode.now
    requires |w.process.mem.outbox| == n + 1 && w.process.mem.outbox[n].delivery == Waiting
    requires forall k | 0 <= k < n :: Dead(w.process.mem.outbox[k])
    ensures Exec(w, more) == w.(disk := w.process.mem, process := w.process.(at := Scan(n, 0)))
  {
    var next := Next(Ambiguous);
    var sweeping := Step(w, next);
    var sweep := SweepOver(sweeping, 0);
    var scanning := Exec(sweeping, sweep);
    var scan := ScanOver(scanning, 0, n);
    more := [next] + (sweep + scan);
    ExecOne(w, next, sweep + scan);
    ExecApart(sweeping, sweep, scan);
  }

  lemma DeadAgain(before: seq<Item>, after: seq<Item>, n: nat)
    requires AllDead(before) && |before| == n && |after| == n + 1 && after[..n] == before && after[n].delivery == Uncertain
    ensures AllDead(after)
  {
    forall k | 0 <= k < |after| ensures Dead(after[k]) {
      if k < n {
        assert after[k] == after[..n][k];
      }
    }
  }

  lemma OneMoreDead(w: World) returns (more: seq<Action>)
    requires w.process.Down? && AllDead(w.disk.outbox) && |w.disk.outbox| < MAX_OUTBOX
    requires w.disk.retryAt == 0.0 && w.disk.lastRun == 0.0
    ensures var after := Exec(w, more);
            && after.process.Down? && AllDead(after.disk.outbox) && |after.disk.outbox| == |w.disk.outbox| + 1
            && after.disk.retryAt == 0.0 && after.disk.lastRun == 0.0
  {
    var n := |w.disk.outbox|;
    var start := OneNewMessage(w);
    var begun := Step(w, start);
    assert begun.process.mem.outbox[..n] == w.disk.outbox;
    var run := UpToTheScan(begun, n);
    var there := Exec(begun, run);
    CallUnclear(there, n);
    FiveSteps(there);
    var end := [Next(Ambiguous), Next(Ambiguous), Next(Ambiguous), Next(Ambiguous), Crash];
    more := [start] + (run + end);
    ExecOne(w, start, run + end);
    ExecApart(begun, run, end);
    DeadAgain(w.disk.outbox, Exec(there, end).disk.outbox, n);
  }

  lemma FiveSteps(w: World)
    ensures var next := Next(Ambiguous);
            Exec(w, [next, next, next, next, Crash]) ==
            Step(Step(Step(Step(Step(w, next), next), next), next), Crash)
  {
    var next := Next(Ambiguous);
    ExecOne(w, next, [next, next, next, Crash]);
    ExecOne(Step(w, next), next, [next, next, Crash]);
    ExecOne(Step(Step(w, next), next), next, [next, Crash]);
    ExecOne(Step(Step(Step(w, next), next), next), next, [Crash]);
    assert [next] + [next, next, next, Crash] == [next, next, next, next, Crash];
    assert [next] + [next, next, Crash] == [next, next, next, Crash];
    assert [next] + [next, Crash] == [next, next, Crash];
    assert [next] + [Crash] == [next, Crash];
    assert [Crash][..0] == [];
  }

  /** A transport that leaves a thousand outcomes unclear fills the outbox for ever. */
  lemma {:induction false} FullIsReached(n: nat) returns (actions: seq<Action>)
    requires n <= 1000
    ensures var w := Exec(START, actions);
            && w.process.Down? && AllDead(w.disk.outbox) && |w.disk.outbox| == n
            && w.disk.retryAt == 0.0 && w.disk.lastRun == 0.0
  {
    actions := [];
    if n > 0 {
      var before := FullIsReached(n - 1);
      var more := OneMoreDead(Exec(START, before));
      ExecApart(START, before, more);
      actions := before + more;
    }
  }
}
