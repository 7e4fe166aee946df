/**
 Whole histories of collectors and notifier: the invariant of AlertProtocol carried through
 every step of a run, and the theorems about what is ever announced.
 */
module AlertRuns {
  import opened Prelude
  import opened IncidentTracking
  import opened AlertOutbox
  import opened ServiceReports
  import opened AlertProtocol
  import D = AlertDispatch
  import S = AlertSafety

  // ----- One message moves on to its next stage -----

  /** How a run may move a message on: never back from what may have been delivered. */
  ghost predicate Advances(x: Item, next: Item, out: set<ItemId>) {
    && Mark(next) == Mark(x) && !Delivered(x)
    && (!Delivered(next) ==> x.id !in out)
  }

  function OutAfter(out: set<ItemId>, next: Item): set<ItemId> {
    if Delivered(next) then out + {next.id} else out
  }

  lemma SameOpening(published: Snapshots, r: Report, i: nat, at: Option<real>)
    requires Ordered(published) && Genuine(published, r) && OpenedThen(published, i, at) && r.incident == Some(i)
    ensures r.openedAt == at
  {
    var p :| 0 <= p < |published| && Describes(r, published[p]);
    var q :| 0 <= q < |published| && published[q].incident == Some(i) && published[q].openedAt == at;
    assert Sound(published[p]) && Sound(published[q]);
    if p <= q {
      assert Succeeds(published[p], published[q]);
    } else {
      assert Succeeds(published[q], published[p]);
    }
  }

  /** A delivered alarm of the incident under way leaves its receipt. */
  lemma AlarmReceipted(s: State, next: Item, key: Key, born: seq<Stored>, out: set<ItemId>, published: Snapshots, i: nat)
    requires KeyInv(s, key, born, out, published) && Ordered(published) && key in s.cursors
    requires Mark(next) in born && IsAbout(Mark(next), key, Alarm, i) && Delivered(next)
    requires s.cursors[key].report.value.incident == Some(i)
    ensures key in Remember(s.cursors, next) && ReceiptFor(Remember(s.cursors, next)[key])
  {
    SameOpening(published, s.cursors[key].report.value, i, next.tag.value.openedAt);
  }

  lemma OneBorn(born: seq<Stored>, a: Stored, b: Stored)
    requires BornOnce(born) && a in born && b in born && a.id == b.id
    ensures a == b
  {
    var i :| 0 <= i < |born| && born[i] == a;
    var j :| 0 <= j < |born| && born[j] == b;
  }

  ghost predicate OutboxKnown(s: State, born: seq<Stored>) {
    S.Distinct(s.outbox) && forall x | x in s.outbox :: Mark(x) in born
  }

  lemma PutMembers(s: State, i: nat, next: Item)
    requires i < |s.outbox| && S.Distinct(s.outbox) && next.id == s.outbox[i].id
    ensures forall x | x in Put(s, i, next).outbox :: x == next || (x in s.outbox && x.id != next.id)
    ensures forall x | x in s.outbox && x != s.outbox[i] :: x in Put(s, i, next).outbox
    ensures next in Put(s, i, next).outbox
  {
    var after := Put(s, i, next).outbox;
    assert after[i] == next;
    forall x | x in after ensures x == next || (x in s.outbox && x.id != next.id) {
      var k :| 0 <= k < |after| && after[k] == x;
      if k != i {
        assert s.outbox[k] == x;
      }
    }
    forall x | x in s.outbox && x != s.outbox[i] ensures x in after {
      var k :| 0 <= k < |s.outbox| && s.outbox[k] == x;
      assert after[k] == x;
    }
  }

  /** A message that moves on without being about this alarm, or without arriving, adds no evidence. */
  lemma StageAddsNothing(s: State, i: nat, next: Item, key: Key, born: seq<Stored>, out: set<ItemId>, n: nat)
    requires BornOnce(born) && OutboxKnown(s, born) && i < |s.outbox| && Advances(s.outbox[i], next, out)
    requires !(Delivered(next) && IsAbout(Mark(next), key, Alarm, n))
    ensures AlarmWent(born, OutAfter(out, next), key, n) ==> AlarmWent(born, out, key, n)
    ensures LostClaim(s.outbox, out, key, n) ==> LostClaim(Put(s, i, next).outbox, OutAfter(out, next), key, n)
    ensures forall x | x in Put(s, i, next).outbox && IsAbout(Mark(x), key, Alarm, n) && Delivered(x) :: x in s.outbox
  {
    var wider := OutAfter(out, next);
    PutMembers(s, i, next);
    assert s.outbox[i] in s.outbox && Mark(next) in born;
    forall b | b in born && IsAbout(b, key, Alarm, n) && b.id in wider ensures b.id in out {
      if b.id == next.id {
        OneBorn(born, b, Mark(next));
      }
    }
    if LostClaim(s.outbox, out, key, n) {
      var y :| y in s.outbox && IsAbout(Mark(y), key, Alarm, n) && y.delivery == Attempted && y.id in out;
      assert y in Put(s, i, next).outbox && y.id in wider;
    }
  }

  lemma StageReceipt(s: State, i: nat, next: Item, key: Key, born: seq<Stored>, out: set<ItemId>, published: Snapshots)
    requires KeyInv(s, key, born, out, published) && Ordered(published) && BornOnce(born) && OutboxKnown(s, born)
    requires i < |s.outbox| && Advances(s.outbox[i], next, out) && key in s.cursors
    ensures var t := Put(s, i, next);
            key in t.cursors && ReceiptTrue(t.cursors[key], t.outbox, key, born, OutAfter(out, next))
  {
    var t := Put(s, i, next);
    var c, d := s.cursors[key], t.cursors[key];
    var wider := OutAfter(out, next);
    assert s.outbox[i] in s.outbox && Mark(next) in born;
    assert forall n: nat | AlarmWent(born, out, key, n) :: AlarmWent(born, wider, key, n);
    if c.status == Alarm && c.report.value.incident.Some? {
      var n := c.report.value.incident.value;
      if Delivered(next) && IsAbout(Mark(next), key, Alarm, n) {
        AlarmReceipted(s, next, key, born, out, published, n);
      } else {
        assert ReceiptFor(c) ==> ReceiptFor(d);
        StageAddsNothing(s, i, next, key, born, out, n);
      }
    }
  }

  lemma StageOutbox(s: State, i: nat, next: Item, key: Key, born: seq<Stored>, out: set<ItemId>)
    requires OutboxTrue(s.outbox, key, born, out) && OutboxKnown(s, born)
    requires i < |s.outbox| && Advances(s.outbox[i], next, out)
    ensures OutboxTrue(Put(s, i, next).outbox, key, born, OutAfter(out, next))
  {
    PutMembers(s, i, next);
    assert s.outbox[i] in s.outbox;
  }

  lemma StageBorn(s: State, i: nat, next: Item, key: Key, born: seq<Stored>, out: set<ItemId>, published: Snapshots)
    requires BornBefore(At(s, key), key, born, out, published) && i < |s.outbox|
    ensures BornBefore(At(Put(s, i, next), key), key, born, OutAfter(out, next), published)
  {
    assert forall n: nat | AlarmWent(born, out, key, n) :: AlarmWent(born, OutAfter(out, next), key, n);
  }

  lemma StageKey(s: State, i: nat, next: Item, key: Key, born: seq<Stored>, out: set<ItemId>, published: Snapshots)
    requires KeyInv(s, key, born, out, published) && Ordered(published) && BornOnce(born) && OutboxKnown(s, born)
    requires i < |s.outbox| && Advances(s.outbox[i], next, out)
    ensures KeyInv(Put(s, i, next), key, born, OutAfter(out, next), published)
  {
    if key in s.cursors {
      StageReceipt(s, i, next, key, born, out, published);
    }
    StageOutbox(s, i, next, key, born, out);
    StageBorn(s, i, next, key, born, out, published);
  }

  lemma StageGood(s: State, i: nat, next: Item, born: seq<Stored>, out: set<ItemId>, sources: map<Key, Snapshots>)
    requires Good(s, born, out, sources) && AllOrdered(sources) && BornOnce(born) && S.Distinct(s.outbox)
    requires i < |s.outbox| && Advances(s.outbox[i], next, out)
    ensures Good(Put(s, i, next), born, OutAfter(out, next), sources)
  {
    var t := Put(s, i, next);
    forall key | key in sources ensures KeyInv(t, key, born, OutAfter(out, next), sources[key]) {
      StageKey(s, i, next, key, born, out, sources[key]);
    }
    PutMembers(s, i, next);
    assert s.outbox[i] in s.outbox;
    forall id | S.Known(s, id) ensures S.Known(t, id) {
      S.RememberKnows(s, next, id);
    }
    assert Mark(next) in born && S.Known(s, Mark(next).id);
  }

  // ----- What becomes possible when a run starts -----

  /** A claim found on disk has lost its outcome: from now on it counts as perhaps delivered. */
  lemma WidenKey(s: State, key: Key, born: seq<Stored>, out: set<ItemId>, published: Snapshots)
    requires KeyInv(s, key, born, out, published) && BornOnce(born) && OutboxKnown(s, born)
    requires forall x | x in s.outbox && Delivered(x) :: x.id in out
    ensures KeyInv(s, key, born, out + ReachedIds(s.outbox), published)
  {
    var wider := out + ReachedIds(s.outbox);
    assert forall n: nat | AlarmWent(born, out, key, n) :: AlarmWent(born, wider, key, n);
    forall x | x in s.outbox && About(x, key) && x.id in wider ensures Reached(x.delivery) {
      if x.id in ReachedIds(s.outbox) {
        var y :| y in s.outbox && Reached(y.delivery) && y.id == x.id;
        SameItem(s.outbox, x, y);
      }
    }
    if key in s.cursors && s.cursors[key].status == Alarm && s.cursors[key].report.value.incident.Some? {
      var n := s.cursors[key].report.value.incident.value;
      forall b | b in born && IsAbout(b, key, Alarm, n) && b.id in wider
        ensures AlarmWent(born, out, key, n) || LostClaim(s.outbox, wider, key, n)
      {
        if b.id !in out {
          var y :| y in s.outbox && Reached(y.delivery) && y.id == b.id;
          OneBorn(born, b, Mark(y));
        }
      }
      if LostClaim(s.outbox, out, key, n) {
        var y :| y in s.outbox && IsAbout(Mark(y), key, Alarm, n) && y.delivery == Attempted && y.id in out;
        assert y.id in wider;
      }
    }
  }

  lemma SameItem(outbox: seq<Item>, x: Item, y: Item)
    requires S.Distinct(outbox) && x in outbox && y in outbox && x.id == y.id
    ensures x == y
  {
    var i :| 0 <= i < |outbox| && outbox[i] == x;
    var j :| 0 <= j < |outbox| && outbox[j] == y;
  }

  lemma WidenGood(s: State, born: seq<Stored>, out: set<ItemId>, sources: map<Key, Snapshots>)
    requires Good(s, born, out, sources) && BornOnce(born) && S.Distinct(s.outbox)
    ensures Good(s, born, out + ReachedIds(s.outbox), sources)
  {
    forall key | key in sources ensures KeyInv(s, key, born, out + ReachedIds(s.outbox), sources[key]) {
      WidenKey(s, key, born, out, sources[key]);
    }
    forall x | x in s.outbox ensures S.Known(s, x.id) {
      assert Mark(x) in born;
    }
  }

  lemma TrimGood(s: State, born: seq<Stored>, out: set<ItemId>, sources: map<Key, Snapshots>)
    requires Good(s, born, out, sources)
    ensures Good(Trim(s), born, out, sources)
    ensures ReachedOut(s.outbox, out) ==> ReachedOut(Trim(s).outbox, out)
  {
    S.TrimKeeps(s);
    forall key | key in sources ensures KeyInv(Trim(s), key, born, out, sources[key]) {
      TrimInv(s, key, born, out, sources[key]);
    }
    assert forall id :: S.Known(s, id) <==> S.Known(Trim(s), id);
  }

  /** The clock of the last run is not part of what the invariant looks at. */
  lemma ClockFree(s: State, t: State, born: seq<Stored>, out: set<ItemId>, sources: map<Key, Snapshots>)
    requires Good(s, born, out, sources)
    requires t.cursors == s.cursors && t.outbox == s.outbox && t.testQueued == s.testQueued
    ensures Good(t, born, out, sources)
  {
    forall key | key in sources ensures KeyInv(t, key, born, out, sources[key]) {
      Elsewhere(s, t, key, born, born, out, sources[key]);
    }
    assert forall id :: S.Known(s, id) <==> S.Known(t, id);
  }

  lemma PreparedGood(disk: State, now: real, test: bool, polls: seq<D.Poll>, born: seq<Stored>, out: set<ItemId>,
                     sources: map<Key, Snapshots>)
    requires Good(disk, born, out, sources) && BornOnce(born) && AllOrdered(sources) && S.Distinct(disk.outbox)
    requires D.PollsOk(polls) && Truthful(sources, polls)
    ensures var mem := D.Prepared(disk, now, test, polls);
            var wider := out + ReachedIds(disk.outbox);
            && Good(mem, born + Added(disk, mem), wider, sources)
            && BornOnce(born + Added(disk, mem))
  {
    var wider := out + ReachedIds(disk.outbox);
    WidenGood(disk, born, out, sources);
    assert ReachedOut(disk.outbox, wider);
    TrimGood(disk, born, wider, sources);
    var trimmed := Trim(disk);
    if test {
      TestGood(trimmed, now, born, wider, sources);
    } else {
      PollAllGood(trimmed, polls, now, born, wider, sources);
    }
    var t := if test then EnqueueTest(trimmed, now) else D.PollAll(trimmed, polls, now);
    ClockFree(t, t.(lastRun := now), born + Grown(trimmed, t), wider, sources);
  }

  lemma TestGood(s: State, now: real, born: seq<Stored>, out: set<ItemId>, sources: map<Key, Snapshots>)
    requires Good(s, born, out, sources) && BornOnce(born) && ReachedOut(s.outbox, out)
    ensures PollGood(s, EnqueueTest(s, now), born, out, sources)
  {
    var t := EnqueueTest(s, now);
    var m := Item(ConnectionTest, Waiting, 0, now, None);
    if s.testQueued {
      PollGoodSame(s, s, born, out, sources);
    } else {
      forall key | key in sources ensures KeyInv(t, key, born + [Mark(m)], out, sources[key]) {
        Elsewhere(s, t, key, born, born + [Mark(m)], out, sources[key]);
      }
      assert forall id | S.Known(s, id) :: S.Known(t, id);
      BornOnceMore(born, Mark(m));
      PollGoodMore(s, t, s.outbox, m, born, out, sources);
    }
  }

  // ----- The invariant of the whole system -----

  function BornWith(y: System): seq<Stored> {
    if y.world.process.Up? && y.world.process.at.Fresh? then y.born + Added(y.world.disk, y.world.process.mem) else y.born
  }

  function OutWith(y: System): set<ItemId> {
    if y.world.process.Up? then y.out + DeliveredIds(y.world.process.mem.outbox) else y.out
  }

  /** A claim about to be called has never been called with an unknown outcome. */
  ghost predicate Unsent(y: System) {
    y.world.process.Up? ==>
      match y.world.process.at
      case Claimed(i, _) => i < |y.world.process.mem.outbox| && y.world.process.mem.outbox[i].id !in OutWith(y)
      case Calling(i, _) => i < |y.world.process.mem.outbox| && y.world.process.mem.outbox[i].id !in OutWith(y)
      case _ => true
  }

  /** Nothing that may have been delivered waits to be sent. */
  ghost predicate NeverAgain(outbox: seq<Item>, out: set<ItemId>) {
    forall x | x in outbox && x.id in out :: x.delivery != Waiting
  }

  ghost predicate SystemInv(y: System) {
    && S.Inv(y.world)
    && AllOrdered(y.sources)
    && BornOnce(y.born)
    && Good(y.world.disk, y.born, y.out, y.sources)
    && NeverAgain(y.world.disk.outbox, y.out)
    && (y.world.process.Up? ==>
          && BornOnce(BornWith(y))
          && Good(y.world.process.mem, BornWith(y), OutWith(y), y.sources)
          && NeverAgain(y.world.process.mem.outbox, OutWith(y)))
    && Unsent(y)
  }

  lemma GoodSettled(s: State, born: seq<Stored>, out: set<ItemId>, sources: map<Key, Snapshots>)
    requires Good(s, born, out, sources)
    ensures out + DeliveredIds(s.outbox) == out
  {
  }

  // ----- Every step keeps it -----

  lemma CollectGood(s: State, born: seq<Stored>, out: set<ItemId>, sources: map<Key, Snapshots>, key: Key, h: History)
    requires Good(s, born, out, sources) && key in sources
    ensures Good(s, born, out, sources[key := sources[key] + [h]])
  {
    var after := sources[key := sources[key] + [h]];
    forall other | other in after ensures KeyInv(s, other, born, out, after[other]) {
      if other == key {
        MoreSnapshots(s, key, born, out, sources[key], h);
      }
    }
  }

  lemma CollectKeeps(y: System, key: Key, xs: seq<Happening>)
    requires SystemInv(y)
    ensures SystemInv(Step(y, Collect(key, xs)))
  {
    if key in y.sources && y.sources[key] != [] {
      var past := y.sources[key];
      var h := Relived(past[|past| - 1], xs);
      PublishOrdered(past, xs);
      CollectGood(y.world.disk, y.born, y.out, y.sources, key, h);
      if y.world.process.Up? {
        CollectGood(y.world.process.mem, BornWith(y), OutWith(y), y.sources, key, h);
      }
    }
  }

  lemma WidenNeverAgain(s: State, out: set<ItemId>)
    requires NeverAgain(s.outbox, out) && S.Distinct(s.outbox)
    ensures NeverAgain(s.outbox, out + ReachedIds(s.outbox))
  {
    forall x | x in s.outbox && x.id in ReachedIds(s.outbox) ensures x.delivery != Waiting {
      var z :| z in s.outbox && Reached(z.delivery) && z.id == x.id;
      SameItem(s.outbox, x, z);
    }
  }

  lemma PreparedNeverAgain(disk: State, now: real, test: bool, polls: seq<D.Poll>, born: seq<Stored>,
                           out: set<ItemId>, sources: map<Key, Snapshots>)
    requires NeverAgain(disk.outbox, out) && Good(disk, born, out, sources) && D.PollsOk(polls)
    ensures NeverAgain(D.Prepared(disk, now, test, polls).outbox, out)
  {
    var mem := D.Prepared(disk, now, test, polls);
    forall x | x in mem.outbox && x.id in out ensures x.delivery != Waiting {
      forall i | 0 <= i < |disk.outbox| && disk.outbox[i].id == x.id ensures disk.outbox[i].delivery != Waiting {
        assert disk.outbox[i] in disk.outbox;
      }
      S.PreparedQuiet(disk, now, test, polls, x.id);
      var k :| 0 <= k < |mem.outbox| && mem.outbox[k] == x;
    }
  }

  lemma StartKeeps(y: System, now: real, test: bool, active: set<string>, polls: seq<D.Poll>)
    requires SystemInv(y) && D.PollsOk(polls) && Truthful(y.sources, polls)
    ensures SystemInv(Step(y, Notifier(S.Start(now, test, active, polls))))
  {
    var act := S.Start(now, test, active, polls);
    S.StepKeeps(y.world, act);
    GoodSettled(y.world.disk, y.born, y.out, y.sources);
    var after := Step(y, Notifier(act));
    if y.world.process.Down? {
      var disk := y.world.disk;
      var wider := y.out + ReachedIds(disk.outbox);
      assert after.out == wider;
      WidenGood(disk, y.born, y.out, y.sources);
      WidenNeverAgain(disk, y.out);
      if after.world.process.Up? {
        PreparedGood(disk, now, test, polls, y.born, y.out, y.sources);
        PreparedNeverAgain(disk, now, test, polls, y.born, wider, y.sources);
        GoodSettled(after.world.process.mem, BornWith(after), wider, y.sources);
      }
    } else {
      assert after == y;
    }
  }

  /** A write: the disk becomes what memory was, and the logs with it. */
  lemma SaveKeeps(y: System, at: D.Point, after: System)
    requires SystemInv(y) && y.world.process.Up? && !at.Fresh?
    requires after == System(D.Save(y.world, at), y.sources, BornWith(y), OutWith(y)) && S.Inv(after.world)
    requires at.Claimed? || at.Calling? ==>
               y.world.process.at.Claimed? && at.i == y.world.process.at.i
    ensures SystemInv(after)
  {
    GoodSettled(y.world.process.mem, BornWith(y), OutWith(y), y.sources);
    assert OutWith(after) == OutWith(y);
  }

  lemma DeliveredAfter(s: State, i: nat, next: Item, out: set<ItemId>)
    requires i < |s.outbox| && S.Distinct(s.outbox) && next.id == s.outbox[i].id && !Delivered(s.outbox[i])
    ensures out + DeliveredIds(Put(s, i, next).outbox) == OutAfter(out + DeliveredIds(s.outbox), next)
  {
    PutMembers(s, i, next);
    var after := Put(s, i, next).outbox;
    forall id | id in DeliveredIds(s.outbox) ensures id in DeliveredIds(after) {
      var x :| x in s.outbox && Delivered(x) && x.id == id;
      assert x in after;
    }
  }

  /** One message moves on in memory. */
  lemma StageKeeps(y: System, i: nat, next: Item, after: System)
    requires SystemInv(y) && y.world.process.Up? && !y.world.process.at.Fresh? && i < |y.world.process.mem.outbox|
    requires Advances(y.world.process.mem.outbox[i], next, OutWith(y))
    requires S.Inv(after.world) && after.world.disk == y.world.disk && after.world.process.Up?
    requires after.sources == y.sources && after.born == y.born && after.out == y.out
    requires var t, mem := Put(y.world.process.mem, i, next), after.world.process.mem;
             mem.cursors == t.cursors && mem.outbox == t.outbox && mem.testQueued == t.testQueued
    requires !after.world.process.at.Fresh? && !after.world.process.at.Calling?
    requires after.world.process.at.Claimed? ==> after.world.process.at.i == i && !Delivered(next)
    ensures SystemInv(after)
  {
    var mem := y.world.process.mem;
    assert S.Distinct(mem.outbox);
    StageGood(mem, i, next, y.born, OutWith(y), y.sources);
    ClockFree(Put(mem, i, next), after.world.process.mem, y.born, OutAfter(OutWith(y), next), y.sources);
    DeliveredAfter(mem, i, next, y.out);
    assert OutWith(after) == OutAfter(OutWith(y), next);
    PutMembers(mem, i, next);
  }

  lemma MoveKeeps(y: System, at: D.Point)
    requires SystemInv(y) && y.world.process.Up? && !y.world.process.at.Fresh?
    requires !at.Fresh? && !at.Claimed? && !at.Calling?
    requires S.Inv(D.Goto(y.world, at))
    ensures SystemInv(y.(world := D.Goto(y.world, at)))
  {
    assert OutWith(y.(world := D.Goto(y.world, at))) == OutWith(y);
  }

  lemma SweepKeeps(y: System, i: nat, after: System)
    requires SystemInv(y) && y.world.process.Up? && y.world.process.at == D.Sweep(i)
    requires after == y.(world := D.SweepStep(y.world, i)) && S.Inv(after.world)
    ensures SystemInv(after)
  {
    var mem, mode := y.world.process.mem, y.world.process.mode;
    if i >= |mem.outbox| || (mode.onlyTest && mem.outbox[i].id != ConnectionTest) || mem.outbox[i].delivery != Attempted {
      MoveKeeps(y, after.world.process.at);
    } else {
      StageKeeps(y, i, mem.outbox[i].(delivery := Uncertain), after);
    }
  }

  lemma TakeUpKeeps(y: System, i: nat, next: Item, at: D.Point)
    requires SystemInv(y) && y.world.process.Up? && y.world.process.at.Scan? && i < |y.world.process.mem.outbox|
    requires var item := y.world.process.mem.outbox[i];
             item.delivery == Waiting && Mark(next) == Mark(item) && !Delivered(next)
    requires at.Expired? || (at.Claimed? && at.i == i)
    requires var mem := y.world.process.mem;
             S.Inv(y.world.(process := D.Up(mem.(outbox := mem.outbox[i := next]), y.world.process.mode, at)))
    ensures var mem := y.world.process.mem;
            SystemInv(y.(world := y.world.(process := D.Up(mem.(outbox := mem.outbox[i := next]), y.world.process.mode, at))))
  {
    var mem := y.world.process.mem;
    assert mem.outbox[i] in mem.outbox;
    assert mem.outbox[i].id !in OutWith(y);
    StageKeeps(y, i, next, y.(world := y.world.(process := D.Up(mem.(outbox := mem.outbox[i := next]),
                                                                y.world.process.mode, at))));
  }

  lemma ScanKeeps(y: System, i: nat, tried: nat, after: System)
    requires SystemInv(y) && y.world.process.Up? && y.world.process.at == D.Scan(i, tried)
    requires after == y.(world := D.ScanStep(y.world, i, tried)) && S.Inv(after.world)
    ensures SystemInv(after)
  {
    var mem, mode := y.world.process.mem, y.world.process.mode;
    if i >= |mem.outbox| || D.Skips(mode, mem.outbox[i]) || !D.Ready(mem.outbox[i], mode.now) || tried >= 3 {
      MoveKeeps(y, after.world.process.at);
    } else if mem.outbox[i].attempts >= MAX_ATTEMPTS {
      TakeUpKeeps(y, i, mem.outbox[i].(delivery := Rejected), D.Expired(i, tried));
    } else {
      TakeUpKeeps(y, i, Claim(mem.outbox[i]), D.Claimed(i, tried + 1));
    }
  }

  lemma CallIsBusy(w: D.World, i: nat, tried: nat)
    requires S.Inv(w) && w.process.Up? && w.process.at == D.Calling(i, tried)
    ensures S.Busy(w.process.mem, w.process.mode, i, tried, w.calls, w.runs)
  {
  }

  lemma CallKeeps(y: System, i: nat, tried: nat, reply: Reply, after: System)
    requires SystemInv(y) && y.world.process.Up? && y.world.process.at == D.Calling(i, tried)
    requires after == y.(world := D.CallStep(y.world, i, tried, reply)) && S.Inv(after.world)
    ensures SystemInv(after)
  {
    var mem, mode := y.world.process.mem, y.world.process.mode;
    CallIsBusy(y.world, i, tried);
    StageKeeps(y, i, Answer(mem.outbox[i], mode.now, reply), after);
  }

  /** Apart from the writes, a step leaves the disk and both logs alone. */
  lemma NextShape(y: System, reply: Reply)
    requires y.world.process.Up? && y.out + DeliveredIds(y.world.disk.outbox) == y.out
    ensures var after := Step(y, Notifier(S.Next(reply)));
            match y.world.process.at
            case Sweep(i) => after == y.(world := D.SweepStep(y.world, i))
            case Scan(i, tried) => after == y.(world := D.ScanStep(y.world, i, tried))
            case Calling(i, tried) => after == y.(world := D.CallStep(y.world, i, tried, reply))
            case Finished => after == y
            case _ =>
              && after.world.process.Up?
              && after == System(D.Save(y.world, after.world.process.at), y.sources, BornWith(y), OutWith(y))
  {
  }

  lemma NextKeeps(y: System, reply: Reply)
    requires SystemInv(y)
    ensures SystemInv(Step(y, Notifier(S.Next(reply))))
  {
    var after := Step(y, Notifier(S.Next(reply)));
    S.StepKeeps(y.world, S.Next(reply));
    GoodSettled(y.world.disk, y.born, y.out, y.sources);
    if y.world.process.Down? {
      assert after == y;
    } else {
      NextShape(y, reply);
      match y.world.process.at
      case Sweep(i) => SweepKeeps(y, i, after);
      case Scan(i, tried) => ScanKeeps(y, i, tried, after);
      case Calling(i, tried) => CallKeeps(y, i, tried, reply, after);
      case Finished =>
      case _ => SaveKeeps(y, after.world.process.at, after);
    }
  }

  lemma CrashKeeps(y: System)
    requires SystemInv(y)
    ensures SystemInv(Step(y, Notifier(S.Crash)))
  {
    var after := Step(y, Notifier(S.Crash));
    S.StepKeeps(y.world, S.Crash);
    GoodSettled(y.world.disk, y.born, y.out, y.sources);
    assert after.world.process.Down? && after.world.disk == y.world.disk && after.sources == y.sources;
    assert after.born == y.born && after.out == y.out;
  }

  lemma {:induction false} AlwaysInv(keys: set<Key>, actions: seq<Action>)
    ensures SystemInv(Exec(Begun(keys), actions))
    ensures Exec(Begun(keys), actions).sources.Keys == keys
    decreases |actions|
  {
    if actions == [] {
      SucceedsReflexive(FRESH);
      LifeIsSound([]);
    } else {
      AlwaysInv(keys, actions[..|actions| - 1]);
      var y := Exec(Begun(keys), actions[..|actions| - 1]);
      match actions[|actions| - 1]
      case Collect(key, xs) => CollectKeeps(y, key, xs);
      case Notifier(act) =>
        match act
        case Start(now, test, active, polls) =>
          if Truthful(y.sources, polls) {
            TruthfulIsOk(y.sources, polls);
            StartKeeps(y, now, test, active, polls);
          }
        case Next(reply) => NextKeeps(y, reply);
        case Crash => CrashKeeps(y);
    }
  }

  lemma TruthfulIsOk(sources: map<Key, Snapshots>, polls: seq<D.Poll>)
    requires Truthful(sources, polls)
    ensures D.PollsOk(polls)
  {
    forall p | p in polls ensures D.PollOk(p) {
      assert PollTruthful(sources, p);
    }
  }

  // ----- The theorems -----

  /** Over any history of collections, reads, runs, answers and crashes, no identity is used
      twice and each incident is given at most one alarm and at most one recovery. */
  lemma EachIncidentOnce(keys: set<Key>, actions: seq<Action>, i: nat, j: nat)
    requires i < j < |Exec(Begun(keys), actions).born|
    ensures var born := Exec(Begun(keys), actions).born;
            && born[i].id != born[j].id
            && forall key, event, n: nat :: !(IsAbout(born[i], key, event, n) && IsAbout(born[j], key, event, n))
  {
    AlwaysInv(keys, actions);
  }

  /** A recovery is only ever stored for an incident whose own alarm was stored and may have been
      delivered, however long ago its message was trimmed away. */
  lemma RecoveryAfterAlarm(keys: set<Key>, actions: seq<Action>, m: Stored, key: Key, n: nat)
    requires var y := Exec(Begun(keys), actions); key in keys && m in y.born && IsAbout(m, key, Normal, n)
    ensures var y := Exec(Begun(keys), actions);
            exists a | a in y.born :: IsAbout(a, key, Alarm, n) && a.id in y.out
  {
    AlwaysInv(keys, actions);
    var y := Exec(Begun(keys), actions);
    assert KeyInv(y.world.disk, key, y.born, y.out, y.sources[key]);
  }

  /** When a healthy report closes the incident last announced, its recovery is due exactly if
      its alarm may have been delivered: trimmed or not, crashed or not. */
  lemma RecoveryExactly(keys: set<Key>, actions: seq<Action>, key: Key, r: Report, n: nat)
    requires var y := Exec(Begun(keys), actions);
             && key in y.sources && y.world.process.Down? && Genuine(y.sources[key], r) && r.status == Normal
             && key in y.world.disk.cursors && !Regressed(y.world.disk.cursors[key], r)
             && y.world.disk.cursors[key].status == Alarm && OldIncident(y.world.disk.cursors[key]) == Some(n)
             && r.closed == Some(n)
    ensures var y := Exec(Begun(keys), actions);
            var disk := y.world.disk;
            EventDue(At(disk, key), ReviewAll(Trim(disk).outbox, key, r), key, r) <==>
            AlarmWent(y.born, y.out + ReachedIds(disk.outbox), key, n)
  {
    AlwaysInv(keys, actions);
    var y := Exec(Begun(keys), actions);
    var disk := y.world.disk;
    var out := y.out + ReachedIds(disk.outbox);
    var published := y.sources[key];
    WidenGood(disk, y.born, y.out, y.sources);
    assert ReachedOut(disk.outbox, out);
    TrimGood(disk, y.born, out, y.sources);
    ReviewGood(Trim(disk), key, r, y.born, out, y.sources);
    var s := Trim(disk).(outbox := ReviewAll(Trim(disk).outbox, key, r));
    assert At(s, key) == At(disk, key);
    if EventDue(At(s, key), s.outbox, key, r) {
      RecoveryHasAlarm(s, key, r, y.born, out, published);
    }
    if AlarmWent(y.born, out, key, n) {
      RecoveryIsDue(s, key, r, y.born, out, published, n);
    }
  }

  lemma RecoveryIsDue(s: State, key: Key, r: Report, born: seq<Stored>, out: set<ItemId>, published: Snapshots, n: nat)
    requires KeyInv(s, key, born, out, published) && Ordered(published) && Genuine(published, r)
    requires r.status == Normal && r.closed == Some(n) && key in s.cursors && !Regressed(s.cursors[key], r)
    requires s.cursors[key].status == Alarm && OldIncident(s.cursors[key]) == Some(n)
    requires AlarmWent(born, out, key, n)
    ensures EventDue(At(s, key), s.outbox, key, r)
  {
    var prev := s.cursors[key];
    GenuineFollows(published, prev, prev.report.value, r);
    if !ReceiptFor(prev) {
      assert LostClaim(s.outbox, out, key, n);
      var x :| x in s.outbox && IsAbout(Mark(x), key, Alarm, n) && x.delivery == Attempted && x.id in out;
      var k :| 0 <= k < |s.outbox| && s.outbox[k] == x;
      assert IsAlarmOut(s.outbox[k], key, Some(n));
    } else {
      var q :| 0 <= q < |published| && Describes(r, published[q]);
      assert Sound(published[q]);
      assert Receipted(KeptReceipt(Some(prev), r), r);
    }
  }

  /** A cursor that stands at an alarm has stored that alarm, exactly once. */
  lemma AnnouncedIsStored(keys: set<Key>, actions: seq<Action>, key: Key, n: nat)
    requires var disk := Exec(Begun(keys), actions).world.disk;
             && key in keys && key in disk.cursors && disk.cursors[key].status == Alarm
             && OldIncident(disk.cursors[key]) == Some(n)
    ensures var y := Exec(Begun(keys), actions);
            exists b | b in y.born :: IsAbout(b, key, Alarm, n)
  {
    AlwaysInv(keys, actions);
    var y := Exec(Begun(keys), actions);
    assert KeyInv(y.world.disk, key, y.born, y.out, y.sources[key]);
  }
}
