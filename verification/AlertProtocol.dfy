/**
 Collectors and notifier together. Each service key has a record that only its collector
 changes; the notifier may read any snapshot ever published, in any order, any number of times,
 and may crash between any two steps.

 Two logs are kept beside the program's own state: `born`, every message that reached the state
 file, and `out`, the messages that may have been delivered: recorded as sent or uncertain, or
 found claimed, with the outcome lost, when a run starts.
 */
module AlertProtocol {
  import opened Prelude
  import opened IncidentTracking
  import opened AlertOutbox
  import opened ServiceReports
  import D = AlertDispatch
  import S = AlertSafety

  /** The snapshots of one record, oldest first. */
  type Snapshots = seq<History>

  /** What is logged of a stored message: its identity and the incident it is about. */
  datatype Stored = Stored(id: ItemId, tag: Option<Tag>)

  function Mark(x: Item): Stored {
    Stored(x.id, x.tag)
  }

  function Marks(xs: seq<Item>): seq<Stored> {
    seq(|xs|, i requires 0 <= i < |xs| => Mark(xs[i]))
  }

  predicate Of(m: Stored, key: Key) {
    m.tag.Some? && m.id.Queued? && m.id.key == key
  }

  datatype System = System(world: D.World, sources: map<Key, Snapshots>, born: seq<Stored>, out: set<ItemId>)

  datatype Action =
    | Collect(key: Key, happenings: seq<Happening>)
    | Notifier(act: S.Action)

  ghost function Begun(keys: set<Key>): System {
    System(D.START, map k | k in keys :: [FRESH], [], {})
  }

  ghost predicate Genuine(published: Snapshots, r: Report) {
    exists q | 0 <= q < |published| :: Describes(r, published[q])
  }

  /** The notifier is shown only what collectors published, and its plain sources have keys of
      their own. */
  ghost predicate PollTruthful(sources: map<Key, Snapshots>, p: D.Poll) {
    match p
    case Nothing => true
    case ServicePoll(key, r) => key in sources && Named(r) && Genuine(sources[key], r)
    case PlainPoll(key, _) => key !in sources
  }

  ghost predicate Truthful(sources: map<Key, Snapshots>, polls: seq<D.Poll>) {
    forall p | p in polls :: PollTruthful(sources, p)
  }

  function Relived(h: History, xs: seq<Happening>): History {
    if xs == [] then h else Lived(Relived(h, xs[..|xs| - 1]), xs[|xs| - 1])
  }

  predicate Delivered(item: Item) {
    item.delivery == Sent || item.delivery == Uncertain
  }

  function DeliveredIds(outbox: seq<Item>): set<ItemId> {
    set x | x in outbox && Delivered(x) :: x.id
  }

  function ReachedIds(outbox: seq<Item>): set<ItemId> {
    set x | x in outbox && Reached(x.delivery) :: x.id
  }

  /** The messages a run has added in memory. */
  function Added(disk: State, mem: State): seq<Stored> {
    Grown(Trim(disk), mem)
  }

  function Grown(s: State, t: State): seq<Stored> {
    if |s.outbox| <= |t.outbox| then Marks(t.outbox[|s.outbox|..]) else []
  }

  ghost function Step(s: System, a: Action): System {
    match a
    case Collect(key, xs) =>
      if key in s.sources && s.sources[key] != [] then
        var past := s.sources[key];
        s.(sources := s.sources[key := past + [Relived(past[|past| - 1], xs)]])
      else s
    case Notifier(act) =>
      if act.Start? && !Truthful(s.sources, act.polls) then s
      else
        var next := S.Step(s.world, act);
        var saved := act.Next? && s.world.process.Up? && s.world.process.at.Fresh?;
        System(next, s.sources,
               if saved then s.born + Added(s.world.disk, s.world.process.mem) else s.born,
               s.out + DeliveredIds(next.disk.outbox) +
               (if act.Start? && s.world.process.Down? then ReachedIds(s.world.disk.outbox) else {}))
  }

  ghost function Exec(s: System, actions: seq<Action>): System
    decreases |actions|
  {
    if actions == [] then s else Step(Exec(s, actions[..|actions| - 1]), actions[|actions| - 1])
  }

  // ----- Snapshots of one record -----

  ghost predicate Ordered(published: Snapshots) {
    && published != []
    && (forall q | 0 <= q < |published| :: Sound(published[q]))
    && (forall p, q | 0 <= p <= q < |published| :: Succeeds(published[p], published[q]))
  }

  lemma {:induction false} RelivedSucceeds(h: History, xs: seq<Happening>)
    requires Sound(h)
    ensures Sound(Relived(h, xs)) && Succeeds(h, Relived(h, xs))
  {
    if xs != [] {
      RelivedSucceeds(h, xs[..|xs| - 1]);
      SoundStep(Relived(h, xs[..|xs| - 1]), xs[|xs| - 1]);
      SucceedsStep(Relived(h, xs[..|xs| - 1]), xs[|xs| - 1]);
      SucceedsTransitive(h, Relived(h, xs[..|xs| - 1]), Relived(h, xs));
    }
  }

  lemma PublishOrdered(published: Snapshots, xs: seq<Happening>)
    requires Ordered(published)
    ensures Ordered(published + [Relived(published[|published| - 1], xs)])
  {
    var last := published[|published| - 1];
    var next := Relived(last, xs);
    RelivedSucceeds(last, xs);
    forall p | 0 <= p < |published| ensures Succeeds(published[p], next) {
      SucceedsTransitive(published[p], last, next);
    }
    SucceedsReflexive(next);
  }

  lemma SucceedsReflexive(h: History)
    ensures Succeeds(h, h)
  {
  }

  /** The incident is the one under way, or is over for good. */
  ghost predicate Announced(r: Report, i: nat) {
    r.status == Alarm && r.incident == Some(i)
  }

  ghost predicate Passed(r: Report, i: nat) {
    r.sequence >= i && r.incident != Some(i)
  }

  /** What the consumer's checks leave: the new report is from the same moment or a later one. */
  ghost predicate Follows(r: Report, later: Report) {
    && r.sequence <= later.sequence
    && (later.incident.Some? ==> later.incident == r.incident || later.incident.value > r.sequence)
    && (r.sequence == later.sequence ==> r.openedAt == later.openedAt)
    && (r.incident.Some? ==> r.incident.value == r.sequence)
    && (later.incident.Some? ==> later.incident.value == later.sequence)
    && (later.incident == None && later.closed.Some? ==> later.closed.value == later.sequence)
  }

  lemma GenuineFollows(published: Snapshots, prev: Cursor, r: Report, later: Report)
    requires Ordered(published) && Genuine(published, r) && Genuine(published, later)
    requires prev.report == Some(r) && !Regressed(prev, later)
    ensures Follows(r, later)
  {
    var p :| 0 <= p < |published| && Describes(r, published[p]);
    var q :| 0 <= q < |published| && Describes(later, published[q]);
    if p <= q {
      assert Succeeds(published[p], published[q]);
    } else {
      assert Succeeds(published[q], published[p]);
    }
  }

  // ----- The invariant of one service key -----

  ghost predicate IsAbout(m: Stored, key: Key, event: Level, i: nat) {
    Of(m, key) && m.tag.value.event == event && m.tag.value.incident == i
  }

  ghost predicate AlarmWent(born: seq<Stored>, out: set<ItemId>, key: Key, i: nat) {
    exists b | b in born :: IsAbout(b, key, Alarm, i) && b.id in out
  }

  ghost predicate ReceiptFor(c: Cursor) {
    && c.report.Some? && c.receipt.Some?
    && c.report.value.incident == Some(c.receipt.value.incident)
    && c.receipt.value.openedAt == c.report.value.openedAt
    && (c.receipt.value.delivery == Sent || c.receipt.value.delivery == Uncertain)
  }

  ghost predicate LostClaim(outbox: seq<Item>, out: set<ItemId>, key: Key, i: nat) {
    exists x | x in outbox :: IsAbout(Mark(x), key, Alarm, i) && x.delivery == Attempted && x.id in out
  }

  /** The incident opened at this time, by the record itself. */
  ghost predicate OpenedThen(published: Snapshots, i: nat, at: Option<real>) {
    exists q | 0 <= q < |published| :: published[q].incident == Some(i) && published[q].openedAt == at
  }

  ghost predicate CursorTrue(c: Cursor, published: Snapshots) {
    && c.report.Some? && c.status == c.report.value.status && c.status != Unknown
    && Genuine(published, c.report.value)
  }

  /** Every message ever stored agrees with how far the cursor has come. */
  ghost predicate BornBefore(c: Option<Cursor>, key: Key, born: seq<Stored>, out: set<ItemId>, published: Snapshots) {
    forall b | b in born && Of(b, key) ::
      && c.Some? && c.value.report.Some? && b.id.sequence <= c.value.sequence
      && var r := c.value.report.value; var i := b.tag.value.incident;
         && (b.tag.value.event == Alarm ==>
               (Announced(r, i) || Passed(r, i)) && OpenedThen(published, i, b.tag.value.openedAt))
         && (b.tag.value.event != Alarm ==>
               b.tag.value.event == Normal && Passed(r, i) && AlarmWent(born, out, key, i))
  }

  ghost predicate OutboxTrue(outbox: seq<Item>, key: Key, born: seq<Stored>, out: set<ItemId>) {
    forall x | x in outbox && About(x, key) ::
      && Mark(x) in born
      && (x.id in out ==> Reached(x.delivery))
  }

  ghost predicate ReceiptTrue(c: Cursor, outbox: seq<Item>, key: Key, born: seq<Stored>, out: set<ItemId>) {
    && (c.receipt.Some? ==> AlarmWent(born, out, key, c.receipt.value.incident))
    && (c.status == Alarm && c.report.Some? && c.report.value.incident.Some? ==>
          var i := c.report.value.incident.value;
          && (AlarmWent(born, out, key, i) ==> ReceiptFor(c) || LostClaim(outbox, out, key, i))
          && (forall x | x in outbox && IsAbout(Mark(x), key, Alarm, i) && Delivered(x) :: ReceiptFor(c)))
  }

  /** The alarm the cursor stands at has been stored. */
  ghost predicate AlarmStored(c: Cursor, key: Key, born: seq<Stored>) {
    c.status == Alarm && c.report.Some? && c.report.value.incident.Some? ==>
      exists b | b in born :: IsAbout(b, key, Alarm, c.report.value.incident.value)
  }

  ghost predicate KeyInv(s: State, key: Key, born: seq<Stored>, out: set<ItemId>, published: Snapshots) {
    && (key in s.cursors ==>
          && CursorTrue(s.cursors[key], published)
          && ReceiptTrue(s.cursors[key], s.outbox, key, born, out)
          && AlarmStored(s.cursors[key], key, born))
    && BornBefore(At(s, key), key, born, out, published)
    && OutboxTrue(s.outbox, key, born, out)
  }

  /** No message is stored twice: neither under one identity nor for one turn of one incident. */
  ghost predicate BornOnce(born: seq<Stored>) {
    forall i, j | 0 <= i < j < |born| ::
      && born[i].id != born[j].id
      && !(born[i].tag.Some? && born[j].tag.Some? && born[i].id.Queued? && born[j].id.Queued?
           && born[i].id.key == born[j].id.key && born[i].tag.value.event == born[j].tag.value.event
           && born[i].tag.value.incident == born[j].tag.value.incident)
  }

  // ----- Nothing that happens elsewhere disturbs a key -----

  lemma MoreSnapshots(s: State, key: Key, born: seq<Stored>, out: set<ItemId>, published: Snapshots, h: History)
    requires KeyInv(s, key, born, out, published)
    ensures KeyInv(s, key, born, out, published + [h])
  {
    var longer := published + [h];
    assert forall q | 0 <= q < |published| :: longer[q] == published[q];
    forall i: nat, at | OpenedThen(published, i, at) ensures OpenedThen(longer, i, at) {
      var q :| 0 <= q < |published| && published[q].incident == Some(i) && published[q].openedAt == at;
      assert longer[q].incident == Some(i) && longer[q].openedAt == at;
    }
    forall r | Genuine(published, r) ensures Genuine(longer, r) {
      var q :| 0 <= q < |published| && Describes(r, published[q]);
      assert Describes(r, longer[q]);
    }
  }

  ghost predicate SameFor(key: Key, xs: seq<Item>, ys: seq<Item>) {
    forall x | About(x, key) :: x in xs <==> x in ys
  }

  ghost predicate SameLog(key: Key, xs: seq<Stored>, ys: seq<Stored>) {
    forall m | Of(m, key) :: m in xs <==> m in ys
  }

  /** The invariant only looks at the cursor, the messages and the log entries of its own key. */
  lemma Elsewhere(s: State, t: State, key: Key, born: seq<Stored>, grown: seq<Stored>, out: set<ItemId>, published: Snapshots)
    requires KeyInv(s, key, born, out, published)
    requires At(s, key) == At(t, key) && SameFor(key, s.outbox, t.outbox)
    requires SameLog(key, born, grown)
    ensures KeyInv(t, key, grown, out, published)
  {
    assert forall i :: AlarmWent(born, out, key, i) <==> AlarmWent(grown, out, key, i);
  }

  /** Dropping resolved messages loses nothing: a delivered alarm has left its receipt. */
  lemma TrimInv(s: State, key: Key, born: seq<Stored>, out: set<ItemId>, published: Snapshots)
    requires KeyInv(s, key, born, out, published)
    ensures KeyInv(Trim(s), key, born, out, published)
  {
    S.TrimKeeps(s);
    var t := Trim(s);
    forall i | LostClaim(s.outbox, out, key, i) ensures LostClaim(t.outbox, out, key, i) {
      var x :| x in s.outbox && IsAbout(Mark(x), key, Alarm, i) && x.delivery == Attempted && x.id in out;
      assert x in t.outbox;
    }
  }

  // ----- One service report -----

  ghost predicate ReachedOut(outbox: seq<Item>, out: set<ItemId>) {
    forall x | x in outbox && Reached(x.delivery) :: x.id in out
  }

  /** Every message is one that was there before, the same or withdrawn, and claims stay. */
  ghost predicate OnlyWithdrawn(before: seq<Item>, after: seq<Item>) {
    && (forall x | x in after :: x in before || (x.delivery == Superseded && x.(delivery := Waiting) in before))
    && (forall x | x in before && x.delivery == Attempted :: x in after)
  }

  lemma ReviewWithdraws(outbox: seq<Item>, key: Key, r: Report)
    ensures OnlyWithdrawn(outbox, ReviewAll(outbox, key, r))
  {
    var after := ReviewAll(outbox, key, r);
    forall x | x in after ensures x in outbox || (x.delivery == Superseded && x.(delivery := Waiting) in outbox) {
      var k :| 0 <= k < |after| && after[k] == x;
      assert outbox[k] in outbox && (x == outbox[k] || x.(delivery := Waiting) == outbox[k]);
    }
    forall x | x in outbox && x.delivery == Attempted ensures x in after {
      var k :| 0 <= k < |outbox| && outbox[k] == x;
      assert after[k] == x;
    }
  }

  lemma WithdrawnInv(s: State, outbox: seq<Item>, key: Key, born: seq<Stored>, out: set<ItemId>, published: Snapshots)
    requires KeyInv(s, key, born, out, published) && OnlyWithdrawn(s.outbox, outbox)
    ensures OutboxTrue(outbox, key, born, out)
    ensures key in s.cursors ==> ReceiptTrue(s.cursors[key], outbox, key, born, out)
  {
    forall x | x in outbox && About(x, key) ensures Mark(x) in born && (x.id in out ==> Reached(x.delivery)) {
      if x !in s.outbox {
        var y := x.(delivery := Waiting);
        assert y in s.outbox && Mark(y) == Mark(x) && About(y, key);
      }
    }
    forall i: nat | LostClaim(s.outbox, out, key, i) ensures LostClaim(outbox, out, key, i) {
      var x :| x in s.outbox && IsAbout(Mark(x), key, Alarm, i) && x.delivery == Attempted && x.id in out;
      assert x in outbox;
    }
  }

  lemma ReviewInv(s: State, key: Key, r: Report, born: seq<Stored>, out: set<ItemId>, published: Snapshots)
    requires KeyInv(s, key, born, out, published)
    ensures KeyInv(s.(outbox := ReviewAll(s.outbox, key, r)), key, born, out, published)
    ensures ReachedOut(s.outbox, out) ==> ReachedOut(ReviewAll(s.outbox, key, r), out)
  {
    ReviewWithdraws(s.outbox, key, r);
    WithdrawnInv(s, ReviewAll(s.outbox, key, r), key, born, out, published);
  }

  /** An incident the record is in now was announced just before, or never. */
  lemma StillAnnounced(prev: Cursor, r: Report, key: Key, born: seq<Stored>, out: set<ItemId>,
                       published: Snapshots, b: Stored, i: nat)
    requires BornBefore(Some(prev), key, born, out, published) && b in born && IsAbout(b, key, Alarm, i)
    requires prev.report.Some? && Follows(prev.report.value, r) && r.incident == Some(i)
    ensures Announced(prev.report.value, i)
  {
  }

  /** A message that falls due is the first of its kind for its incident. */
  lemma DueIsNew(s: State, key: Key, r: Report, born: seq<Stored>, out: set<ItemId>, published: Snapshots, i: nat)
    requires KeyInv(s, key, born, out, published) && Named(r) && Ordered(published) && Genuine(published, r)
    requires At(s, key).Some? ==> !Regressed(At(s, key).value, r)
    requires EventDue(At(s, key), s.outbox, key, r)
    requires Some(i) == if r.status == Alarm then r.incident else r.closed
    ensures forall b | b in born :: !IsAbout(b, key, r.status, i)
  {
    forall b | b in born ensures !IsAbout(b, key, r.status, i) {
      if IsAbout(b, key, r.status, i) {
        var prev := At(s, key).value;
        GenuineFollows(published, prev, prev.report.value, r);
      }
    }
  }

  /** A recovery falls due only for an incident whose alarm went out. */
  lemma RecoveryHasAlarm(s: State, key: Key, r: Report, born: seq<Stored>, out: set<ItemId>, published: Snapshots)
    requires KeyInv(s, key, born, out, published) && ReachedOut(s.outbox, out)
    requires r.status == Normal && EventDue(At(s, key), s.outbox, key, r)
    ensures r.closed.Some? && AlarmWent(born, out, key, r.closed.value)
  {
    var prev := At(s, key);
    if !Receipted(KeptReceipt(prev, r), r) {
      var k :| 0 <= k < |s.outbox| && IsAlarmOut(s.outbox[k], key, r.closed);
      assert s.outbox[k] in s.outbox;
      assert IsAbout(Mark(s.outbox[k]), key, Alarm, r.closed.value);
    }
  }

  /** The receipt of an alarm still under way survives the next report about it. */
  lemma ReceiptSurvives(prev: Cursor, r: Report, sequence: nat)
    requires prev.report.Some? && Follows(prev.report.value, r) && ReceiptFor(prev)
    requires r.incident.Some? && prev.report.value.incident == r.incident
    ensures ReceiptFor(Cursor(r.status, sequence, Some(r), KeptReceipt(Some(prev), r)))
  {
  }

  lemma CursorReceipt(s: State, key: Key, r: Report, sequence: nat, born: seq<Stored>, grown: seq<Stored>,
                      out: set<ItemId>, published: Snapshots)
    requires KeyInv(s, key, born, out, published) && Ordered(published) && Genuine(published, r)
    requires At(s, key).Some? ==> !Regressed(At(s, key).value, r)
    requires forall b | b in born :: b in grown
    requires forall b | b in grown && Of(b, key) && b.id in out :: b in born
    ensures ReceiptTrue(Cursor(r.status, sequence, Some(r), KeptReceipt(At(s, key), r)), s.outbox, key, grown, out)
  {
    var prev := At(s, key);
    if prev.Some? {
      GenuineFollows(published, prev.value, prev.value.report.value, r);
      if r.status == Alarm && r.incident.Some? {
        var i := r.incident.value;
        forall b | b in born && IsAbout(b, key, Alarm, i)
          ensures prev.value.status == Alarm && prev.value.report.value.incident == Some(i)
        {
          StillAnnounced(prev.value, r, key, born, out, published, b, i);
        }
        if ReceiptFor(prev.value) && prev.value.report.value.incident == Some(i) {
          ReceiptSurvives(prev.value, r, sequence);
        }
        forall x | x in s.outbox && IsAbout(Mark(x), key, Alarm, i) && Delivered(x)
          ensures ReceiptFor(Cursor(r.status, sequence, Some(r), KeptReceipt(prev, r)))
        {
          assert Mark(x) in born;
        }
      }
    }
  }

  /** Moving the cursor on keeps the log behind it. */
  lemma CursorBehind(s: State, key: Key, r: Report, sequence: nat, born: seq<Stored>, out: set<ItemId>,
                     published: Snapshots)
    requires KeyInv(s, key, born, out, published) && Ordered(published) && Genuine(published, r) && r.status != Unknown
    requires At(s, key).Some? ==> !Regressed(At(s, key).value, r) && At(s, key).value.sequence <= sequence
    ensures BornBefore(Some(Cursor(r.status, sequence, Some(r), KeptReceipt(At(s, key), r))), key, born, out, published)
  {
    var q :| 0 <= q < |published| && Describes(r, published[q]);
    var prev := At(s, key);
    forall b | b in born && Of(b, key)
      ensures b.id.sequence <= sequence
      ensures b.tag.value.event == Alarm ==> Announced(r, b.tag.value.incident) || Passed(r, b.tag.value.incident)
      ensures b.tag.value.event != Alarm ==> Passed(r, b.tag.value.incident)
    {
      GenuineFollows(published, prev.value, prev.value.report.value, r);
    }
  }

  /** The new message itself, if one fell due. */
  lemma NewMessage(s: State, key: Key, r: Report, now: real, born: seq<Stored>, out: set<ItemId>, published: Snapshots)
    requires KeyInv(s, key, born, out, published) && Named(r) && Ordered(published) && Genuine(published, r)
    requires At(s, key).Some? ==> !Regressed(At(s, key).value, r)
    requires ReachedOut(s.outbox, out) && EventDue(At(s, key), s.outbox, key, r)
    ensures var m := Mark(Message(key, NextSequence(At(s, key)), r, now));
            var i := m.tag.value.incident;
            && (r.status == Alarm ==> Announced(r, i) && OpenedThen(published, i, m.tag.value.openedAt))
            && (r.status == Normal ==> Passed(r, i) && AlarmWent(born, out, key, i))
  {
    var q :| 0 <= q < |published| && Describes(r, published[q]);
    assert Sound(published[q]);
    if r.status == Normal {
      RecoveryHasAlarm(s, key, r, born, out, published);
    }
  }

  /** One report that is not withheld: the cursor moves and perhaps a message is stored. */
  lemma AcceptedReport(s: State, key: Key, r: Report, now: real, born: seq<Stored>, out: set<ItemId>,
                       published: Snapshots)
    requires KeyInv(s, key, born, out, published) && Named(r) && Ordered(published) && Genuine(published, r)
    requires At(s, key).Some? ==> !Regressed(At(s, key).value, r)
    requires ReachedOut(s.outbox, out) && r.status != Unknown
    requires Queued(key, NextSequence(At(s, key))) !in out
    ensures var prev := At(s, key);
            var due := EventDue(prev, s.outbox, key, r);
            var sequence := if due then NextSequence(prev) else NextSequence(prev) - 1;
            var cursor := Cursor(r.status, sequence, Some(r), KeptReceipt(prev, r));
            if due then
              var m := Message(key, sequence, r, now);
              KeyInv(s.(cursors := s.cursors[key := cursor], outbox := s.outbox + [m]), key, born + [Mark(m)], out, published)
            else
              KeyInv(s.(cursors := s.cursors[key := cursor]), key, born, out, published)
  {
    var prev := At(s, key);
    var due := EventDue(prev, s.outbox, key, r);
    var sequence := if due then NextSequence(prev) else NextSequence(prev) - 1;
    CursorBehind(s, key, r, sequence, born, out, published);
    if due {
      var m := Message(key, sequence, r, now);
      var grown := born + [Mark(m)];
      NewMessage(s, key, r, now, born, out, published);
      CursorReceipt(s, key, r, sequence, born, grown, out, published);
      assert forall i | AlarmWent(born, out, key, i) :: AlarmWent(grown, out, key, i);
      GrownKey(s, key, r, now, sequence, born, out, published);
    } else {
      CursorReceipt(s, key, r, sequence, born, born, out, published);
    }
  }

  lemma ReceiptGrown(c: Cursor, outbox: seq<Item>, m: Item, key: Key, born: seq<Stored>, out: set<ItemId>)
    requires ReceiptTrue(c, outbox, key, born, out) && !Delivered(m)
    ensures ReceiptTrue(c, outbox + [m], key, born, out)
  {
    forall i: nat | LostClaim(outbox, out, key, i) ensures LostClaim(outbox + [m], out, key, i) {
      var x :| x in outbox && IsAbout(Mark(x), key, Alarm, i) && x.delivery == Attempted && x.id in out;
      assert x in outbox + [m];
    }
  }

  lemma GrownKey(s: State, key: Key, r: Report, now: real, sequence: nat, born: seq<Stored>, out: set<ItemId>,
                 published: Snapshots)
    requires r.status == Alarm ==> r.incident.Some?
    requires r.status == Normal ==> r.closed.Some?
    requires r.status != Unknown && Genuine(published, r)
    requires OutboxTrue(s.outbox, key, born, out) && Queued(key, sequence) !in out
    requires var cursor := Cursor(r.status, sequence, Some(r), KeptReceipt(At(s, key), r));
             var m := Mark(Message(key, sequence, r, now)); var i := m.tag.value.incident;
             && BornBefore(Some(cursor), key, born, out, published)
             && ReceiptTrue(cursor, s.outbox, key, born + [m], out)
             && (r.status == Alarm ==> Announced(r, i) && OpenedThen(published, i, m.tag.value.openedAt))
             && (r.status == Normal ==> Passed(r, i) && AlarmWent(born, out, key, i))
    ensures var cursor := Cursor(r.status, sequence, Some(r), KeptReceipt(At(s, key), r));
            var m := Message(key, sequence, r, now);
            KeyInv(s.(cursors := s.cursors[key := cursor], outbox := s.outbox + [m]), key, born + [Mark(m)], out, published)
  {
    var cursor := Cursor(r.status, sequence, Some(r), KeptReceipt(At(s, key), r));
    var m := Message(key, sequence, r, now);
    var grown := born + [Mark(m)];
    assert forall i | AlarmWent(born, out, key, i) :: AlarmWent(grown, out, key, i);
    assert BornBefore(Some(cursor), key, grown, out, published);
    ReceiptGrown(cursor, s.outbox, m, key, grown, out);
    assert OutboxTrue(s.outbox + [m], key, grown, out);
  }

  // ----- All keys at once -----

  ghost predicate Good(s: State, born: seq<Stored>, out: set<ItemId>, sources: map<Key, Snapshots>) {
    && (forall key | key in sources :: KeyInv(s, key, born, out, sources[key]))
    && (forall b | b in born :: S.Known(s, b.id))
    && (forall id | id in out :: S.Known(s, id))
    && (forall x | x in s.outbox :: Mark(x) in born)
    && (forall x | x in s.outbox && Delivered(x) :: x.id in out)
  }

  ghost predicate AllOrdered(sources: map<Key, Snapshots>) {
    forall key | key in sources :: Ordered(sources[key])
  }

  /** Messages are only added behind the ones that were there. */
  ghost predicate MarksKept(s: State, t: State) {
    |s.outbox| <= |t.outbox| && forall i | 0 <= i < |s.outbox| :: Mark(t.outbox[i]) == Mark(s.outbox[i])
  }

  ghost predicate PollGood(s: State, t: State, born: seq<Stored>, out: set<ItemId>, sources: map<Key, Snapshots>) {
    && MarksKept(s, t)
    && Good(t, born + Grown(s, t), out, sources)
    && BornOnce(born + Grown(s, t))
    && ReachedOut(t.outbox, out)
  }

  lemma NothingGrown(s: State, t: State, born: seq<Stored>)
    requires |s.outbox| == |t.outbox|
    ensures born + Grown(s, t) == born
  {
  }

  lemma OneGrown(s: State, t: State, xs: seq<Item>, m: Item)
    requires t.outbox == xs + [m] && |xs| == |s.outbox|
    ensures Grown(s, t) == [Mark(m)]
  {
    assert t.outbox[|s.outbox|..] == [m];
  }

  lemma ReviewedElsewhere(outbox: seq<Item>, key: Key, r: Report, other: Key)
    requires other != key
    ensures SameFor(other, outbox, ReviewAll(outbox, key, r))
  {
    var after := ReviewAll(outbox, key, r);
    forall x | About(x, other) ensures x in outbox <==> x in after {
      if x in outbox {
        var k :| 0 <= k < |outbox| && outbox[k] == x;
        assert after[k] == x;
      }
      if x in after {
        var k :| 0 <= k < |after| && after[k] == x;
        assert outbox[k] == x;
      }
    }
  }

  lemma ReviewGood(s: State, key: Key, r: Report, born: seq<Stored>, out: set<ItemId>, sources: map<Key, Snapshots>)
    requires Good(s, born, out, sources) && ReachedOut(s.outbox, out)
    ensures Good(s.(outbox := ReviewAll(s.outbox, key, r)), born, out, sources)
    ensures ReachedOut(ReviewAll(s.outbox, key, r), out)
  {
    var t := s.(outbox := ReviewAll(s.outbox, key, r));
    forall other | other in sources ensures KeyInv(t, other, born, out, sources[other]) {
      if other == key {
        ReviewInv(s, key, r, born, out, sources[key]);
      } else {
        ReviewedElsewhere(s.outbox, key, r, other);
        Elsewhere(s, t, other, born, born, out, sources[other]);
      }
    }
    forall id | S.Known(s, id) ensures S.Known(t, id) {}
    ReviewWithdraws(s.outbox, key, r);
    forall x | x in t.outbox ensures Mark(x) in born && (Reached(x.delivery) ==> x.id in out) {
      if x !in s.outbox {
        assert Mark(x.(delivery := Waiting)) == Mark(x);
      }
    }
  }

  /** A stored message added for one key leaves the others as they were. */
  lemma AddedElsewhere(s: State, cursors: map<Key, Cursor>, m: Item, key: Key, other: Key, born: seq<Stored>,
                       out: set<ItemId>, published: Snapshots)
    requires KeyInv(s, other, born, out, published) && other != key
    requires At(s, other) == (if other in cursors then Some(cursors[other]) else None)
    requires m.id.Queued? ==> m.id.key == key
    ensures KeyInv(s.(cursors := cursors, outbox := s.outbox + [m]), other, born + [Mark(m)], out, published)
    ensures KeyInv(s.(cursors := cursors), other, born, out, published)
  {
    Elsewhere(s, s.(cursors := cursors, outbox := s.outbox + [m]), other, born, born + [Mark(m)], out, published);
    Elsewhere(s, s.(cursors := cursors), other, born, born, out, published);
  }

  lemma BornOnceMore(born: seq<Stored>, m: Stored)
    requires BornOnce(born) && (forall b | b in born :: b.id != m.id)
    requires m.tag.Some? && m.id.Queued? ==>
               forall b | b in born :: !IsAbout(b, m.id.key, m.tag.value.event, m.tag.value.incident)
    ensures BornOnce(born + [m])
  {
    forall i | 0 <= i < |born| ensures born[i] in born {}
  }

  lemma PollGoodSame(s: State, t: State, born: seq<Stored>, out: set<ItemId>, sources: map<Key, Snapshots>)
    requires |s.outbox| == |t.outbox| && MarksKept(s, t)
    requires Good(t, born, out, sources) && BornOnce(born) && ReachedOut(t.outbox, out)
    ensures PollGood(s, t, born, out, sources)
  {
    NothingGrown(s, t, born);
  }

  lemma PollGoodMore(s: State, t: State, xs: seq<Item>, m: Item, born: seq<Stored>, out: set<ItemId>,
                     sources: map<Key, Snapshots>)
    requires t.outbox == xs + [m] && |xs| == |s.outbox| && (forall i | 0 <= i < |xs| :: Mark(xs[i]) == Mark(s.outbox[i]))
    requires Good(t, born + [Mark(m)], out, sources) && BornOnce(born + [Mark(m)]) && ReachedOut(t.outbox, out)
    ensures PollGood(s, t, born, out, sources)
  {
    OneGrown(s, t, xs, m);
  }

  function NewCursor(s: State, key: Key, r: Report, due: bool): Cursor {
    var prev := At(s, key);
    Cursor(r.status, if due then NextSequence(prev) else NextSequence(prev) - 1, Some(r), KeptReceipt(prev, r))
  }

  lemma CursorKnows(s: State, key: Key, r: Report, due: bool, outbox: seq<Item>)
    ensures var t := s.(cursors := s.cursors[key := NewCursor(s, key, r, due)], outbox := outbox);
            && (forall id | S.Known(s, id) :: S.Known(t, id))
            && !S.Known(s, Queued(key, NextSequence(At(s, key))))
            && (due ==> S.Known(t, Queued(key, NextSequence(At(s, key)))))
  {
  }

  /** A report taken in with a message: the message is new under every name. */
  lemma AcceptedWithMessage(s: State, key: Key, r: Report, now: real, born: seq<Stored>, out: set<ItemId>,
                            sources: map<Key, Snapshots>)
    requires Good(s, born, out, sources) && BornOnce(born) && AllOrdered(sources) && ReachedOut(s.outbox, out)
    requires key in sources && Named(r) && Genuine(sources[key], r) && r.status != Unknown
    requires At(s, key).Some? ==> !Regressed(At(s, key).value, r)
    requires EventDue(At(s, key), s.outbox, key, r)
    ensures var m := Message(key, NextSequence(At(s, key)), r, now);
            var t := s.(cursors := s.cursors[key := NewCursor(s, key, r, true)], outbox := s.outbox + [m]);
            Good(t, born + [Mark(m)], out, sources) && BornOnce(born + [Mark(m)])
  {
    var m := Message(key, NextSequence(At(s, key)), r, now);
    var t := s.(cursors := s.cursors[key := NewCursor(s, key, r, true)], outbox := s.outbox + [m]);
    CursorKnows(s, key, r, true, s.outbox + [m]);
    AcceptedReport(s, key, r, now, born, out, sources[key]);
    DueIsNew(s, key, r, born, out, sources[key], m.tag.value.incident);
    BornOnceMore(born, Mark(m));
    AllElsewhere(s, t, m, key, born, out, sources);
    GoodWithItem(s, t, m, born, out, sources);
  }

  lemma GoodWithItem(s: State, t: State, m: Item, born: seq<Stored>, out: set<ItemId>, sources: map<Key, Snapshots>)
    requires Good(s, born, out, sources) && t.outbox == s.outbox + [m] && !Delivered(m)
    requires (forall id | S.Known(s, id) :: S.Known(t, id)) && S.Known(t, m.id)
    requires forall key | key in sources :: KeyInv(t, key, born + [Mark(m)], out, sources[key])
    ensures Good(t, born + [Mark(m)], out, sources)
  {
    assert forall b | b in born + [Mark(m)] :: b in born || b == Mark(m);
    assert forall x | x in t.outbox :: x in s.outbox || x == m;
  }

  lemma AllElsewhere(s: State, t: State, m: Item, key: Key, born: seq<Stored>, out: set<ItemId>,
                     sources: map<Key, Snapshots>)
    requires Good(s, born, out, sources) && m.id.Queued? && m.id.key == key
    requires t == s.(cursors := t.cursors, outbox := s.outbox + [m]) && forall other | other != key :: At(s, other) == At(t, other)
    ensures forall other | other in sources && other != key :: KeyInv(t, other, born + [Mark(m)], out, sources[other])
  {
    forall other | other in sources && other != key
      ensures KeyInv(t, other, born + [Mark(m)], out, sources[other])
    {
      AddedElsewhere(s, t.cursors, m, key, other, born, out, sources[other]);
    }
  }

  lemma AcceptedQuietly(s: State, key: Key, r: Report, now: real, born: seq<Stored>, out: set<ItemId>,
                        sources: map<Key, Snapshots>)
    requires Good(s, born, out, sources) && BornOnce(born) && AllOrdered(sources) && ReachedOut(s.outbox, out)
    requires key in sources && Named(r) && Genuine(sources[key], r) && r.status != Unknown
    requires At(s, key).Some? ==> !Regressed(At(s, key).value, r)
    requires !EventDue(At(s, key), s.outbox, key, r)
    ensures Good(s.(cursors := s.cursors[key := NewCursor(s, key, r, false)]), born, out, sources)
  {
    var t := s.(cursors := s.cursors[key := NewCursor(s, key, r, false)]);
    CursorKnows(s, key, r, false, s.outbox);
    AcceptedReport(s, key, r, now, born, out, sources[key]);
    forall other | other in sources ensures KeyInv(t, other, born, out, sources[other]) {
      if other != key {
        Elsewhere(s, t, other, born, born, out, sources[other]);
      }
    }
  }

  lemma TakenInWithMessage(s: State, key: Key, r: Report, now: real, born: seq<Stored>, out: set<ItemId>,
                           sources: map<Key, Snapshots>, reviewed: seq<Item>)
    requires reviewed == ReviewAll(s.outbox, key, r) && EventDue(At(s, key), reviewed, key, r)
    requires Good(s.(outbox := reviewed), born, out, sources) && ReachedOut(reviewed, out)
    requires BornOnce(born) && AllOrdered(sources)
    requires key in sources && Named(r) && Genuine(sources[key], r) && r.status != Unknown
    requires At(s, key).Some? ==> !Regressed(At(s, key).value, r)
    ensures PollGood(s, s.(cursors := s.cursors[key := NewCursor(s, key, r, true)],
                           outbox := reviewed + [Message(key, NextSequence(At(s, key)), r, now)]), born, out, sources)
  {
    var base := s.(outbox := reviewed);
    assert At(base, key) == At(s, key);
    var m := Message(key, NextSequence(At(s, key)), r, now);
    AcceptedWithMessage(base, key, r, now, born, out, sources);
    var t := base.(cursors := base.cursors[key := NewCursor(base, key, r, true)], outbox := base.outbox + [m]);
    assert NewCursor(base, key, r, true) == NewCursor(s, key, r, true);
    assert t == s.(cursors := s.cursors[key := NewCursor(s, key, r, true)], outbox := reviewed + [m]);
    PollGoodMore(s, t, reviewed, m, born, out, sources);
  }

  lemma TakenInQuietly(s: State, key: Key, r: Report, now: real, born: seq<Stored>, out: set<ItemId>,
                       sources: map<Key, Snapshots>, reviewed: seq<Item>)
    requires reviewed == ReviewAll(s.outbox, key, r) && !EventDue(At(s, key), reviewed, key, r)
    requires Good(s.(outbox := reviewed), born, out, sources) && ReachedOut(reviewed, out)
    requires BornOnce(born) && AllOrdered(sources)
    requires key in sources && Named(r) && Genuine(sources[key], r) && r.status != Unknown
    requires At(s, key).Some? ==> !Regressed(At(s, key).value, r)
    ensures PollGood(s, s.(cursors := s.cursors[key := NewCursor(s, key, r, false)], outbox := reviewed),
                     born, out, sources)
  {
    var base := s.(outbox := reviewed);
    assert At(base, key) == At(s, key);
    AcceptedQuietly(base, key, r, now, born, out, sources);
    var t := base.(cursors := base.cursors[key := NewCursor(base, key, r, false)]);
    assert NewCursor(base, key, r, false) == NewCursor(s, key, r, false);
    assert t == s.(cursors := s.cursors[key := NewCursor(s, key, r, false)], outbox := reviewed);
    PollGoodSame(s, t, born, out, sources);
  }

  lemma ServicePollGood(s: State, key: Key, r: Report, now: real, born: seq<Stored>, out: set<ItemId>,
                        sources: map<Key, Snapshots>)
    requires Good(s, born, out, sources) && BornOnce(born) && AllOrdered(sources) && ReachedOut(s.outbox, out)
    requires key in sources && Named(r) && Genuine(sources[key], r)
    ensures PollGood(s, EnqueueServiceHealth(s, key, r, now).0, born, out, sources)
  {
    var reviewed := ReviewAll(s.outbox, key, r);
    if At(s, key).Some? && Regressed(At(s, key).value, r) {
      PollGoodSame(s, s, born, out, sources);
    } else {
      ReviewGood(s, key, r, born, out, sources);
      if r.status == Unknown {
        PollGoodSame(s, s.(outbox := reviewed), born, out, sources);
      } else if EventDue(At(s, key), reviewed, key, r) {
        TakenInWithMessage(s, key, r, now, born, out, sources, reviewed);
      } else {
        TakenInQuietly(s, key, r, now, born, out, sources, reviewed);
      }
    }
  }

  /** A message without an incident leaves every service key as it was. */
  lemma UntaggedKeys(s: State, t: State, m: Item, key: Key, born: seq<Stored>, grown: seq<Stored>, out: set<ItemId>,
                     sources: map<Key, Snapshots>)
    requires Good(s, born, out, sources) && key !in sources && m.tag == None
    requires forall other | other != key :: At(s, other) == At(t, other)
    requires t.outbox == s.outbox || t.outbox == s.outbox + [m]
    requires grown == born || grown == born + [Mark(m)]
    ensures forall other | other in sources :: KeyInv(t, other, grown, out, sources[other])
  {
    forall other | other in sources ensures KeyInv(t, other, grown, out, sources[other]) {
      Elsewhere(s, t, other, born, grown, out, sources[other]);
    }
  }

  lemma UntaggedGood(s: State, t: State, m: Item, key: Key, born: seq<Stored>, out: set<ItemId>,
                     sources: map<Key, Snapshots>)
    requires Good(s, born, out, sources) && BornOnce(born) && ReachedOut(s.outbox, out)
    requires key !in sources && m.tag == None && m.delivery == Waiting
    requires forall other | other != key :: At(s, other) == At(t, other)
    requires forall id | S.Known(s, id) :: S.Known(t, id)
    requires t.outbox == s.outbox || (t.outbox == s.outbox + [m] && !S.Known(s, m.id) && S.Known(t, m.id))
    ensures PollGood(s, t, born, out, sources)
  {
    if t.outbox == s.outbox {
      UntaggedKeys(s, t, m, key, born, born, out, sources);
      PollGoodSame(s, t, born, out, sources);
    } else {
      UntaggedKeys(s, t, m, key, born, born + [Mark(m)], out, sources);
      BornOnceMore(born, Mark(m));
      PollGoodMore(s, t, s.outbox, m, born, out, sources);
    }
  }

  lemma PollOneGood(s: State, p: D.Poll, now: real, born: seq<Stored>, out: set<ItemId>, sources: map<Key, Snapshots>)
    requires Good(s, born, out, sources) && BornOnce(born) && AllOrdered(sources) && ReachedOut(s.outbox, out)
    requires D.PollOk(p) && PollTruthful(sources, p)
    ensures PollGood(s, D.PollOne(s, p, now), born, out, sources)
  {
    match p
    case Nothing => PollGoodSame(s, s, born, out, sources);
    case ServicePoll(key, r) => ServicePollGood(s, key, r, now, born, out, sources);
    case PlainPoll(key, level) =>
      var m := Item(Queued(key, NextSequence(At(s, key))), Waiting, 0, now, None);
      UntaggedGood(s, EnqueuePlain(s, key, level, now), m, key, born, out, sources);
  }

  lemma GrownTwice(s: State, t: State, u: State)
    requires MarksKept(s, t) && MarksKept(t, u)
    ensures MarksKept(s, u) && Grown(s, u) == Grown(s, t) + Grown(t, u)
  {
  }

  lemma PollGoodTwice(s: State, t: State, u: State, born: seq<Stored>, out: set<ItemId>, sources: map<Key, Snapshots>)
    requires MarksKept(s, t) && PollGood(t, u, born + Grown(s, t), out, sources)
    ensures PollGood(s, u, born, out, sources)
  {
    GrownTwice(s, t, u);
    assert born + Grown(s, u) == born + Grown(s, t) + Grown(t, u);
  }

  lemma {:induction false} PollAllGood(s: State, polls: seq<D.Poll>, now: real, born: seq<Stored>, out: set<ItemId>,
                                       sources: map<Key, Snapshots>)
    requires Good(s, born, out, sources) && BornOnce(born) && AllOrdered(sources) && ReachedOut(s.outbox, out)
    requires D.PollsOk(polls) && Truthful(sources, polls)
    ensures PollGood(s, D.PollAll(s, polls, now), born, out, sources)
  {
    if polls == [] {
      NothingGrown(s, s, born);
    } else {
      var front, last := polls[..|polls| - 1], polls[|polls| - 1];
      assert (forall p | p in front :: p in polls) && last in polls;
      PollAllGood(s, front, now, born, out, sources);
      var t := D.PollAll(s, front, now);
      PollOneGood(t, last, now, born + Grown(s, t), out, sources);
      PollGoodTwice(s, t, D.PollOne(t, last, now), born, out, sources);
    }
  }
}
