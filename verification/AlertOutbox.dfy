/**
 The durable state of scripts/discord-ops-alerts.py: one cursor for each watched dimension and
 the outbox of messages, with the functions that change them: queueing (`EnqueueServiceHealth`,
 `EnqueuePlain`), the bounded tail kept between runs (`Trim`), and the two halves of one
 transport call (`Claim`, `Answer`).
 */
module AlertOutbox {
  import opened Prelude

  datatype Level = Unknown | Normal | Alarm

  datatype Key = Key(source: string, dimension: string)

  /** `source:dimension:sequence`; names and dimensions hold no colon, so the text is unambiguous. */
  datatype ItemId = Queued(key: Key, sequence: nat) | ConnectionTest

  datatype Delivery = Waiting | Attempted | Sent | Uncertain | Rejected | Superseded

  /** What a generation collector says about one dimension of one source. */
  datatype Report = Report(status: Level, incident: Option<nat>, sequence: nat, closed: Option<nat>,
                           openedAt: Option<real>, closedAt: Option<real>, sampleAt: real, observedAt: real)

  /** An alarm always names its incident. */
  predicate Named(r: Report) {
    r.status == Alarm ==> r.incident.Some?
  }

  datatype Receipt = Receipt(incident: nat, openedAt: Option<real>, delivery: Delivery)

  datatype Cursor = Cursor(status: Level, sequence: nat, report: Option<Report>, receipt: Option<Receipt>)

  /** The incident a message of a service source is about. */
  datatype Tag = Tag(event: Level, incident: nat, openedAt: Option<real>, closedAt: Option<real>)

  datatype Item = Item(id: ItemId, delivery: Delivery, attempts: nat, nextAttempt: real, tag: Option<Tag>)

  datatype State = State(cursors: map<Key, Cursor>, outbox: seq<Item>, retryAt: real, testQueued: bool, lastRun: real)

  const NEW_STATE := State(map[], [], 0.0, false, 0.0)

  const MAX_ATTEMPTS := 3
  const MAX_OUTBOX := 1000
  const KEPT := 100

  predicate Reached(d: Delivery) {
    d == Attempted || d == Sent || d == Uncertain
  }

  predicate About(item: Item, key: Key) {
    item.tag.Some? && item.id.Queued? && item.id.key == key
  }

  /** Does the message still say what the source says? */
  predicate Matches(tag: Tag, r: Report) {
    if r.status == Unknown then false
    else if tag.event == Alarm then
      r.status == Alarm && r.incident == Some(tag.incident) && r.openedAt == tag.openedAt
    else
      r.status == Normal && r.incident == None && r.closed == Some(tag.incident) && r.closedAt == tag.closedAt
  }

  /** A report older than what the cursor has already seen, or of another incident history. */
  predicate Regressed(prev: Cursor, r: Report) {
    var was := prev.report;
    || r.sequence < (if was.Some? then was.value.sequence else 0)
    || r.sampleAt < (if was.Some? then was.value.sampleAt else 0.0)
    || r.observedAt < (if was.Some? then was.value.observedAt else 0.0)
    || (was.Some? && r.sequence == was.value.sequence && r.openedAt != was.value.openedAt)
    || (r.closed == (if was.Some? then was.value.closed else None)
        && r.closedAt != (if was.Some? then was.value.closedAt else None))
  }

  /** An unsent message that the source has overtaken is withdrawn. */
  function Review(item: Item, key: Key, r: Report): Item {
    if !About(item, key) || item.delivery != Waiting then item
    else if item.tag.value.event == Normal && !Matches(item.tag.value, r) then item.(delivery := Superseded)
    else if item.tag.value.event == Alarm && r.closed.Some? && item.tag.value.incident <= r.closed.value
            && r.incident != Some(item.tag.value.incident) then item.(delivery := Superseded)
    else item
  }

  function ReviewAll(outbox: seq<Item>, key: Key, r: Report): (reviewed: seq<Item>)
    ensures |reviewed| == |outbox|
    ensures forall i | 0 <= i < |outbox| :: reviewed[i] == Review(outbox[i], key, r)
  {
    seq(|outbox|, i requires 0 <= i < |outbox| => Review(outbox[i], key, r))
  }

  function KeptReceipt(prev: Option<Cursor>, r: Report): Option<Receipt> {
    if prev.Some? && prev.value.receipt.Some?
       && (r.incident == Some(prev.value.receipt.value.incident) || r.closed == Some(prev.value.receipt.value.incident))
    then prev.value.receipt else None
  }

  function OldIncident(prev: Cursor): Option<nat> {
    if prev.report.Some? then prev.report.value.incident else None
  }

  /** Some alarm message about this incident has been handed to the transport. */
  predicate AlarmOut(outbox: seq<Item>, key: Key, incident: Option<nat>) {
    exists i | 0 <= i < |outbox| :: IsAlarmOut(outbox[i], key, incident)
  }

  predicate IsAlarmOut(item: Item, key: Key, incident: Option<nat>) {
    About(item, key) && item.tag.value.event == Alarm && Some(item.tag.value.incident) == incident
    && Reached(item.delivery)
  }

  predicate Receipted(receipt: Option<Receipt>, r: Report) {
    receipt.Some? && Some(receipt.value.incident) == r.closed && receipt.value.openedAt == r.openedAt
    && (receipt.value.delivery == Sent || receipt.value.delivery == Uncertain)
  }

  /** Is a message due? An alarm for an incident not yet announced; a recovery only of the
      incident last announced, and only if its alarm went out. */
  predicate EventDue(prev: Option<Cursor>, outbox: seq<Item>, key: Key, r: Report) {
    match r.status
    case Alarm => prev.None? || prev.value.status != Alarm || OldIncident(prev.value) != r.incident
    case Normal =>
      && prev.Some? && prev.value.status == Alarm && OldIncident(prev.value) == r.closed
      && (Receipted(KeptReceipt(prev, r), r) || AlarmOut(outbox, key, r.closed))
    case Unknown => false
  }

  function At(s: State, key: Key): Option<Cursor> {
    if key in s.cursors then Some(s.cursors[key]) else None
  }

  function NextSequence(prev: Option<Cursor>): nat {
    (if prev.Some? then prev.value.sequence else 0) + 1
  }

  function Message(key: Key, sequence: nat, r: Report, now: real): Item
    requires r.status == Alarm ==> r.incident.Some?
    requires r.status == Normal ==> r.closed.Some?
    requires r.status != Unknown
  {
    Item(Queued(key, sequence), Waiting, 0, now,
         Some(Tag(r.status, if r.status == Alarm then r.incident.value else r.closed.value, r.openedAt, r.closedAt)))
  }

  /** The second result says whether the report may release waiting messages. */
  function EnqueueServiceHealth(s: State, key: Key, r: Report, now: real): (State, bool)
    requires Named(r)
  {
    var prev := At(s, key);
    if prev.Some? && Regressed(prev.value, r) then (s, false)
    else
      var outbox := ReviewAll(s.outbox, key, r);
      if r.status == Unknown then (s.(outbox := outbox), false)
      else
        var due := EventDue(prev, outbox, key, r);
        var sequence := if due then NextSequence(prev) else NextSequence(prev) - 1;
        (s.(cursors := s.cursors[key := Cursor(r.status, sequence, Some(r), KeptReceipt(prev, r))],
            outbox := if due then outbox + [Message(key, sequence, r, now)] else outbox), true)
  }

  function EnqueuePlain(s: State, key: Key, current: Level, now: real): State {
    var prev := At(s, key);
    if current == Unknown || (prev.Some? && prev.value.status == current) then s
    else
      var sequence := NextSequence(prev);
      s.(cursors := s.cursors[key := Cursor(current, sequence, None, None)],
         outbox := if prev.None? && current == Normal then s.outbox
                   else s.outbox + [Item(Queued(key, sequence), Waiting, 0, now, None)])
  }

  function EnqueueTest(s: State, now: real): State {
    if s.testQueued then s
    else s.(outbox := s.outbox + [Item(ConnectionTest, Waiting, 0, now, None)], testQueued := true)
  }

  predicate Completed(item: Item) {
    item.delivery == Sent || item.delivery == Superseded
  }

  function Filter(outbox: seq<Item>, completed: bool): seq<Item> {
    if outbox == [] then []
    else
      Filter(outbox[..|outbox| - 1], completed) +
      (if Completed(outbox[|outbox| - 1]) == completed then [outbox[|outbox| - 1]] else [])
  }

  /** Unresolved messages all stay; of the resolved ones only the newest hundred. */
  function Trim(s: State): State {
    var done := Filter(s.outbox, true);
    s.(outbox := Filter(s.outbox, false) + (if |done| <= KEPT then done else done[|done| - KEPT..]))
  }

  // ----- One transport call -----

  /** The answers the sender distinguishes: acknowledged, rejected, rate limited with a delay,
      refused for good, and anything that leaves the outcome open. */
  datatype Reply = Acknowledged | RejectedOnce | RateLimited(delay: real) | Refused | Ambiguous

  predicate Rejection(r: Reply) {
    r.RejectedOnce? || r.RateLimited?
  }

  function Claim(item: Item): Item {
    item.(attempts := item.attempts + 1, delivery := Attempted)
  }

  function Answer(item: Item, now: real, reply: Reply): Item
    requires item.attempts >= 1
  {
    match reply
    case Acknowledged => item.(delivery := Sent)
    case Ambiguous => item.(delivery := Uncertain)
    case Refused => item.(delivery := Rejected)
    case RejectedOnce =>
      item.(nextAttempt := now + (if item.attempts == 1 then 60.0 else 300.0),
            delivery := if item.attempts >= MAX_ATTEMPTS then Rejected else Waiting)
    case RateLimited(delay) =>
      item.(attempts := item.attempts - 1, nextAttempt := now + delay,
            delivery := if item.attempts - 1 >= MAX_ATTEMPTS then Rejected else Waiting)
  }

  /** A delivered alarm leaves a receipt on its cursor if the cursor is still about it. */
  function Remember(cursors: map<Key, Cursor>, item: Item): map<Key, Cursor> {
    if item.tag.None? || item.tag.value.event != Alarm || !(item.delivery == Sent || item.delivery == Uncertain)
       || !item.id.Queued? || item.id.key !in cursors then cursors
    else
      var cursor := cursors[item.id.key];
      if cursor.report.Some? && cursor.report.value.incident == Some(item.tag.value.incident)
         && cursor.report.value.openedAt == item.tag.value.openedAt then
        cursors[item.id.key := cursor.(receipt := Some(Receipt(item.tag.value.incident, item.tag.value.openedAt,
                                                               item.delivery)))]
      else cursors
  }

  /** Write back item i and remember what became of it. */
  function Put(s: State, i: nat, item: Item): State
    requires i < |s.outbox|
  {
    s.(outbox := s.outbox[i := item], cursors := Remember(s.cursors, item))
  }
}
