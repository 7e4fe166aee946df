/**
 One run of scripts/discord-ops-alerts.py, cut at every write of its state file and at every
 transport call. `Begin` builds the new state in memory; `Tick` is the next atomic step of
 `run` and `dispatch`; `RunToEnd` is a run that nothing interrupts. The class `Dispatcher` is
 the loop of `dispatch` itself, proved to do exactly what `RunToEnd` does.
 */
module AlertDispatch {
  import opened Prelude
  import opened AlertOutbox

  datatype Mode = Mode(now: real, onlyTest: bool, active: set<string>, eligible: set<ItemId>)

  /** Where a run stands. `Fresh`, `Swept`, `Expired`, `Claimed` and `Answered` have changed memory
      and not yet written it. */
  datatype Point =
    | Fresh
    | Sweep(i: nat)
    | Swept(i: nat)
    | Scan(i: nat, tried: nat)
    | Expired(i: nat, tried: nat)
    | Claimed(i: nat, tried: nat)
    | Calling(i: nat, tried: nat)
    | Answered(i: nat, tried: nat, stop: bool)
    | Finished

  datatype Process = Down | Up(mem: State, mode: Mode, at: Point)

  /** A transport call: which message, the answer, the run and its clock, and what the state file
      said then about the shared retry time and the message's own. */
  datatype Call = Call(id: ItemId, reply: Reply, run: nat, now: real, retryAt: real, nextAttempt: real)

  datatype World = World(disk: State, process: Process, calls: seq<Call>, runs: nat)

  const START := World(NEW_STATE, Down, [], 0)

  // ----- The start of a run -----

  /** What one watched dimension shows: nothing usable, a service report, or a plain level. */
  datatype Poll = Nothing | ServicePoll(key: Key, report: Report) | PlainPoll(key: Key, level: Level)

  predicate PollOk(p: Poll) {
    p.ServicePoll? ==> Named(p.report)
  }

  function PollOne(s: State, p: Poll, now: real): State
    requires PollOk(p)
  {
    match p
    case Nothing => s
    case ServicePoll(key, r) => EnqueueServiceHealth(s, key, r, now).0
    case PlainPoll(key, level) => EnqueuePlain(s, key, level, now)
  }

  predicate PollsOk(polls: seq<Poll>) {
    forall p | p in polls :: PollOk(p)
  }

  function PollAll(s: State, polls: seq<Poll>, now: real): State
    requires PollsOk(polls)
  {
    if polls == [] then s
    else PollOne(PollAll(s, polls[..|polls| - 1], now), polls[|polls| - 1], now)
  }

  /** The messages a service report releases: those that still match it. */
  function Released(s: State, p: Poll, now: real): set<ItemId>
    requires PollOk(p)
  {
    if p.ServicePoll? && EnqueueServiceHealth(s, p.key, p.report, now).1 then
      var after := EnqueueServiceHealth(s, p.key, p.report, now).0.outbox;
      set i | 0 <= i < |after| && About(after[i], p.key) && Matches(after[i].tag.value, p.report) :: after[i].id
    else {}
  }

  function ReleasedBy(s: State, polls: seq<Poll>, now: real): set<ItemId>
    requires PollsOk(polls)
  {
    if polls == [] then {}
    else
      var front := polls[..|polls| - 1];
      ReleasedBy(s, front, now) + Released(PollAll(s, front, now), polls[|polls| - 1], now)
  }

  /** The state a run builds before it first writes. */
  function Prepared(disk: State, now: real, test: bool, polls: seq<Poll>): State
    requires PollsOk(polls)
  {
    var trimmed := Trim(disk);
    (if test then EnqueueTest(trimmed, now) else PollAll(trimmed, polls, now)).(lastRun := now)
  }

  function Begin(w: World, now: real, test: bool, active: set<string>, polls: seq<Poll>): World
    requires PollsOk(polls)
  {
    if w.process.Up? || now + 1.0 < w.disk.lastRun then w
    else
      var mem := Prepared(w.disk, now, test, polls);
      if |mem.outbox| > MAX_OUTBOX then w
      else
        var eligible := if test then {} else ReleasedBy(Trim(w.disk), polls, now);
        w.(process := Up(mem, Mode(now, test, active, eligible), Fresh), runs := w.runs + 1)
  }

  // ----- The steps of a run -----

  predicate Skips(mode: Mode, item: Item) {
    || (item.id.Queued? && item.id.key.source !in mode.active)
    || (item.tag.Some? && item.id !in mode.eligible)
    || (mode.onlyTest && item.id != ConnectionTest)
  }

  predicate Ready(item: Item, now: real) {
    item.delivery == Waiting && item.nextAttempt <= now
  }

  function Save(w: World, at: Point): World
    requires w.process.Up?
  {
    w.(disk := w.process.mem, process := w.process.(at := at))
  }

  function Goto(w: World, at: Point): World
    requires w.process.Up?
  {
    w.(process := w.process.(at := at))
  }

  function SweepStep(w: World, i: nat): World
    requires w.process.Up?
  {
    var mem, mode := w.process.mem, w.process.mode;
    if i >= |mem.outbox| then Goto(w, if mem.retryAt > mode.now then Finished else Scan(0, 0))
    else if (mode.onlyTest && mem.outbox[i].id != ConnectionTest) || mem.outbox[i].delivery != Attempted then
      Goto(w, Sweep(i + 1))
    else w.(process := Up(Put(mem, i, mem.outbox[i].(delivery := Uncertain)), mode, Swept(i)))
  }

  function ScanStep(w: World, i: nat, tried: nat): World
    requires w.process.Up?
  {
    var mem, mode := w.process.mem, w.process.mode;
    if i >= |mem.outbox| then Goto(w, Finished)
    else
      var item := mem.outbox[i];
      if Skips(mode, item) || !Ready(item, mode.now) then Goto(w, Scan(i + 1, tried))
      else if tried >= 3 then Goto(w, Finished)
      else if item.attempts >= MAX_ATTEMPTS then
        w.(process := Up(mem.(outbox := mem.outbox[i := item.(delivery := Rejected)]), mode, Expired(i, tried)))
      else
        w.(process := Up(mem.(outbox := mem.outbox[i := AlertOutbox.Claim(item)]), mode, Claimed(i, tried + 1)))
  }

  function CallStep(w: World, i: nat, tried: nat, reply: Reply): World
    requires w.process.Up?
  {
    var mem, mode := w.process.mem, w.process.mode;
    if i >= |mem.outbox| || mem.outbox[i].attempts < 1 then Goto(w, Finished)
    else
      var item := mem.outbox[i];
      var answered := Put(mem, i, Answer(item, mode.now, reply));
      var noted := if reply.RateLimited? then answered.(retryAt := mode.now + reply.delay) else answered;
      w.(process := Up(noted, mode, Answered(i, tried, reply.RateLimited?)),
         calls := w.calls + [Call(item.id, reply, w.runs, mode.now, w.disk.retryAt, item.nextAttempt)])
  }

  /** The next step; `reply` is used only where a call is made. */
  function Tick(w: World, reply: Reply): World {
    if w.process.Down? then w
    else
      match w.process.at
      case Fresh => Save(w, Sweep(0))
      case Sweep(i) => SweepStep(w, i)
      case Swept(i) => Save(w, Sweep(i + 1))
      case Scan(i, tried) => ScanStep(w, i, tried)
      case Expired(i, tried) => Save(w, Scan(i + 1, tried))
      case Claimed(i, tried) => Save(w, Calling(i, tried))
      case Calling(i, tried) => CallStep(w, i, tried, reply)
      case Answered(i, tried, stop) => Save(w, if stop then Finished else Scan(i + 1, tried))
      case Finished => w
  }

  function Stage(p: Process): nat {
    if p.Down? then 0
    else
      match p.at
      case Fresh => 3
      case Sweep(_) => 2
      case Swept(_) => 2
      case Finished => 0
      case _ => 1
  }

  function Remaining(p: Process): nat {
    if p.Down? then 0
    else
      var n := |p.mem.outbox|;
      match p.at
      case Fresh => 0
      case Finished => 0
      case Sweep(i) => if i < n then 5 * (n - i) + 4 else 4
      case Scan(i, _) => if i < n then 5 * (n - i) + 4 else 4
      case Swept(i) => if i < n then 5 * (n - i) + 1 else 5
      case Expired(i, _) => if i < n then 5 * (n - i) + 1 else 5
      case Claimed(i, _) => if i < n then 5 * (n - i) + 3 else 7
      case Calling(i, _) => if i < n then 5 * (n - i) + 2 else 6
      case Answered(i, _, _) => if i < n then 5 * (n - i) + 1 else 5
  }

  /** A run that nothing interrupts; `replies` answers the calls in order. */
  function RunToEnd(w: World, replies: nat -> Reply): World
    decreases Stage(w.process), Remaining(w.process)
  {
    if w.process.Down? || w.process.at.Finished? then w
    else RunToEnd(Tick(w, replies(|w.calls|)), replies)
  }

  lemma Onwards(w: World, replies: nat -> Reply)
    ensures RunToEnd(Tick(w, replies(|w.calls|)), replies) == RunToEnd(w, replies)
  {
  }

  lemma PassedOver(w: World, replies: nat -> Reply, i: nat, tried: nat)
    requires w.process.Up? && w.process.at == Scan(i, tried) && i < |w.process.mem.outbox|
    requires Skips(w.process.mode, w.process.mem.outbox[i]) || !Ready(w.process.mem.outbox[i], w.process.mode.now)
    ensures RunToEnd(Goto(w, Scan(i + 1, tried)), replies) == RunToEnd(w, replies)
  {
    assert Tick(w, replies(|w.calls|)) == Goto(w, Scan(i + 1, tried));
  }

  lemma StoppedShort(w: World, replies: nat -> Reply, i: nat, tried: nat)
    requires w.process.Up? && w.process.at == Scan(i, tried) && i < |w.process.mem.outbox| && tried >= 3
    requires !Skips(w.process.mode, w.process.mem.outbox[i]) && Ready(w.process.mem.outbox[i], w.process.mode.now)
    ensures RunToEnd(Goto(w, Finished), replies) == RunToEnd(w, replies)
  {
    assert Tick(w, replies(|w.calls|)) == Goto(w, Finished);
  }

  // ----- The program's own loops -----

  class Dispatcher {
    var cursors: map<Key, Cursor>
    var outbox: seq<Item>
    var retryAt: real
    var testQueued: bool
    var lastRun: real
    var disk: State
    var calls: seq<Call>
    var runs: nat

    function Memory(): State
      reads this
    {
      State(cursors, outbox, retryAt, testQueued, lastRun)
    }

    function Seen(mode: Mode, at: Point): World
      reads this
    {
      World(disk, Up(Memory(), mode, at), calls, runs)
    }

    constructor ()
      ensures Memory() == NEW_STATE && disk == NEW_STATE && calls == [] && runs == 0
    {
      cursors, outbox, retryAt, testQueued, lastRun := map[], [], 0.0, false, 0.0;
      disk, calls, runs := NEW_STATE, [], 0;
    }

    method Persist()
      modifies this`disk
      ensures disk == Memory()
    {
      disk := Memory();
    }

    method RememberServiceDelivery(item: Item)
      modifies this`cursors
      ensures cursors == Remember(old(cursors), item)
    {
      if item.tag.Some? && item.tag.value.event == Alarm && (item.delivery == Sent || item.delivery == Uncertain)
         && item.id.Queued? && item.id.key in cursors {
        var cursor := cursors[item.id.key];
        if cursor.report.Some? && cursor.report.value.incident == Some(item.tag.value.incident)
           && cursor.report.value.openedAt == item.tag.value.openedAt {
          cursor := cursor.(receipt := Some(Receipt(item.tag.value.incident, item.tag.value.openedAt, item.delivery)));
          cursors := cursors[item.id.key := cursor];
        }
      }
    }

    /** Withdraw the waiting messages that this report overtakes. */
    method ReviewOutbox(key: Key, r: Report)
      modifies this`outbox
      ensures outbox == ReviewAll(old(outbox), key, r)
    {
      ghost var before := outbox;
      var i := 0;
      while i < |outbox|
        invariant 0 <= i <= |outbox| == |before|
        invariant forall k | 0 <= k < i :: outbox[k] == Review(before[k], key, r)
        invariant forall k | i <= k < |outbox| :: outbox[k] == before[k]
      {
        outbox := outbox[i := Review(outbox[i], key, r)];
        i := i + 1;
      }
    }

    method Enqueue(key: Key, r: Report, now: real) returns (valid: bool)
      requires Named(r)
      modifies this`cursors, this`outbox
      ensures (Memory(), valid) == EnqueueServiceHealth(old(Memory()), key, r, now)
    {
      var prev := if key in cursors then Some(cursors[key]) else None;
      if prev.Some? && Regressed(prev.value, r) {
        return false;
      }
      ReviewOutbox(key, r);
      if r.status == Unknown {
        return false;
      }
      var due := EventDue(prev, outbox, key, r);
      var sequence := if due then NextSequence(prev) else NextSequence(prev) - 1;
      cursors := cursors[key := Cursor(r.status, sequence, Some(r), KeptReceipt(prev, r))];
      if due {
        outbox := outbox + [Message(key, sequence, r, now)];
      }
      valid := true;
    }

    /** The first loop: a claim whose outcome was lost is never replayed. */
    method SweepInterrupted(mode: Mode, replies: nat -> Reply)
      modifies this`cursors, this`outbox, this`disk
      ensures RunToEnd(Seen(mode, Sweep(|outbox|)), replies) == RunToEnd(old(Seen(mode, Sweep(0))), replies)
    {
      var i := 0;
      while i < |outbox|
        invariant 0 <= i <= |outbox|
        invariant RunToEnd(Seen(mode, Sweep(i)), replies) == RunToEnd(old(Seen(mode, Sweep(0))), replies)
      {
        Onwards(Seen(mode, Sweep(i)), replies);
        if !(mode.onlyTest && outbox[i].id != ConnectionTest) && outbox[i].delivery == Attempted {
          var item := outbox[i].(delivery := Uncertain);
          outbox := outbox[i := item];
          RememberServiceDelivery(item);
          Onwards(Seen(mode, Swept(i)), replies);
          Persist();
        }
        i := i + 1;
      }
    }

    /** Message i marked as claimed, in memory. */
    method MarkClaimed(mode: Mode, i: nat, tried: nat)
      requires i < |outbox| && !Skips(mode, outbox[i]) && Ready(outbox[i], mode.now)
      requires tried < 3 && outbox[i].attempts < MAX_ATTEMPTS
      modifies this`outbox
      ensures |outbox| == old(|outbox|) && outbox[i].attempts >= 1
      ensures Seen(mode, Claimed(i, tried + 1)) == ScanStep(old(Seen(mode, Scan(i, tried))), i, tried)
    {
      outbox := outbox[i := outbox[i].(attempts := outbox[i].attempts + 1, delivery := Attempted)];
    }

    /** The claim of message i, on disk before anything is sent. */
    method ClaimMessage(mode: Mode, replies: nat -> Reply, i: nat, tried: nat)
      requires i < |outbox| && !Skips(mode, outbox[i]) && Ready(outbox[i], mode.now)
      requires tried < 3 && outbox[i].attempts < MAX_ATTEMPTS
      modifies this`outbox, this`disk
      ensures |outbox| == old(|outbox|) && outbox[i].attempts >= 1
      ensures RunToEnd(Seen(mode, Calling(i, tried + 1)), replies) == RunToEnd(old(Seen(mode, Scan(i, tried))), replies)
    {
      Onwards(Seen(mode, Scan(i, tried)), replies);
      MarkClaimed(mode, i, tried);
      Onwards(Seen(mode, Claimed(i, tried + 1)), replies);
      Persist();
    }

    /** The call for message i and its answer, in memory; tells whether to stop. */
    method CallTransport(mode: Mode, reply: Reply, i: nat, tried: nat) returns (stop: bool)
      requires i < |outbox| && outbox[i].attempts >= 1
      modifies this`outbox, this`cursors, this`retryAt, this`calls
      ensures |outbox| == old(|outbox|) && stop == reply.RateLimited?
      ensures Seen(mode, Answered(i, tried, stop)) == CallStep(old(Seen(mode, Calling(i, tried))), i, tried, reply)
    {
      var item := outbox[i];
      calls := calls + [Call(item.id, reply, runs, mode.now, disk.retryAt, item.nextAttempt)];
      item := Answer(item, mode.now, reply);
      outbox := outbox[i := item];
      if reply.RateLimited? {
        retryAt := mode.now + reply.delay;
      }
      RememberServiceDelivery(item);
      stop := reply.RateLimited?;
    }

    /** The call for message i and the record of its answer; tells whether to stop. */
    method CallAndSettle(mode: Mode, replies: nat -> Reply, i: nat, tried: nat) returns (stop: bool)
      requires i < |outbox| && outbox[i].attempts >= 1
      modifies this`outbox, this`cursors, this`retryAt, this`calls, this`disk
      ensures |outbox| == old(|outbox|)
      ensures RunToEnd(Seen(mode, if stop then Finished else Scan(i + 1, tried)), replies) ==
              RunToEnd(old(Seen(mode, Calling(i, tried))), replies)
    {
      Onwards(Seen(mode, Calling(i, tried)), replies);
      stop := CallTransport(mode, replies(|calls|), i, tried);
      Onwards(Seen(mode, Answered(i, tried, stop)), replies);
      Persist();
    }

    method GiveUp(mode: Mode, replies: nat -> Reply, i: nat, tried: nat)
      requires i < |outbox| && !Skips(mode, outbox[i]) && Ready(outbox[i], mode.now)
      requires tried < 3 && outbox[i].attempts >= MAX_ATTEMPTS
      modifies this`outbox, this`disk
      ensures |outbox| == old(|outbox|)
      ensures RunToEnd(Seen(mode, Scan(i + 1, tried)), replies) == RunToEnd(old(Seen(mode, Scan(i, tried))), replies)
    {
      Onwards(Seen(mode, Scan(i, tried)), replies);
      outbox := outbox[i := outbox[i].(delivery := Rejected)];
      Onwards(Seen(mode, Expired(i, tried)), replies);
      Persist();
    }

    /** One turn of the second loop. */
    method Visit(mode: Mode, replies: nat -> Reply, i: nat, tried: nat) returns (count: nat, stop: bool)
      requires i < |outbox|
      modifies this`outbox, this`cursors, this`retryAt, this`calls, this`disk
      ensures |outbox| == old(|outbox|)
      ensures RunToEnd(Seen(mode, if stop then Finished else Scan(i + 1, count)), replies) ==
              RunToEnd(old(Seen(mode, Scan(i, tried))), replies)
    {
      count, stop := tried, false;
      if Skips(mode, outbox[i]) || !Ready(outbox[i], mode.now) {
        PassedOver(Seen(mode, Scan(i, tried)), replies, i, tried);
      } else if tried >= 3 {
        StoppedShort(Seen(mode, Scan(i, tried)), replies, i, tried);
        stop := true;
      } else if outbox[i].attempts >= MAX_ATTEMPTS {
        GiveUp(mode, replies, i, tried);
      } else {
        ClaimMessage(mode, replies, i, tried);
        count := tried + 1;
        stop := CallAndSettle(mode, replies, i, count);
      }
    }

    method Dispatch(mode: Mode, replies: nat -> Reply)
      modifies this`outbox, this`cursors, this`retryAt, this`calls, this`disk
      ensures Seen(mode, Finished) == RunToEnd(old(Seen(mode, Sweep(0))), replies)
    {
      SweepInterrupted(mode, replies);
      Onwards(Seen(mode, Sweep(|outbox|)), replies);
      if retryAt > mode.now {
        return;
      }
      var i, tried, stop := 0, 0, false;
      while i < |outbox| && !stop
        invariant 0 <= i <= |outbox|
        invariant RunToEnd(Seen(mode, if stop then Finished else Scan(i, tried)), replies) ==
                  RunToEnd(old(Seen(mode, Sweep(0))), replies)
        decreases |outbox| - i
      {
        tried, stop := Visit(mode, replies, i, tried);
        i := i + 1;
      }
      if !stop {
        Onwards(Seen(mode, Scan(i, tried)), replies);
      }
    }
  }
}
