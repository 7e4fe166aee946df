/**
 Safety of the Discord outbox over whole histories of runs, with a crash allowed between any
 two steps: what is on disk survives, what is only in memory is lost.
 */
module AlertSafety {
  import opened Prelude
  import opened AlertOutbox
  import opened AlertDispatch

  datatype Action =
    | Start(now: real, test: bool, active: set<string>, polls: seq<Poll>)
    | Next(reply: Reply)
    | Crash

  function Step(w: World, a: Action): World {
    match a
    case Start(now, test, active, polls) => if PollsOk(polls) then Begin(w, now, test, active, polls) else w
    case Next(reply) => Tick(w, reply)
    case Crash => w.(process := Down)
  }

  function Exec(w: World, actions: seq<Action>): World
    decreases |actions|
  {
    if actions == [] then w else Step(Exec(w, actions[..|actions| - 1]), actions[|actions| - 1])
  }

  // ----- What the transport has answered -----

  function Replies(calls: seq<Call>, id: ItemId): seq<Reply> {
    if calls == [] then []
    else
      var last := calls[|calls| - 1];
      Replies(calls[..|calls| - 1], id) + (if last.id == id then [last.reply] else [])
  }

  /** Calls that count against the three tries; an explicit rate limit does not. */
  function Tries(rs: seq<Reply>): nat {
    if rs == [] then 0 else Tries(rs[..|rs| - 1]) + (if rs[|rs| - 1].RateLimited? then 0 else 1)
  }

  ghost predicate AllRejected(rs: seq<Reply>) {
    forall k | 0 <= k < |rs| :: Rejection(rs[k])
  }

  /** Only the last answer may be anything but an explicit rejection. */
  ghost predicate NeverReplayed(rs: seq<Reply>) {
    forall k | 0 <= k < |rs| - 1 :: Rejection(rs[k])
  }

  function CallsIn(calls: seq<Call>, run: nat): nat {
    if calls == [] then 0
    else CallsIn(calls[..|calls| - 1], run) + (if calls[|calls| - 1].run == run then 1 else 0)
  }

  // ----- The invariant -----

  /** The identity has been handed out: its cursor has moved past it. */
  ghost predicate Known(s: State, id: ItemId) {
    match id
    case ConnectionTest => s.testQueued
    case Queued(key, n) => key in s.cursors && n <= s.cursors[key].sequence
  }

  ghost predicate ItemOk(item: Item, rs: seq<Reply>) {
    && Tries(rs) <= item.attempts <= MAX_ATTEMPTS
    && NeverReplayed(rs)
    && (item.delivery == Waiting ==> AllRejected(rs))
  }

  ghost predicate Distinct(outbox: seq<Item>) {
    forall i, j | 0 <= i < j < |outbox| :: outbox[i].id != outbox[j].id
  }

  ghost predicate ItemsOk(s: State, calls: seq<Call>) {
    forall i | 0 <= i < |s.outbox| :: Known(s, s.outbox[i].id) && ItemOk(s.outbox[i], Replies(calls, s.outbox[i].id))
  }

  ghost predicate CallsKnown(s: State, calls: seq<Call>) {
    forall id | Replies(calls, id) != [] :: Known(s, id)
  }

  ghost predicate StateOk(s: State, calls: seq<Call>) {
    Distinct(s.outbox) && ItemsOk(s, calls) && CallsKnown(s, calls)
  }

  // ----- Queueing keeps it -----

  lemma {:induction false} FilterSplits(outbox: seq<Item>, done: bool)
    ensures var kept := Filter(outbox, done);
            && |kept| <= |outbox|
            && (forall k | 0 <= k < |kept| :: kept[k] in outbox && Completed(kept[k]) == done)
            && (Distinct(outbox) ==> Distinct(kept))
    ensures forall x | x in outbox && Completed(x) == done :: x in Filter(outbox, done)
  {
    if outbox != [] {
      var front, last := outbox[..|outbox| - 1], outbox[|outbox| - 1];
      FilterSplits(front, done);
      var kept := Filter(front, done);
      if Distinct(outbox) {
        assert Distinct(front);
        forall k | 0 <= k < |kept| ensures kept[k].id != last.id {
          var j :| 0 <= j < |front| && front[j] == kept[k];
        }
      }
    }
  }

  lemma JoinDistinct(all: seq<Item>, live: seq<Item>, tail: seq<Item>)
    requires Distinct(all) && Distinct(live) && Distinct(tail)
    requires forall k | 0 <= k < |live| :: live[k] in all && !Completed(live[k])
    requires forall k | 0 <= k < |tail| :: tail[k] in all && Completed(tail[k])
    ensures Distinct(live + tail)
  {
    forall i, j | 0 <= i < |live| && 0 <= j < |tail| ensures live[i].id != tail[j].id {
      assert live[i] in all && tail[j] in all;
      var a :| 0 <= a < |all| && all[a] == live[i];
      var b :| 0 <= b < |all| && all[b] == tail[j];
    }
  }

  lemma LastOnes(done: seq<Item>, n: nat)
    requires n <= |done|
    ensures forall x | x in done[n..] :: x in done
    ensures Distinct(done) ==> Distinct(done[n..])
  {
  }

  /** Trimming drops only resolved messages and leaves every other one as it was. */
  lemma TrimKeeps(s: State)
    ensures forall x | x in Trim(s).outbox :: x in s.outbox
    ensures forall x | x in s.outbox && !Completed(x) :: x in Trim(s).outbox
    ensures Distinct(s.outbox) ==> Distinct(Trim(s).outbox)
  {
    FilterSplits(s.outbox, true);
    FilterSplits(s.outbox, false);
    var live, done := Filter(s.outbox, false), Filter(s.outbox, true);
    var n := if |done| <= KEPT then 0 else |done| - KEPT;
    assert done[0..] == done;
    LastOnes(done, n);
    assert Trim(s).outbox == live + done[n..];
    if Distinct(s.outbox) {
      JoinDistinct(s.outbox, live, done[n..]);
    }
  }

  lemma TrimOk(s: State, calls: seq<Call>)
    requires StateOk(s, calls)
    ensures StateOk(Trim(s), calls)
  {
    TrimKeeps(s);
    forall i | 0 <= i < |Trim(s).outbox|
      ensures Known(Trim(s), Trim(s).outbox[i].id) && ItemOk(Trim(s).outbox[i], Replies(calls, Trim(s).outbox[i].id))
    {
      var x := Trim(s).outbox[i];
      assert x in Trim(s).outbox && x in s.outbox;
      var j :| 0 <= j < |s.outbox| && s.outbox[j] == x;
    }
  }

  /** A new message takes an identity no message and no call has had. */
  lemma AppendOk(s: State, t: State, reviewed: seq<Item>, item: Item, calls: seq<Call>)
    requires StateOk(s, calls) && |reviewed| == |s.outbox|
    requires forall i | 0 <= i < |reviewed| ::
               reviewed[i].id == s.outbox[i].id && reviewed[i].attempts == s.outbox[i].attempts
               && (reviewed[i].delivery == Waiting ==> s.outbox[i].delivery == Waiting)
    requires forall id | Known(s, id) :: Known(t, id)
    requires t.outbox == reviewed || (t.outbox == reviewed + [item] && !Known(s, item.id) && Known(t, item.id)
                                      && item.attempts == 0)
    ensures StateOk(t, calls)
  {
    assert Replies(calls, item.id) != [] ==> Known(s, item.id);
  }

  lemma PollOk1(s: State, p: Poll, now: real, calls: seq<Call>)
    requires StateOk(s, calls) && PollOk(p)
    ensures StateOk(PollOne(s, p, now), calls)
  {
    match p
    case Nothing =>
    case ServicePoll(key, r) =>
      var t := EnqueueServiceHealth(s, key, r, now).0;
      var reviewed := ReviewAll(s.outbox, key, r);
      if t != s {
        var item := if |t.outbox| > |reviewed| then t.outbox[|reviewed|] else Item(Queued(key, 0), Waiting, 0, now, None);
        AppendOk(s, t, reviewed, item, calls);
      }
    case PlainPoll(key, level) =>
      var t := EnqueuePlain(s, key, level, now);
      if t != s {
        AppendOk(s, t, s.outbox, Item(Queued(key, NextSequence(At(s, key))), Waiting, 0, now, None), calls);
      }
  }

  lemma {:induction false} PollAllOk(s: State, polls: seq<Poll>, now: real, calls: seq<Call>)
    requires StateOk(s, calls) && PollsOk(polls)
    ensures StateOk(PollAll(s, polls, now), calls)
  {
    if polls != [] {
      PollAllOk(s, polls[..|polls| - 1], now, calls);
      PollOk1(PollAll(s, polls[..|polls| - 1], now), polls[|polls| - 1], now, calls);
    }
  }

  lemma PreparedOk(s: State, now: real, test: bool, polls: seq<Poll>, calls: seq<Call>)
    requires StateOk(s, calls) && PollsOk(polls)
    ensures StateOk(Prepared(s, now, test, polls), calls)
  {
    TrimOk(s, calls);
    if test {
      AppendOk(Trim(s), EnqueueTest(Trim(s), now), Trim(s).outbox, Item(ConnectionTest, Waiting, 0, now, None), calls);
    } else {
      PollAllOk(Trim(s), polls, now, calls);
    }
  }

  // ----- Sending keeps it -----

  /** A claim on disk for which no call has been made yet. */
  ghost predicate Armed(item: Item, rs: seq<Reply>) {
    && item.delivery == Attempted
    && Tries(rs) < item.attempts <= MAX_ATTEMPTS
    && AllRejected(rs)
  }

  lemma RememberKnows(s: State, item: Item, id: ItemId)
    ensures Known(s, id) <==> Known(s.(cursors := Remember(s.cursors, item)), id)
  {
  }

  /** Replacing message i by a later stage of itself. */
  lemma PutOk(s: State, i: nat, item: Item, calls: seq<Call>)
    requires StateOk(s, calls) && i < |s.outbox|
    requires item.id == s.outbox[i].id && ItemOk(item, Replies(calls, item.id))
    ensures StateOk(Put(s, i, item), calls)
    ensures StateOk(s.(outbox := s.outbox[i := item]), calls)
  {
    forall id ensures Known(s, id) <==> Known(Put(s, i, item), id) {
      RememberKnows(s, item, id);
    }
    assert forall id :: Known(s, id) <==> Known(s.(outbox := s.outbox[i := item]), id);
  }

  lemma RepliesOfCall(calls: seq<Call>, c: Call, id: ItemId)
    ensures Replies(calls + [c], id) == Replies(calls, id) + (if c.id == id then [c.reply] else [])
    ensures Tries(Replies(calls + [c], id)) ==
            Tries(Replies(calls, id)) + (if c.id == id && !c.reply.RateLimited? then 1 else 0)
  {
    assert (calls + [c])[..|calls|] == calls;
    var rs := Replies(calls, id);
    if c.id == id {
      assert Replies(calls + [c], id) == rs + [c.reply];
      assert (rs + [c.reply])[..|rs|] == rs;
    } else {
      assert Replies(calls + [c], id) == rs + [] == rs;
    }
  }

  lemma ItemAfterCall(item: Item, c: Call, calls: seq<Call>)
    requires ItemOk(item, Replies(calls, item.id))
    requires c.id == item.id ==> Armed(item, Replies(calls, item.id))
    ensures ItemOk(item, Replies(calls + [c], item.id))
  {
    RepliesOfCall(calls, c, item.id);
  }

  /** The call answers one armed claim; the claim on disk now covers it. */
  lemma CallOnDisk(s: State, i: nat, c: Call, calls: seq<Call>)
    requires StateOk(s, calls) && i < |s.outbox| && Armed(s.outbox[i], Replies(calls, s.outbox[i].id))
    requires c.id == s.outbox[i].id
    ensures StateOk(s, calls + [c])
  {
    forall j | 0 <= j < |s.outbox|
      ensures Known(s, s.outbox[j].id) && ItemOk(s.outbox[j], Replies(calls + [c], s.outbox[j].id))
    {
      ItemAfterCall(s.outbox[j], c, calls);
    }
    forall id | Replies(calls + [c], id) != [] ensures Known(s, id) {
      RepliesOfCall(calls, c, id);
    }
  }

  lemma AnswerOk(item: Item, rs: seq<Reply>, now: real, reply: Reply)
    requires Armed(item, rs)
    ensures ItemOk(Answer(item, now, reply), rs + [reply])
  {
    assert (rs + [reply])[..|rs|] == rs;
  }

  ghost predicate LogOk(calls: seq<Call>) {
    && (forall id :: NeverReplayed(Replies(calls, id)) && Tries(Replies(calls, id)) <= MAX_ATTEMPTS)
    && (forall run :: CallsIn(calls, run) <= 3)
    && (forall k | 0 <= k < |calls| :: calls[k].retryAt <= calls[k].now && calls[k].nextAttempt <= calls[k].now)
  }

  ghost predicate Busy(mem: State, mode: Mode, i: nat, tried: nat, calls: seq<Call>, run: nat) {
    && i < |mem.outbox| && 1 <= tried <= 3 && mem.retryAt <= mode.now
    && mem.outbox[i].nextAttempt <= mode.now
    && Armed(mem.outbox[i], Replies(calls, mem.outbox[i].id))
    && CallsIn(calls, run) < tried
  }

  ghost predicate PointOk(w: World) {
    w.process.Up? ==>
      var mem, mode := w.process.mem, w.process.mode;
      match w.process.at
      case Fresh => CallsIn(w.calls, w.runs) == 0
      case Sweep(_) => mem == w.disk && CallsIn(w.calls, w.runs) == 0
      case Swept(_) => CallsIn(w.calls, w.runs) == 0
      case Scan(_, tried) => mem == w.disk && mem.retryAt <= mode.now && CallsIn(w.calls, w.runs) <= tried <= 3
      case Expired(_, tried) => mem.retryAt <= mode.now && CallsIn(w.calls, w.runs) <= tried <= 3
      case Claimed(i, tried) => Busy(mem, mode, i, tried, w.calls, w.runs)
      case Calling(i, tried) => mem == w.disk && Busy(mem, mode, i, tried, w.calls, w.runs)
      case Answered(_, tried, stop) => (stop || mem.retryAt <= mode.now) && CallsIn(w.calls, w.runs) <= tried <= 3
      case Finished => true
  }

  ghost predicate RunsOk(w: World) {
    forall k | 0 <= k < |w.calls| :: w.calls[k].run <= w.runs
  }

  ghost predicate Inv(w: World) {
    && StateOk(w.disk, w.calls)
    && (w.process.Up? ==> StateOk(w.process.mem, w.calls))
    && LogOk(w.calls) && RunsOk(w) && PointOk(w)
  }

  lemma {:induction false} NoCallsYet(calls: seq<Call>, run: nat)
    requires forall k | 0 <= k < |calls| :: calls[k].run < run
    ensures CallsIn(calls, run) == 0
  {
    if calls != [] {
      NoCallsYet(calls[..|calls| - 1], run);
    }
  }

  lemma BeginKeeps(w: World, now: real, test: bool, active: set<string>, polls: seq<Poll>)
    requires Inv(w) && PollsOk(polls)
    ensures Inv(Begin(w, now, test, active, polls))
  {
    var after := Begin(w, now, test, active, polls);
    if after != w {
      PreparedOk(w.disk, now, test, polls, w.calls);
      NoCallsYet(w.calls, after.runs);
    }
  }

  lemma SweepKeeps(w: World, i: nat)
    requires Inv(w) && w.process.Up? && w.process.at == Sweep(i)
    ensures Inv(SweepStep(w, i))
  {
    var mem := w.process.mem;
    if i < |mem.outbox| && mem.outbox[i].delivery == Attempted {
      PutOk(mem, i, mem.outbox[i].(delivery := Uncertain), w.calls);
    }
  }

  lemma ScanKeeps(w: World, i: nat, tried: nat)
    requires Inv(w) && w.process.Up? && w.process.at == Scan(i, tried)
    ensures Inv(ScanStep(w, i, tried))
  {
    var mem := w.process.mem;
    if i < |mem.outbox| && mem.outbox[i].delivery == Waiting {
      var item := mem.outbox[i];
      ClaimOk(item, Replies(w.calls, item.id));
      if item.attempts < MAX_ATTEMPTS {
        PutOk(mem, i, AlertOutbox.Claim(item), w.calls);
      } else {
        PutOk(mem, i, item.(delivery := Rejected), w.calls);
      }
    }
  }

  lemma ClaimOk(item: Item, rs: seq<Reply>)
    requires ItemOk(item, rs) && item.delivery == Waiting
    ensures ItemOk(item.(delivery := Rejected), rs)
    ensures item.attempts < MAX_ATTEMPTS ==> ItemOk(AlertOutbox.Claim(item), rs) && Armed(AlertOutbox.Claim(item), rs)
  {
  }

  lemma CallLog(w: World, c: Call, i: nat, tried: nat)
    requires Inv(w) && w.process.Up? && w.process.at == Calling(i, tried)
    requires c.id == w.process.mem.outbox[i].id && c.run == w.runs && c.now == w.process.mode.now
    requires c.retryAt == w.disk.retryAt && c.nextAttempt == w.process.mem.outbox[i].nextAttempt
    ensures LogOk(w.calls + [c])
    ensures CallsIn(w.calls + [c], w.runs) <= tried
  {
    var calls := w.calls + [c];
    assert calls[..|w.calls|] == w.calls;
    forall id ensures NeverReplayed(Replies(calls, id)) && Tries(Replies(calls, id)) <= MAX_ATTEMPTS {
      RepliesOfCall(w.calls, c, id);
      assert NeverReplayed(Replies(w.calls, id)) && Tries(Replies(w.calls, id)) <= MAX_ATTEMPTS;
    }
    forall run ensures CallsIn(calls, run) <= 3 {
      assert CallsIn(w.calls, run) <= 3;
    }
  }

  /** The stored and the remembered state after a call, whatever retry time it leaves. */
  lemma CallStates(mem: State, i: nat, c: Call, now: real, at: real, calls: seq<Call>)
    requires StateOk(mem, calls) && i < |mem.outbox| && c.id == mem.outbox[i].id
    requires Armed(mem.outbox[i], Replies(calls, mem.outbox[i].id))
    ensures StateOk(mem, calls + [c])
    ensures StateOk(Put(mem, i, Answer(mem.outbox[i], now, c.reply)), calls + [c])
    ensures StateOk(Put(mem, i, Answer(mem.outbox[i], now, c.reply)).(retryAt := at), calls + [c])
  {
    var item := mem.outbox[i];
    CallOnDisk(mem, i, c, calls);
    RepliesOfCall(calls, c, item.id);
    AnswerOk(item, Replies(calls, item.id), now, c.reply);
    PutOk(mem, i, Answer(item, now, c.reply), calls + [c]);
    RetryTimeFree(Put(mem, i, Answer(item, now, c.reply)), calls + [c]);
  }

  lemma CallKeeps(w: World, i: nat, tried: nat, reply: Reply)
    requires Inv(w) && w.process.Up? && w.process.at == Calling(i, tried)
    ensures Inv(CallStep(w, i, tried, reply))
  {
    var mem, mode := w.process.mem, w.process.mode;
    var item := mem.outbox[i];
    var c := Call(item.id, reply, w.runs, mode.now, w.disk.retryAt, item.nextAttempt);
    assert CallStep(w, i, tried, reply).calls == w.calls + [c] && CallStep(w, i, tried, reply).disk == w.disk;
    CallLog(w, c, i, tried);
    CallStates(mem, i, c, mode.now, if reply.RateLimited? then mode.now + reply.delay else 0.0, w.calls);
  }

  lemma RetryTimeFree(s: State, calls: seq<Call>)
    requires StateOk(s, calls)
    ensures forall at :: StateOk(s.(retryAt := at), calls)
  {
    forall at ensures StateOk(s.(retryAt := at), calls) {
      assert forall id :: Known(s, id) <==> Known(s.(retryAt := at), id);
    }
  }

  lemma StepKeeps(w: World, a: Action)
    requires Inv(w)
    ensures Inv(Step(w, a))
  {
    match a
    case Start(now, test, active, polls) =>
      if PollsOk(polls) {
        BeginKeeps(w, now, test, active, polls);
      }
    case Crash =>
    case Next(reply) =>
      if w.process.Up? {
        match w.process.at
        case Sweep(i) => SweepKeeps(w, i);
        case Scan(i, tried) => ScanKeeps(w, i, tried);
        case Calling(i, tried) => CallKeeps(w, i, tried, reply);
        case _ =>
      }
  }

  lemma {:induction false} AlwaysInv(actions: seq<Action>)
    ensures Inv(Exec(START, actions))
    decreases |actions|
  {
    if actions != [] {
      AlwaysInv(actions[..|actions| - 1]);
      StepKeeps(Exec(START, actions[..|actions| - 1]), actions[|actions| - 1]);
    }
  }

  /** Over any history of runs, answers and crashes: a message is called again only after an
      explicit rejection; apart from rate limits it is called at most three times; a run makes
      at most three calls; and no call comes before the retry times on record. */
  lemma OutboxIsSafe(actions: seq<Action>, id: ItemId, run: nat)
    ensures var calls := Exec(START, actions).calls;
            && (forall k | 0 <= k < |Replies(calls, id)| - 1 :: Rejection(Replies(calls, id)[k]))
            && Tries(Replies(calls, id)) <= 3
            && CallsIn(calls, run) <= 3
            && (forall k | 0 <= k < |calls| :: calls[k].retryAt <= calls[k].now && calls[k].nextAttempt <= calls[k].now)
  {
    AlwaysInv(actions);
  }

  /** A call is made only for a message whose claim is already on disk. */
  lemma ClaimedBeforeCalled(actions: seq<Action>, reply: Reply)
    requires var w := Exec(START, actions); Tick(w, reply).calls != w.calls
    ensures var w := Exec(START, actions);
            && |Tick(w, reply).calls| == |w.calls| + 1
            && exists i | 0 <= i < |w.disk.outbox| ::
                 w.disk.outbox[i].delivery == Attempted && w.disk.outbox[i].id == Tick(w, reply).calls[|w.calls|].id
  {
    AlwaysInv(actions);
    var w := Exec(START, actions);
    assert w.process.Up? && w.process.at.Calling?;
    assert w.disk.outbox[w.process.at.i].delivery == Attempted;
  }

  // ----- A lost or final outcome -----

  /** No copy of the message may be sent, in memory or on disk. */
  ghost predicate Quiet(s: State, id: ItemId) {
    Known(s, id) && forall i | 0 <= i < |s.outbox| && s.outbox[i].id == id :: s.outbox[i].delivery != Waiting
  }

  ghost predicate Sealed(w: World, id: ItemId) {
    && Quiet(w.disk, id)
    && (w.process.Up? ==>
          && Quiet(w.process.mem, id)
          && match w.process.at
             case Claimed(i, _) => i < |w.process.mem.outbox| ==> w.process.mem.outbox[i].id != id
             case Calling(i, _) => i < |w.process.mem.outbox| ==> w.process.mem.outbox[i].id != id
             case _ => true)
  }

  lemma PollQuiet(s: State, p: Poll, now: real, id: ItemId)
    requires PollOk(p) && Quiet(s, id)
    ensures Quiet(PollOne(s, p, now), id)
  {
  }

  lemma {:induction false} PollAllQuiet(s: State, polls: seq<Poll>, now: real, id: ItemId)
    requires PollsOk(polls) && Quiet(s, id)
    ensures Quiet(PollAll(s, polls, now), id)
  {
    if polls != [] {
      PollAllQuiet(s, polls[..|polls| - 1], now, id);
      PollQuiet(PollAll(s, polls[..|polls| - 1], now), polls[|polls| - 1], now, id);
    }
  }

  lemma PreparedQuiet(s: State, now: real, test: bool, polls: seq<Poll>, id: ItemId)
    requires PollsOk(polls) && Quiet(s, id)
    ensures Quiet(Prepared(s, now, test, polls), id)
  {
    TrimKeeps(s);
    forall i | 0 <= i < |Trim(s).outbox| && Trim(s).outbox[i].id == id ensures Trim(s).outbox[i].delivery != Waiting {
      var x := Trim(s).outbox[i];
      assert x in Trim(s).outbox && x in s.outbox;
    }
    if !test {
      PollAllQuiet(Trim(s), polls, now, id);
    }
  }

  lemma PutQuiet(s: State, i: nat, item: Item, id: ItemId)
    requires Quiet(s, id) && i < |s.outbox| && item.id == s.outbox[i].id
    requires item.id == id ==> item.delivery != Waiting
    ensures Quiet(Put(s, i, item), id)
  {
    RememberKnows(s, item, id);
  }

  lemma SealedCall(w: World, i: nat, tried: nat, reply: Reply, id: ItemId)
    requires Sealed(w, id) && w.process.Up? && w.process.at == Calling(i, tried)
    ensures Sealed(CallStep(w, i, tried, reply), id)
    ensures Replies(CallStep(w, i, tried, reply).calls, id) == Replies(w.calls, id)
  {
    var mem := w.process.mem;
    if i < |mem.outbox| && mem.outbox[i].attempts >= 1 {
      var item := mem.outbox[i];
      PutQuiet(mem, i, Answer(item, w.process.mode.now, reply), id);
      RepliesOfCall(w.calls, CallStep(w, i, tried, reply).calls[|w.calls|], id);
    }
  }

  lemma SealedSweep(w: World, i: nat, id: ItemId)
    requires Sealed(w, id) && w.process.Up? && w.process.at == Sweep(i)
    ensures Sealed(SweepStep(w, i), id) && SweepStep(w, i).calls == w.calls
  {
    var mem := w.process.mem;
    if i < |mem.outbox| {
      PutQuiet(mem, i, mem.outbox[i].(delivery := Uncertain), id);
    }
  }

  lemma SealedScan(w: World, i: nat, tried: nat, id: ItemId)
    requires Sealed(w, id) && w.process.Up? && w.process.at == Scan(i, tried)
    ensures Sealed(ScanStep(w, i, tried), id) && ScanStep(w, i, tried).calls == w.calls
  {
  }

  lemma SealedTick(w: World, reply: Reply, id: ItemId)
    requires Sealed(w, id) && w.process.Up?
    ensures Sealed(Tick(w, reply), id)
    ensures Replies(Tick(w, reply).calls, id) == Replies(w.calls, id)
  {
    match w.process.at
    case Sweep(i) => SealedSweep(w, i, id);
    case Scan(i, tried) => SealedScan(w, i, tried, id);
    case Calling(i, tried) => SealedCall(w, i, tried, reply, id);
    case _ =>
  }

  lemma SealedStep(w: World, a: Action, id: ItemId)
    requires Sealed(w, id)
    ensures Sealed(Step(w, a), id)
    ensures Replies(Step(w, a).calls, id) == Replies(w.calls, id)
  {
    match a
    case Start(now, test, active, polls) =>
      if PollsOk(polls) {
        PreparedQuiet(w.disk, now, test, polls, id);
      }
    case Crash =>
    case Next(reply) =>
      if w.process.Up? {
        SealedTick(w, reply, id);
      }
  }

  lemma {:induction false} SealedForever(w: World, more: seq<Action>, id: ItemId)
    requires Sealed(w, id)
    ensures Replies(Exec(w, more).calls, id) == Replies(w.calls, id)
    ensures Sealed(Exec(w, more), id)
    decreases |more|
  {
    if more != [] {
      SealedForever(w, more[..|more| - 1], id);
      SealedStep(Exec(w, more[..|more| - 1]), more[|more| - 1], id);
    }
  }

  /** A crash that hides the outcome of a call, whatever that outcome was, is the end of that
      message: nothing that follows calls it again. */
  lemma LostOutcomeIsFinal(actions: seq<Action>, reply: Reply, more: seq<Action>)
    requires var w := Exec(START, actions); w.process.Up? && w.process.at.Calling?
    ensures var w := Exec(START, actions);
            var called := Step(w, Next(reply));
            && |called.calls| == |w.calls| + 1
            && var id := called.calls[|w.calls|].id;
               Replies(Exec(Step(called, Crash), more).calls, id) == Replies(called.calls, id)
  {
    AlwaysInv(actions);
    var w := Exec(START, actions);
    var called := Step(w, Next(reply));
    var id := called.calls[|w.calls|].id;
    assert w.disk.outbox[w.process.at.i].id == id;
    assert Quiet(w.disk, id);
    SealedForever(Step(called, Crash), more, id);
  }
}
