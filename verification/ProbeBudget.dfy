/**
 The request budgets of the generation probes (`probe` in scripts/public-service-health-probe.py and
 scripts/llm-health-probe.py): the disk is written before a request is sent, so that a crash can only
 lose a request. Over any run, with any clock and any crashes, the spacing alone bounds the requests
 of a day below the daily cap.
 */
module ProbeBudget {
  import opened Prelude

  datatype Profile = PublicCanary | LocalModel | RemoteModel

  function Period(p: Profile): real {
    if p == LocalModel then 900.0 else 300.0
  }

  function Maximum(p: Profile): nat {
    if p == LocalModel then 120 else 312
  }

  /** How many requests the spacing leaves room for in one day. */
  function DailyRoom(p: Profile): nat {
    if p == LocalModel then 96 else 288
  }

  const DAY := 86400.0

  datatype State = State(lastCheck: Option<real>, day: Option<int>, attempts: nat, lastRequest: Option<real>)

  const EMPTY := State(None, None, 0, None)

  /** What becomes of a probe: a disabled canary, a bad credential, a crash before the disk is
      written or before the request leaves, or a request that is sent. */
  datatype Fate = Disabled | CredentialBad | CrashBefore | CrashAfter | Sends

  datatype Probe = Probe(now: real, generation: bool, fate: Fate)

  function DayOf(now: real): int {
    (now / DAY).Floor
  }

  function Today(s: State, now: real): State {
    if s.day == Some(DayOf(now)) then s else s.(day := Some(DayOf(now)), attempts := 0)
  }

  predicate TooSoon(p: Profile, s: State, now: real) {
    s.lastRequest.Some? && now - s.lastRequest.value < Period(p)
  }

  predicate Refuses(s: State, e: Probe) {
    e.now < 0.0 || (s.lastCheck.Some? && e.now < s.lastCheck.value)
  }

  /** The disk after a probe, and whether a request was recorded on it. */
  function Step(p: Profile, s: State, e: Probe): (State, bool) {
    if Refuses(s, e) || e.fate == CrashBefore then (s, false)
    else
      var checked := s.(lastCheck := Some(e.now));
      if !e.generation then (checked, false)
      else if p == PublicCanary && e.fate in {Disabled, CredentialBad} then (s, false)
      else
        var today := Today(checked, e.now);
        if TooSoon(p, today, e.now) || today.attempts >= Maximum(p) then (today, false)
        else if e.fate in {Disabled, CredentialBad} then (s, false)
        else (today.(attempts := today.attempts + 1, lastRequest := Some(e.now)), true)
  }

  /** The probe's own steps; `disk` is what its last atomic write left. */
  class Prober {
    const profile: Profile
    var disk: State

    constructor (profile: Profile)
      ensures this.profile == profile && disk == EMPTY
    {
      this.profile := profile;
      disk := EMPTY;
    }

    method Run(e: Probe) returns (sent: bool)
      modifies this`disk
      ensures disk == Step(profile, old(disk), e).0
      ensures sent == (Step(profile, old(disk), e).1 && e.fate == Sends)
    {
      var state := disk;
      if e.now < 0.0 || (state.lastCheck.Some? && e.now < state.lastCheck.value) {
        return false;
      }
      state := state.(lastCheck := Some(e.now));
      if e.generation {
        if profile == PublicCanary && e.fate in {Disabled, CredentialBad} {
          return false;
        }
        var day := DayOf(e.now);
        if state.day != Some(day) {
          state := state.(day := Some(day), attempts := 0);
        }
        if (state.lastRequest.Some? && e.now - state.lastRequest.value < Period(profile)) || state.attempts >= Maximum(profile) {
          if e.fate != CrashBefore {
            disk := state;
          }
          return false;
        }
        if e.fate in {Disabled, CredentialBad} {
          return false;
        }
        state := state.(attempts := state.attempts + 1, lastRequest := Some(e.now));
      }
      if e.fate == CrashBefore {
        return false;
      }
      disk := state;
      sent := e.generation && e.fate == Sends;
    }
  }

  // ----- Runs -----

  function Disk(p: Profile, run: seq<Probe>): State {
    if run == [] then EMPTY else Step(p, Disk(p, run[..|run| - 1]), run[|run| - 1]).0
  }

  /** When requests were recorded, or, of those, the ones sent. */
  function Requests(p: Profile, run: seq<Probe>, sentOnly: bool): seq<real> {
    if run == [] then []
    else
      var n := |run| - 1;
      var before := Requests(p, run[..n], sentOnly);
      if Step(p, Disk(p, run[..n]), run[n]).1 && (!sentOnly || run[n].fate == Sends) then before + [run[n].now] else before
  }

  predicate Apart(ts: seq<real>, period: real) {
    forall i, j | 0 <= i < j < |ts| :: ts[j] - ts[i] >= period
  }

  function OnDay(ts: seq<real>, day: int): seq<real> {
    if ts == [] then []
    else
      var n := |ts| - 1;
      if DayOf(ts[n]) == day then OnDay(ts[..n], day) + [ts[n]] else OnDay(ts[..n], day)
  }

  /** The requests made so far are apart and none is later than the last one recorded. */
  predicate Spaced(p: Profile, s: State, ts: seq<real>) {
    && Apart(ts, Period(p))
    && (s.lastRequest.None? ==> ts == [])
    && (forall i | 0 <= i < |ts| :: ts[i] <= s.lastRequest.value)
    && (s.lastRequest.Some? ==> s.lastCheck.Some? && s.lastRequest.value <= s.lastCheck.value)
  }

  lemma {:induction false} RunsAreSpaced(p: Profile, run: seq<Probe>, sentOnly: bool)
    ensures Spaced(p, Disk(p, run), Requests(p, run, sentOnly))
  {
    if run != [] {
      RunsAreSpaced(p, run[..|run| - 1], sentOnly);
    }
  }

  lemma {:induction false} OnDayIsApart(ts: seq<real>, day: int, period: real)
    requires Apart(ts, period)
    ensures Apart(OnDay(ts, day), period)
    ensures forall i | 0 <= i < |OnDay(ts, day)| :: OnDay(ts, day)[i] in ts && DayOf(OnDay(ts, day)[i]) == day
  {
    if ts != [] {
      var n := |ts| - 1;
      OnDayIsApart(ts[..n], day, period);
      assert forall i | 0 <= i < |OnDay(ts[..n], day)| :: OnDay(ts[..n], day)[i] in ts[..n];
    }
  }

  lemma {:induction false} SpanOf(ts: seq<real>, period: real)
    requires ts != [] && Apart(ts, period)
    ensures ts[|ts| - 1] - ts[0] >= (|ts| - 1) as real * period
  {
    if |ts| > 1 {
      var n := |ts| - 1;
      SpanOf(ts[..n], period);
      assert ts[n] - ts[n - 1] >= period;
      assert n as real * period == (n - 1) as real * period + period;
    }
  }

  lemma SameDayIsNear(a: real, b: real)
    requires DayOf(a) == DayOf(b)
    ensures b - a < DAY
  {
    var d := DayOf(a) as real;
    assert d <= a / DAY < d + 1.0;
    assert d <= b / DAY < d + 1.0;
    assert a == (a / DAY) * DAY && b == (b / DAY) * DAY;
  }

  lemma FewInADay(p: Profile, ts: seq<real>, day: int)
    requires Apart(ts, Period(p))
    ensures |OnDay(ts, day)| <= DailyRoom(p)
  {
    OnDayIsApart(ts, day, Period(p));
    var today := OnDay(ts, day);
    if today != [] {
      SpanOf(today, Period(p));
      SameDayIsNear(today[0], today[|today| - 1]);
    }
  }

  /** Whatever the clock does and wherever probes crash, two requests are never closer than the
      period, and a day never sees more than the room the period leaves. */
  lemma RequestsAreBounded(p: Profile, run: seq<Probe>, day: int)
    ensures Apart(Requests(p, run, true), Period(p))
    ensures |OnDay(Requests(p, run, true), day)| <= DailyRoom(p)
  {
    RunsAreSpaced(p, run, true);
    FewInADay(p, Requests(p, run, true), day);
  }

  // ----- The daily cap -----

  lemma DaysInOrder(a: real, b: real)
    requires a <= b
    ensures DayOf(a) <= DayOf(b)
  {
    assert a / DAY <= b / DAY;
  }

  lemma {:induction false} NoneOnDay(ts: seq<real>, day: int)
    requires forall i | 0 <= i < |ts| :: DayOf(ts[i]) != day
    ensures OnDay(ts, day) == []
  {
    if ts != [] {
      NoneOnDay(ts[..|ts| - 1], day);
    }
  }

  /** The stored count is that of the recorded requests of the stored day. */
  predicate Counted(s: State, ts: seq<real>) {
    && (forall i | 0 <= i < |ts| :: s.day.Some? && DayOf(ts[i]) <= s.day.value)
    && s.attempts == (if s.day.Some? then |OnDay(ts, s.day.value)| else 0)
    && (s.day.Some? ==> s.lastCheck.Some? && s.day.value <= DayOf(s.lastCheck.value))
  }

  lemma TodayIsCounted(s: State, ts: seq<real>, now: real)
    requires Counted(s, ts) && (s.lastCheck.Some? ==> s.lastCheck.value <= now)
    ensures Counted(Today(s.(lastCheck := Some(now)), now), ts)
  {
    if s.lastCheck.Some? {
      DaysInOrder(s.lastCheck.value, now);
    }
    if s.day != Some(DayOf(now)) {
      NoneOnDay(ts, DayOf(now));
    }
  }

  lemma OneMoreCounted(s: State, ts: seq<real>, now: real)
    requires Counted(s, ts) && s.day == Some(DayOf(now)) && s.lastCheck == Some(now)
    ensures Counted(s.(attempts := s.attempts + 1, lastRequest := Some(now)), ts + [now])
  {
    assert (ts + [now])[..|ts|] == ts;
  }

  lemma {:induction false} RunsAreCounted(p: Profile, run: seq<Probe>)
    ensures Counted(Disk(p, run), Requests(p, run, false))
  {
    if run != [] {
      var n := |run| - 1;
      RunsAreCounted(p, run[..n]);
      CountedStep(p, Disk(p, run[..n]), Requests(p, run[..n], false), run[n]);
    }
  }

  lemma CountedStep(p: Profile, s: State, ts: seq<real>, e: Probe)
    requires Counted(s, ts)
    ensures Counted(Step(p, s, e).0, if Step(p, s, e).1 then ts + [e.now] else ts)
  {
    if !Refuses(s, e) {
      if s.lastCheck.Some? {
        DaysInOrder(s.lastCheck.value, e.now);
      }
      TodayIsCounted(s, ts, e.now);
      OneMoreCounted(Today(s.(lastCheck := Some(e.now)), e.now), ts, e.now);
    }
  }

  /** The stored daily count stays within the room the period leaves, so the daily cap, which is
      larger, never refuses a request: over any run it is the spacing that does. */
  lemma CapIsNeverReached(p: Profile, run: seq<Probe>)
    ensures Disk(p, run).attempts <= DailyRoom(p) < Maximum(p)
  {
    RunsAreCounted(p, run);
    RunsAreSpaced(p, run, false);
    if Disk(p, run).day.Some? {
      FewInADay(p, Requests(p, run, false), Disk(p, run).day.value);
    }
  }
}
