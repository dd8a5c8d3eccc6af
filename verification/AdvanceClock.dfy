/** The advance timers of SyncService and the debounce that guards every advance. Instants and
    spans are in nanoseconds; only startedAt is in whole milliseconds. */
module AdvanceClock {
  import opened Options

  type RoomId = nat

  const MILLI: int := 1_000_000
  const SECOND: int := 1_000_000_000
  const DEBOUNCE: int := 10 * SECOND
  const TIMER_SLACK: int := 500 * MILLI
  const FALLBACK_SECS: int := 600

  function UnixMilli(t: int): int {
    t / MILLI
  }

  /** What ScheduleAdvance decides. */
  datatype Plan = Nothing | AdvanceNow | Arm(fireAt: int)

  /** The duration it works with: the fallback for an unknown length in an autoplay room. */
  function Planned(duration: int, autoplay: bool): int {
    if duration > 0 then duration else if autoplay then FALLBACK_SECS else 0
  }

  function PlanFor(duration: Option<int>, autoplay: bool, startedAt: int, now: int): Plan {
    if duration.None? || Planned(duration.value, autoplay) <= 0 then Nothing
    else
      var end := startedAt * MILLI + Planned(duration.value, autoplay) * SECOND;
      if end <= now then AdvanceNow else Arm(end + TIMER_SLACK)
  }

  /** The gate of advanceTrack: closed for 10 s after the last pass. */
  predicate Open(lastAdvance: map<RoomId, int>, room: RoomId, now: int) {
    room in lastAdvance ==> now - lastAdvance[room] >= DEBOUNCE
  }

  /** The service as a value, and what happens to it: a call of advanceTrack, a ScheduleAdvance
      for a track stamped at `stamped`, with or without a pass before it, a CancelAdvance. */
  datatype Sync = Sync(lastAdvance: map<RoomId, int>, timers: map<RoomId, int>)
  datatype Event =
    | Called(room: RoomId, at: int)
    | Scheduled(room: RoomId, stamped: int, duration: Option<int>, autoplay: bool, at: int)
    | Cancelled(room: RoomId)

  function PlanOf(e: Event): Plan
    requires e.Scheduled?
  {
    PlanFor(e.duration, e.autoplay, UnixMilli(e.stamped), e.at)
  }

  function Next(s: Sync, e: Event): Sync {
    match e
    case Called(room, at) =>
      if Open(s.lastAdvance, room, at) then Sync(s.lastAdvance[room := at], s.timers - {room}) else s
    case Scheduled(room, _, _, _, _) =>
      s.(timers := if PlanOf(e).Arm? then s.timers[room := PlanOf(e).fireAt] else s.timers - {room})
    case Cancelled(room) => s.(timers := s.timers - {room})
  }

  class SyncService {
    /** The armed timer of each room, as the instant it fires. */
    var timers: map<RoomId, int>
    var lastAdvance: map<RoomId, int>

    constructor ()
      ensures timers == map[] && lastAdvance == map[]
    {
      timers, lastAdvance := map[], map[];
    }

    function View(): Sync
      reads this
    {
      Sync(lastAdvance, timers)
    }

    method ScheduleAdvance(room: RoomId, duration: Option<int>, autoplay: bool, startedAt: int, now: int)
      returns (advanceNow: bool)
      modifies this`timers
      // no track, or a DJ room's track of unknown length
      ensures duration == None || (duration.value <= 0 && !autoplay) ==> !advanceNow && timers == old(timers) - {room}
      // a known length, or the 600 s fallback of an autoplay room: over already, or a timer 500 ms after the end
      ensures duration != None && (duration.value > 0 || autoplay) ==>
                var end := startedAt * 1_000_000 + (if duration.value > 0 then duration.value else 600) * 1_000_000_000;
                && (advanceNow <==> end <= now)
                && timers == if end <= now then old(timers) - {room} else old(timers)[room := end + 500_000_000]
      ensures forall stamped | UnixMilli(stamped) == startedAt ::
                View() == Next(old(View()), Scheduled(room, stamped, duration, autoplay, now))
    {
      advanceNow := false;
      timers := timers - {room};
      if duration.None? {
        return;
      }
      var secs := duration.value;
      if secs <= 0 {
        if autoplay {
          secs := FALLBACK_SECS;
        } else {
          return;
        }
      }
      var elapsed := now - startedAt * MILLI;
      var remaining := secs * SECOND - elapsed;
      if remaining <= 0 {
        advanceNow := true;
        return;
      }
      remaining := remaining + TIMER_SLACK;
      timers := timers[room := now + remaining];
    }

    method CancelAdvance(room: RoomId)
      modifies this`timers
      ensures timers == old(timers) - {room}
      ensures View() == Next(old(View()), Cancelled(room))
    {
      if room in timers {
        timers := timers - {room};
      }
    }

    /** The locked section that opens advanceTrack; false when the debounce swallows the call. */
    method PassGate(room: RoomId, now: int) returns (passed: bool)
      modifies this
      ensures passed <==> (room in old(lastAdvance) ==> now - old(lastAdvance)[room] >= 10_000_000_000)
      ensures View() == Next(old(View()), Called(room, now))
      ensures passed ==> lastAdvance == old(lastAdvance)[room := now] && timers == old(timers) - {room}
      ensures !passed ==> lastAdvance == old(lastAdvance) && timers == old(timers)
    {
      if room in lastAdvance && now - lastAdvance[room] < DEBOUNCE {
        return false;
      }
      lastAdvance := lastAdvance[room := now];
      timers := timers - {room};
      return true;
    }
  }

  /** Calls of advanceTrack, from timers, listeners or immediate advances, at the instants the
      clock shows; `passes` are those that went through the gate. */
  datatype Call = Call(room: RoomId, at: int)
  datatype History = History(lastAdvance: map<RoomId, int>, passes: seq<Call>)

  function Attempt(h: History, c: Call): History {
    if Open(h.lastAdvance, c.room, c.at) then History(h.lastAdvance[c.room := c.at], h.passes + [c]) else h
  }

  function AttemptAll(h: History, calls: seq<Call>): History
    decreases |calls|
  {
    if calls == [] then h else AttemptAll(Attempt(h, calls[0]), calls[1..])
  }

  /** A call passes if and only if the room's latest pass lies at least 10 s back, or there was none;
      then it is the latest. */
  lemma PassesIff(h: History, c: Call)
    ensures var passes := c.room in h.lastAdvance ==> c.at - h.lastAdvance[c.room] >= 10_000_000_000;
            Attempt(h, c) == if passes then History(h.lastAdvance[c.room := c.at], h.passes + [c]) else h
  {
  }

  predicate Chronological(calls: seq<Call>) {
    forall i, j | 0 <= i < j < |calls| :: calls[i].at <= calls[j].at
  }

  /** Passes of one room are 10 s apart, and lastAdvance remembers its latest one. */
  predicate Spaced(h: History) {
    && (forall i, j | 0 <= i < j < |h.passes| && h.passes[i].room == h.passes[j].room ::
          h.passes[j].at - h.passes[i].at >= DEBOUNCE)
    && (forall i | 0 <= i < |h.passes| ::
          h.passes[i].room in h.lastAdvance && h.passes[i].at <= h.lastAdvance[h.passes[i].room])
  }

  lemma {:induction false} StaysSpaced(h: History, calls: seq<Call>)
    requires Spaced(h) && Chronological(calls)
    requires forall i, r | 0 <= i < |calls| && r in h.lastAdvance :: h.lastAdvance[r] <= calls[i].at
    ensures Spaced(AttemptAll(h, calls))
    decreases |calls|
  {
    if calls == [] {
    } else {
      StaysSpaced(Attempt(h, calls[0]), calls[1..]);
    }
  }

  /** Any two advances of a room are at least 10 s apart, whoever asked for them. */
  lemma {:induction false} AdvancesAreSpaced(calls: seq<Call>, i: nat, j: nat)
    requires Chronological(calls)
    requires i < j < |AttemptAll(History(map[], []), calls).passes|
    ensures var passes := AttemptAll(History(map[], []), calls).passes;
            passes[i].room == passes[j].room ==> passes[j].at - passes[i].at >= 10_000_000_000
  {
    StaysSpaced(History(map[], []), calls);
  }

  lemma MilliFloor(t: int)
    ensures UnixMilli(t) * MILLI <= t < UnixMilli(t) * MILLI + MILLI
  {
  }

  /** A track of unknown length: 600.5 s after its start an autoplay room's timer fires, or the
      room advances at once if 600 s are over; a DJ room gets no timer. */
  lemma UnknownLengthPlan(duration: int, startedAt: int, now: int)
    requires duration <= 0
    ensures PlanFor(Some(duration), true, startedAt, now)
              == if now >= startedAt * 1_000_000 + 600_000_000_000 then AdvanceNow
                 else Arm(startedAt * 1_000_000 + 600_500_000_000)
    ensures PlanFor(Some(duration), false, startedAt, now) == Nothing
  {
  }

  /** An advance passes the gate at t0, stamps the new track at t1 and schedules at t2. If the
      planned length is at least 10 s, the timer it arms finds the gate open however late it runs. */
  lemma TimerClearsItsOwnDebounce(room: RoomId, t0: int, t1: int, t2: int, duration: int, autoplay: bool, fired: int)
    requires t0 <= t1 <= t2 && Planned(duration, autoplay) >= 10
    requires PlanFor(Some(duration), autoplay, UnixMilli(t1), t2).Arm?
    requires fired >= PlanFor(Some(duration), autoplay, UnixMilli(t1), t2).fireAt
    ensures Open(map[room := t0], room, fired)
  {
    MilliFloor(t1);
  }

  function NextAll(s: Sync, es: seq<Event>): Sync
    decreases |es|
  {
    if es == [] then s else NextAll(Next(s, es[0]), es[1..])
  }

  /** Known under the lock before arming: the track's end, with the slack, lies 10 s or more
      after the room's latest pass, if it had one. */
  predicate EndsClear(lastAdvance: map<RoomId, int>, room: RoomId, stamped: int, planned: int) {
    room in lastAdvance ==>
      UnixMilli(stamped) * MILLI + planned * SECOND + TIMER_SLACK >= lastAdvance[room] + DEBOUNCE
  }

  predicate Guarded(s: Sync, e: Event) {
    e.Scheduled? && e.duration.Some? && PlanOf(e).Arm? ==>
      EndsClear(s.lastAdvance, e.room, e.stamped, Planned(e.duration.value, e.autoplay))
  }

  predicate AllGuarded(s: Sync, es: seq<Event>)
    decreases |es|
  {
    es == [] || (Guarded(s, es[0]) && AllGuarded(Next(s, es[0]), es[1..]))
  }

  /** Only advance calls may happen to the room. */
  predicate OnlyCalls(es: seq<Event>, room: RoomId) {
    forall e <- es :: e.room == room ==> e.Called?
  }

  /** Calls either leave a timer and the latest pass alone, or remove the timer for good. */
  lemma {:induction false} CallsKeepOrDrop(s: Sync, es: seq<Event>, room: RoomId)
    requires OnlyCalls(es, room)
    ensures var t := NextAll(s, es);
            room in t.timers ==>
              && room in s.timers && t.timers[room] == s.timers[room]
              && (room in t.lastAdvance <==> room in s.lastAdvance)
              && (room in s.lastAdvance ==> t.lastAdvance[room] == s.lastAdvance[room])
    decreases |es|
  {
    if es == [] {
    } else {
      assert es[0] in es;
      CallsKeepOrDrop(Next(s, es[0]), es[1..], room);
    }
  }

  /** Whatever state a timer is armed in, and whatever is called before it fires: still armed, and
      firing on time, it finds the gate open if and only if its track ended clear of the pass
      that was the latest when it was armed. */
  lemma {:induction false} ArmedTimerPassesIff(s: Sync, e: Event, after: seq<Event>)
    requires e.Scheduled? && e.duration.Some? && PlanOf(e).Arm? && OnlyCalls(after, e.room)
    ensures var t := NextAll(Next(s, e), after);
            e.room in t.timers ==>
              && t.timers[e.room] == PlanOf(e).fireAt
              && (Open(t.lastAdvance, e.room, t.timers[e.room])
                  <==> EndsClear(s.lastAdvance, e.room, e.stamped, Planned(e.duration.value, e.autoplay)))
  {
    CallsKeepOrDrop(Next(s, e), after, e.room);
  }

  /** A track of at least 10 s ends clear of every pass that came before its stamp. */
  lemma LongTrackEndsClear(lastAdvance: map<RoomId, int>, room: RoomId, stamped: int, planned: int)
    requires (room in lastAdvance ==> lastAdvance[room] <= stamped) && planned >= 10
    ensures EndsClear(lastAdvance, room, stamped, planned)
  {
    MilliFloor(stamped);
  }

  /** Every armed timer fires 10 s or more after the latest pass of its room. */
  predicate Clear(s: Sync) {
    forall r <- s.timers :: r in s.lastAdvance ==> s.timers[r] - s.lastAdvance[r] >= DEBOUNCE
  }

  lemma {:induction false} StaysClear(s: Sync, es: seq<Event>)
    requires Clear(s) && AllGuarded(s, es)
    ensures Clear(NextAll(s, es))
    decreases |es|
  {
    if es == [] {
    } else {
      StaysClear(Next(s, es[0]), es[1..]);
    }
  }

  /** Over any run in which every armed track ends clear, rooms that never passed the gate
      included: a timer still armed when its time comes finds the gate open, however late it runs. */
  lemma {:induction false} ArmedTimersAlwaysPass(es: seq<Event>, room: RoomId, fired: int)
    requires AllGuarded(Sync(map[], map[]), es)
    requires var s := NextAll(Sync(map[], map[]), es); room in s.timers && fired >= s.timers[room]
    ensures Open(NextAll(Sync(map[], map[]), es).lastAdvance, room, fired)
  {
    StaysClear(Sync(map[], map[]), es);
  }

  /** It can fail: an advance of an 11 s track, slow to schedule, is overtaken by one that a
      listener's end report asked for; the timer it then arms replaces the other's and is swallowed. */
  lemma OvertakenTimerIsSwallowed()
    ensures var es := [Called(0, 0), Called(0, 10 * SECOND), Scheduled(0, 10 * SECOND, Some(200), true, 10 * SECOND),
                       Scheduled(0, 0, Some(11), true, 10 * SECOND + 1)];
            var s := NextAll(Sync(map[], map[]), es);
            0 in s.timers && !Open(s.lastAdvance, 0, s.timers[0])
  {
    var s := Sync(map[], map[]);
    var e1, e2 := Called(0, 0), Called(0, 10 * SECOND);
    var e3 := Scheduled(0, 10 * SECOND, Some(200), true, 10 * SECOND);
    var e4 := Scheduled(0, 0, Some(11), true, 10 * SECOND + 1);
    assert NextAll(Next(Next(Next(s, e1), e2), e3), [e4]) == Next(Next(Next(Next(s, e1), e2), e3), e4);
    assert NextAll(Next(Next(s, e1), e2), [e3, e4]) == NextAll(Next(Next(Next(s, e1), e2), e3), [e4]);
    assert NextAll(Next(s, e1), [e2, e3, e4]) == NextAll(Next(Next(s, e1), e2), [e3, e4]);
    assert NextAll(s, [e1, e2, e3, e4]) == NextAll(Next(s, e1), [e2, e3, e4]);
  }

  /** An advance that nothing overtakes: its timer, on time, passes if and only if what the track
      lacks of 10 s, less the slack, went by between the gate and the stamp. */
  lemma OwnTimerPassesIff(room: RoomId, t0: int, t1: int, t2: int, duration: int, autoplay: bool)
    requires PlanFor(Some(duration), autoplay, UnixMilli(t1), t2).Arm?
    ensures Open(map[room := t0], room, PlanFor(Some(duration), autoplay, UnixMilli(t1), t2).fireAt)
            <==> UnixMilli(t1) * MILLI - t0 >= (10 - Planned(duration, autoplay)) * SECOND - TIMER_SLACK
  {
    var e := Scheduled(room, t1, Some(duration), autoplay, t2);
    ArmedTimerPassesIff(Sync(map[room := t0], map[]), e, []);
    assert NextAll(Next(Sync(map[room := t0], map[]), e), []) == Next(Sync(map[room := t0], map[]), e);
  }

  /** Stamped within half a second of the gate, it passes exactly if the track is at least 10 s
      long: a shorter one is swallowed. */
  lemma PromptTimerPassesIff(room: RoomId, t0: int, t1: int, t2: int, duration: int, autoplay: bool)
    requires t0 <= t1 < t0 + TIMER_SLACK
    requires PlanFor(Some(duration), autoplay, UnixMilli(t1), t2).Arm?
    ensures Open(map[room := t0], room, PlanFor(Some(duration), autoplay, UnixMilli(t1), t2).fireAt)
            <==> Planned(duration, autoplay) >= 10
  {
    MilliFloor(t1);
    OwnTimerPassesIff(room, t0, t1, t2, duration, autoplay);
  }

  /** The branch without a timer: a track of at least 10 s that is over by the time it is
      scheduled can be swallowed in one corner only, a 10 s track whose stamp, cut to the
      millisecond, lies before the gate. */
  lemma ImmediateAdvanceSwallowedIff(room: RoomId, t0: int, t1: int, duration: int)
    requires t0 <= t1 && duration >= 10
    ensures (exists t2 :: t1 <= t2 && PlanFor(Some(duration), false, UnixMilli(t1), t2).AdvanceNow?
                          && !Open(map[room := t0], room, t2))
            <==> duration == 10 && UnixMilli(t1) * MILLI < t0
  {
    MilliFloor(t1);
    var end := UnixMilli(t1) * MILLI + duration * SECOND;
    if duration == 10 && UnixMilli(t1) * MILLI < t0 {
      assert PlanFor(Some(duration), false, UnixMilli(t1), end).AdvanceNow? && !Open(map[room := t0], room, end);
    }
  }

  /** That corner exists. */
  lemma SwallowedAdvance()
    ensures PlanFor(Some(10), false, UnixMilli(999_999), 10 * SECOND).AdvanceNow?
    ensures !Open(map[0 := 999_999], 0, 10 * SECOND)
  {
  }
}
