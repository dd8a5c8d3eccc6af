/** The position listeners derive from the playback state, against the time really played.
    Instants are unix milliseconds; the stored pause position is in whole seconds. */
module PauseResume {

  datatype Playback = Playback(startedAt: int, isPlaying: bool, pausePosition: int)

  /** Go's integer division truncates toward zero. */
  function Truncated(a: int, b: nat): int
    requires b > 0
  {
    if a >= 0 then a / b else -(-a / b)
  }

  function Paused(p: Playback, now: int): Playback {
    if p.isPlaying then p.(isPlaying := false, pausePosition := Truncated(now - p.startedAt, 1000)) else p
  }

  function Resumed(p: Playback, now: int): Playback {
    if p.isPlaying then p else p.(startedAt := now - p.pausePosition * 1000, isPlaying := true)
  }

  class RoomPlayback {
    var startedAt: int
    var isPlaying: bool
    var pausePosition: int

    /** A track has just started. */
    constructor (now: int)
      ensures View() == Playback(now, true, 0)
    {
      startedAt, isPlaying, pausePosition := now, true, 0;
    }

    function View(): Playback
      reads this
    {
      Playback(startedAt, isPlaying, pausePosition)
    }

    method DjPause(now: int)
      modifies this
      ensures !isPlaying && startedAt == old(startedAt)
      // the whole seconds played, cut toward zero
      ensures old(isPlaying) && now >= startedAt ==> pausePosition * 1000 <= now - startedAt < pausePosition * 1000 + 1000
      ensures old(isPlaying) && now < startedAt ==> pausePosition * 1000 - 1000 < now - startedAt <= pausePosition * 1000
      ensures !old(isPlaying) ==> pausePosition == old(pausePosition)
      ensures View() == Paused(old(View()), now)
    {
      if isPlaying {
        var elapsed := Truncated(now - startedAt, 1000);
        isPlaying := false;
        pausePosition := elapsed;
      }
    }

    method DjResume(now: int)
      modifies this
      ensures isPlaying && pausePosition == old(pausePosition)
      ensures startedAt == if old(isPlaying) then old(startedAt) else now - pausePosition * 1000
      ensures View() == Resumed(old(View()), now)
    {
      if !isPlaying {
        startedAt := now - pausePosition * 1000;
        isPlaying := true;
      }
    }
  }

  /** What a listener computes, in milliseconds into the track. */
  function Position(p: Playback, now: int): int {
    if p.isPlaying then now - p.startedAt else p.pausePosition * 1000
  }

  datatype Press = Pause(at: int) | Resume(at: int)

  /** The state, with the music really played up to `at` and the pauses that took effect. */
  datatype Session = Session(p: Playback, played: int, at: int, pauses: nat)

  function Played(s: Session, now: int): int {
    s.played + if s.p.isPlaying then now - s.at else 0
  }

  function Press1(s: Session, b: Press): Session {
    match b
    case Pause(at) => Session(Paused(s.p, at), Played(s, at), at, if s.p.isPlaying then s.pauses + 1 else s.pauses)
    case Resume(at) => Session(Resumed(s.p, at), Played(s, at), at, s.pauses)
  }

  function PressAll(s: Session, bs: seq<Press>): Session
    decreases |bs|
  {
    if bs == [] then s else PressAll(Press1(s, bs[0]), bs[1..])
  }

  predicate InOrder(from: int, bs: seq<Press>)
    decreases |bs|
  {
    bs != [] ==> from <= bs[0].at && InOrder(bs[0].at, bs[1..])
  }

  /** The derived position never runs ahead, and is behind by less than a second per pause. */
  predicate Tracks(s: Session) {
    && Position(s.p, s.at) >= 0
    && 0 <= Played(s, s.at) - Position(s.p, s.at) <= 999 * s.pauses
  }

  lemma {:induction false} StaysOnTrack(s: Session, bs: seq<Press>)
    requires Tracks(s) && InOrder(s.at, bs)
    ensures Tracks(PressAll(s, bs)) && s.at <= PressAll(s, bs).at
    decreases |bs|
  {
    if bs == [] {
    } else {
      StaysOnTrack(Press1(s, bs[0]), bs[1..]);
    }
  }

  /** For any presses of pause and resume in time order, at any later moment: the derived
      position is at most the time played, and lags it by at most 999 ms per pause. */
  lemma {:induction false} DriftIsBounded(start: int, bs: seq<Press>, now: int)
    requires InOrder(start, bs)
    requires now >= PressAll(Session(Playback(start, true, 0), 0, start, 0), bs).at
    ensures var s := PressAll(Session(Playback(start, true, 0), 0, start, 0), bs);
            && Position(s.p, now) <= Played(s, now)
            && Played(s, now) - Position(s.p, now) <= 999 * s.pauses
  {
    StaysOnTrack(Session(Playback(start, true, 0), 0, start, 0), bs);
  }

  /** The bound is reached: one pause can cost 999 ms. */
  lemma OnePauseCanCostAlmostASecond()
    ensures var s := PressAll(Session(Playback(0, true, 0), 0, 0, 0), [Pause(1999), Resume(5000)]);
            Played(s, 5000) - Position(s.p, 5000) == 999 && s.pauses == 1
  {
    var s0 := Session(Playback(0, true, 0), 0, 0, 0);
    var bs := [Pause(1999), Resume(5000)];
    var s1 := Press1(s0, bs[0]);
    assert bs[1..] == [Resume(5000)] && bs[1..][1..] == [];
    assert PressAll(s1, bs[1..]) == Press1(s1, Resume(5000));
  }
}
