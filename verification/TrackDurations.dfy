/** How a track of unknown length learns its duration from listeners, once. */
module TrackDurations {
  import opened Options

  type TrackId = nat

  const MIN_REPORT: int := 60
  const MAX_TRACK_SECS: int := 10800
  const END_SLACK_MS: int := 5_000
  const UNKNOWN_MIN_MS: int := 60_000

  /** Where a positive duration came from. */
  datatype Source = Unset | Playlist | Listener

  /** A row's duration, with its history: the source, and how many reports won the write. */
  datatype Track = Track(duration: int, source: Source, wins: nat)

  function Stored(duration: int): Track {
    Track(duration, if duration > 0 then Playlist else Unset, 0)
  }

  /** The autoplay upsert: a positive playlist duration replaces, zero keeps what is there. */
  function Upserted(tracks: map<TrackId, Track>, id: TrackId, duration: int): map<TrackId, Track> {
    if id !in tracks then tracks[id := Stored(duration)]
    else if duration > 0 then tracks[id := tracks[id].(duration := duration, source := Playlist)]
    else tracks
  }

  predicate WinsWrite(tracks: map<TrackId, Track>, id: TrackId) {
    id in tracks && tracks[id].duration == 0
  }

  function Learned(tracks: map<TrackId, Track>, id: TrackId, duration: int): map<TrackId, Track> {
    if WinsWrite(tracks, id) then
      tracks[id := Track(duration, Listener, tracks[id].wins + 1)]
    else tracks
  }

  /** A listener's claim that the track ended, `elapsed` ms after it started. */
  predicate AcceptsEnd(tracks: map<TrackId, Track>, id: TrackId, elapsed: int) {
    if id in tracks && tracks[id].duration > 0 then elapsed >= tracks[id].duration * 1000 - END_SLACK_MS
    else elapsed >= UNKNOWN_MIN_MS
  }

  predicate Same(a: map<TrackId, Track>, b: map<TrackId, Track>, x: TrackId) {
    (x in a <==> x in b) && (x in a ==> a[x] == b[x])
  }

  /** What is on in a room. */
  datatype NowPlaying = NowPlaying(track: TrackId, startedAt: int, isPlaying: bool)

  class Tracks {
    var tracks: map<TrackId, Track>

    constructor ()
      ensures tracks == map[]
    {
      tracks := map[];
    }

    /** Insert that does nothing on conflict. */
    method UpsertTrack(id: TrackId, duration: int)
      modifies this
      ensures id in old(tracks) ==> tracks == old(tracks)
      ensures id !in old(tracks) ==>
                tracks == old(tracks)[id := Track(duration, if duration > 0 then Playlist else Unset, 0)]
      ensures duration >= 0 ==> tracks == Apply(old(tracks), Inserted(id, duration))
    {
      if id !in tracks {
        tracks := tracks[id := Track(duration, if duration > 0 then Playlist else Unset, 0)];
      }
    }

    /** Returns the row's effective duration. */
    method UpsertAutoplayTrack(id: TrackId, duration: int) returns (effective: int)
      modifies this
      ensures id in tracks && effective == tracks[id].duration && forall x | x != id :: Same(old(tracks), tracks, x)
      // a positive duration replaces, zero keeps what is there
      ensures effective == if duration > 0 || id !in old(tracks) then duration else old(tracks)[id].duration
      ensures tracks == Upserted(old(tracks), id, duration)
      ensures duration >= 0 ==> tracks == Apply(old(tracks), Advanced(id, duration))
    {
      if id !in tracks {
        tracks := tracks[id := Track(duration, if duration > 0 then Playlist else Unset, 0)];
      } else if duration > 0 {
        tracks := tracks[id := Track(duration, Playlist, tracks[id].wins)];
      }
      effective := tracks[id].duration;
    }

    method UpdateTrackDuration(id: TrackId, duration: int) returns (won: bool)
      modifies this
      ensures won <==> id in old(tracks) && old(tracks)[id].duration == 0
      ensures !won ==> tracks == old(tracks)
      ensures won ==> id in tracks && tracks[id].duration == duration && forall x | x != id :: Same(old(tracks), tracks, x)
      ensures tracks == Learned(old(tracks), id, duration)
      ensures duration >= 0 ==> tracks == Apply(old(tracks), Reported(id, duration))
    {
      if id in tracks && tracks[id].duration == 0 {
        tracks := tracks[id := Track(duration, Listener, tracks[id].wins + 1)];
        return true;
      }
      return false;
    }

    /** A duration report; `reschedule` is the new length of the current track's timer. */
    method HandleDurationReport(autoplay: bool, ps: Option<NowPlaying>, id: TrackId, duration: int)
      returns (reschedule: Option<int>)
      modifies this
      ensures var wins := 60 <= duration <= 10800 && autoplay
                          && ps.Some? && ps.value.track == id && ps.value.isPlaying
                          && id in old(tracks) && old(tracks)[id].duration == 0;
              && reschedule == (if wins then Some(duration) else None)
              && (wins ==> Admissible(Reported(id, duration)))
              && tracks == if wins then Learned(old(tracks), id, duration) else old(tracks)
    {
      if duration < MIN_REPORT || duration > MAX_TRACK_SECS {
        return None;
      }
      if !autoplay {
        return None;
      }
      if ps.None? || ps.value.track != id || !ps.value.isPlaying {
        return None;
      }
      if id !in tracks || tracks[id].duration > 0 {
        return None;
      }
      var won := UpdateTrackDuration(id, duration);
      if !won {
        return None;
      }
      return Some(duration);
    }

    /** An end report; true when it advances the room. */
    method HandleClientEndReport(autoplay: bool, ps: Option<NowPlaying>, now: int) returns (advance: bool)
      ensures advance <==> autoplay && ps.Some? && ps.value.isPlaying
                           && now - ps.value.startedAt >=
                                if ps.value.track in tracks && tracks[ps.value.track].duration > 0
                                then tracks[ps.value.track].duration * 1000 - 5_000
                                else 60_000
      ensures autoplay && ps.Some? && ps.value.isPlaying ==>
                advance == AcceptsEnd(tracks, ps.value.track, now - ps.value.startedAt)
    {
      if !autoplay || ps.None? || !ps.value.isPlaying {
        return false;
      }
      var elapsed := now - ps.value.startedAt;
      if ps.value.track in tracks && tracks[ps.value.track].duration > 0 {
        if elapsed < tracks[ps.value.track].duration * 1000 - END_SLACK_MS {
          return false;
        }
      } else if elapsed < UNKNOWN_MIN_MS {
        return false;
      }
      return true;
    }
  }

  /** Writes to the table. A report's write may come any time after its other checks. */
  datatype Write = Inserted(id: TrackId, duration: nat) | Advanced(id: TrackId, duration: nat) | Reported(id: TrackId, duration: nat)

  predicate Admissible(w: Write) {
    w.Reported? ==> MIN_REPORT <= w.duration <= MAX_TRACK_SECS
  }

  function Apply(tracks: map<TrackId, Track>, w: Write): map<TrackId, Track> {
    match w
    case Inserted(id, duration) => if id in tracks then tracks else tracks[id := Stored(duration)]
    case Advanced(id, duration) => Upserted(tracks, id, duration)
    case Reported(id, duration) => Learned(tracks, id, duration)
  }

  function ApplyAll(tracks: map<TrackId, Track>, ws: seq<Write>): map<TrackId, Track>
    decreases |ws|
  {
    if ws == [] then tracks else ApplyAll(Apply(tracks, ws[0]), ws[1..])
  }

  /** Learned values are sane, a duration of zero is one nobody has set, one win at most. */
  predicate Sound(tracks: map<TrackId, Track>) {
    forall id <- tracks ::
      && tracks[id].duration >= 0
      && (tracks[id].source.Unset? <==> tracks[id].duration == 0)
      && (tracks[id].source.Listener? ==> MIN_REPORT <= tracks[id].duration <= MAX_TRACK_SECS)
      && tracks[id].wins <= 1
      && (tracks[id].duration == 0 ==> tracks[id].wins == 0)
      && (tracks[id].source.Listener? ==> tracks[id].wins == 1)
  }

  /** From one table to a later one: nothing learned is lost, and wins only accumulate. */
  predicate Grows(before: map<TrackId, Track>, after: map<TrackId, Track>) {
    forall id <- before ::
      id in after && (before[id].duration > 0 ==> after[id].duration > 0) && before[id].wins <= after[id].wins
  }

  lemma InsertStaysSound(tracks: map<TrackId, Track>, id: TrackId, duration: nat)
    requires Sound(tracks)
    ensures var t := Apply(tracks, Inserted(id, duration)); Sound(t) && Grows(tracks, t)
  {
  }

  lemma UpsertStaysSound(tracks: map<TrackId, Track>, id: TrackId, duration: nat)
    requires Sound(tracks)
    ensures var t := Apply(tracks, Advanced(id, duration)); Sound(t) && Grows(tracks, t)
  {
  }

  lemma ReportStaysSound(tracks: map<TrackId, Track>, id: TrackId, duration: nat)
    requires Sound(tracks) && MIN_REPORT <= duration <= MAX_TRACK_SECS
    ensures var t := Apply(tracks, Reported(id, duration)); Sound(t) && Grows(tracks, t)
  {
  }

  lemma GrowsOn(a: map<TrackId, Track>, b: map<TrackId, Track>, c: map<TrackId, Track>)
    requires Grows(a, b) && Grows(b, c)
    ensures Grows(a, c)
  {
  }

  lemma {:induction false} StaysSound(tracks: map<TrackId, Track>, ws: seq<Write>)
    requires Sound(tracks) && forall w <- ws :: Admissible(w)
    ensures Sound(ApplyAll(tracks, ws)) && Grows(tracks, ApplyAll(tracks, ws))
    decreases |ws|
  {
    if ws == [] {
    } else {
      assert ws[0] in ws;
      match ws[0] {
        case Inserted(id, duration) => InsertStaysSound(tracks, id, duration);
        case Advanced(id, duration) => UpsertStaysSound(tracks, id, duration);
        case Reported(id, duration) => ReportStaysSound(tracks, id, duration);
      }
      StaysSound(Apply(tracks, ws[0]), ws[1..]);
      GrowsOn(tracks, Apply(tracks, ws[0]), ApplyAll(tracks, ws));
    }
  }

  /** Over any run: a positive duration never returns to zero, and of two reports for one
      track at most one wins. */
  lemma {:induction false} LearnOnce(before: seq<Write>, id: TrackId, first: nat, between: seq<Write>, second: nat)
    requires (forall w <- before :: Admissible(w)) && (forall w <- between :: Admissible(w))
    requires Admissible(Reported(id, first))
    requires WinsWrite(ApplyAll(map[], before), id)
    ensures var s := ApplyAll(map[], before);
            var t := ApplyAll(Apply(s, Reported(id, first)), between);
            && id in t && t[id].duration > 0 && t[id].wins == 1
            && !WinsWrite(t, id) && Apply(t, Reported(id, second)) == t
  {
    var s := ApplyAll(map[], before);
    StaysSound(map[], before);
    StaysSound(Apply(s, Reported(id, first)), between);
  }

  /** Unless the playlist itself gave a length, no listener report ends a track before 55 s. */
  lemma {:induction false} NoEarlyAdvance(ws: seq<Write>, id: TrackId, elapsed: int)
    requires forall w <- ws :: Admissible(w)
    requires var tracks := ApplyAll(map[], ws);
             AcceptsEnd(tracks, id, elapsed) && (id in tracks ==> !tracks[id].source.Playlist?)
    ensures elapsed >= 55_000
  {
    StaysSound(map[], ws);
  }
}
