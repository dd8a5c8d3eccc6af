/** The looping playlist of an autoplay room: which track plays next, also across live edits. */
module AutoplayRotation {
  import opened Options

  datatype Track = Track(url: string, title: string)
  datatype Playlist = Playlist(tracks: seq<Track>, currentIndex: int)

  /** currentIndex is the playing row, or -1 before the first advance. */
  function NextIndex(currentIndex: int, length: int): (next: int)
    ensures length > 0 ==> 0 <= next < length
  {
    if length <= 0 then 0
    else if currentIndex < 0 then 0
    else (currentIndex + 1) % length
  }

  function Advanced(p: Playlist): Playlist {
    if p.tracks == [] then p else p.(currentIndex := NextIndex(p.currentIndex, |p.tracks|))
  }

  /** i is the first row with this url. */
  predicate FirstWith(tracks: seq<Track>, url: string, i: int) {
    0 <= i < |tracks| && tracks[i].url == url && forall k | 0 <= k < i :: tracks[k].url != url
  }

  predicate Lists(tracks: seq<Track>, url: string) {
    exists i | 0 <= i < |tracks| :: tracks[i].url == url
  }

  /** The index in [-1, length). */
  predicate InRange(p: Playlist) {
    -1 <= p.currentIndex && (p.currentIndex < |p.tracks| || p.currentIndex == -1)
  }

  class AutoplayRoom {
    var live: Option<Playlist>
    var staged: Option<Playlist>

    constructor ()
      ensures live == None && staged == None
    {
      live, staged := None, None;
    }

    method SaveStaged(tracks: seq<Track>)
      modifies this`staged
      ensures staged == Some(Playlist(tracks, 0))
    {
      staged := Some(Playlist(tracks, 0));
    }

    /** Deletes the old live playlist and promotes the staged one, from before its first row. */
    method ActivateStagedPlaylist() returns (now: Option<Playlist>)
      modifies this
      ensures live == if old(staged).Some? then Some(Playlist(old(staged).value.tracks, -1)) else None
      ensures staged == None && now == live
      ensures old(live).Some? && old(staged).Some? ==> Follows(old(live).value, Activated(old(staged).value.tracks), live.value)
    {
      live := None;
      if staged.Some? {
        live := Some(staged.value.(currentIndex := -1));
      }
      staged := None;
      now := live;
    }

    method GetNextAutoplayTrack() returns (next: Option<(Track, int)>)
      modifies this`live
      ensures old(live) == None || old(live).value.tracks == [] ==> next == None && live == old(live)
      ensures old(live) != None && old(live).value.tracks != [] ==>
                && var p := old(live).value;
                var row := if p.currentIndex < 0 then 0 else (p.currentIndex + 1) % |p.tracks|;
                && live == Some(Playlist(p.tracks, row)) && next == Some((p.tracks[row], row))
                && Follows(p, Next, live.value)
    {
      if live.None? || live.value.tracks == [] {
        return None;
      }
      var p := live.value;
      var nextIdx := NextIndex(p.currentIndex, |p.tracks|);
      live := Some(p.(currentIndex := nextIdx));
      return Some((p.tracks[nextIdx], nextIdx));
    }

    /** Replaces the live tracks under the listeners; `playing` is the url on air, if any. */
    method UpdateLiveTracks(tracks: seq<Track>, playing: Option<string>) returns (ok: bool)
      modifies this`live
      ensures ok == (tracks != [] && old(live).Some?)
      ensures !ok ==> live == old(live)
      ensures ok ==> live.Some? && Follows(old(live).value, Edited(tracks, playing), live.value)
      // the first row with the url on air, if any
      ensures ok ==> live.value.tracks == tracks
      ensures ok && playing.Some? && playing.value != "" && (exists i | 0 <= i < |tracks| :: tracks[i].url == playing.value) ==>
                  && 0 <= live.value.currentIndex < |tracks|
                  && tracks[live.value.currentIndex].url == playing.value
                  && forall i | 0 <= i < live.value.currentIndex :: tracks[i].url != playing.value
      // otherwise an index in range stays, one past the end becomes the last row
      ensures ok && (playing.Some? && playing.value != "" ==> forall i | 0 <= i < |tracks| :: tracks[i].url != playing.value) ==>
                var was := old(live).value.currentIndex;
                live.value.currentIndex == if was >= |tracks| then |tracks| - 1 else if was < -1 then -1 else was
    {
      if tracks == [] || live.None? {
        return false;
      }
      var newIndex := live.value.currentIndex;
      if playing.Some? && playing.value != "" {
        var matchIdx := -1;
        var i := 0;
        while i < |tracks|
          invariant 0 <= i <= |tracks|
          invariant matchIdx == -1 && forall k | 0 <= k < i :: tracks[k].url != playing.value
        {
          if tracks[i].url == playing.value {
            matchIdx := i;
            break;
          }
          i := i + 1;
        }
        if matchIdx >= 0 {
          newIndex := matchIdx;
        }
      }
      if newIndex >= |tracks| {
        newIndex := |tracks| - 1;
      }
      if newIndex < -1 {
        newIndex := -1;
      }
      live := Some(Playlist(tracks, newIndex));
      return true;
    }
  }

  function Clamp(index: int, length: int): int {
    if index >= length then length - 1 else if index < -1 then -1 else index
  }

  /** Rows played by n advances in a row. */
  function Plays(index: int, length: int, n: nat): (rows: seq<int>)
    requires length > 0
    ensures |rows| == n
    decreases n
  {
    if n == 0 then []
    else [NextIndex(index, length)] + Plays(NextIndex(index, length), length, n - 1)
  }

  lemma {:induction false} AtLeastOne(n: nat, k: int)
    requires k >= 1
    ensures n * k >= n
    decreases k
  {
    if k > 1 {
      AtLeastOne(n, k - 1);
      assert n * k == n * (k - 1) + n;
    }
  }

  /** Quotient and remainder are unique. */
  lemma Mod(x: int, n: nat, q: int, r: int)
    requires n > 0 && 0 <= r < n && x == n * q + r
    ensures x % n == r
  {
    var d := q - x / n;
    assert n * d == n * q - n * (x / n);
    if d >= 1 {
      AtLeastOne(n, d);
    } else if d <= -1 {
      AtLeastOne(n, -d);
    }
  }

  lemma AddLap(i: int, length: nat)
    requires length > 0
    ensures (i + length) % length == i % length
  {
    var q := i / length;
    assert length * (q + 1) == length * q + length;
    Mod(i + length, length, q + 1, i % length);
  }

  lemma NextRow(index: int, length: nat)
    requires length > 0 && -1 <= index < length
    ensures NextIndex(index, length) == if index + 1 == length then 0 else index + 1
  {
    if index + 1 == length {
      Mod(index + 1, length, 1, 0);
    } else {
      Mod(index + 1, length, 0, index + 1);
    }
  }

  lemma {:induction false} PlaysCyclically(index: int, length: nat, n: nat, i: nat)
    requires length > 0 && -1 <= index < length && i < n
    ensures Plays(index, length, n)[i] == (index + 1 + i) % length
    decreases n
  {
    NextRow(index, length);
    if i == 0 {
      if index + 1 < length {
        Mod(index + 1, length, 0, index + 1);
      } else {
        Mod(index + 1, length, 1, 0);
      }
    } else {
      PlaysCyclically(NextIndex(index, length), length, n - 1, i - 1);
      if index + 1 == length {
        AddLap(i, length);
        assert index + 1 + i == i + length;
      }
    }
  }

  /** From activation, the n-th advance plays row (n - 1) mod length. */
  lemma {:induction false} RotationFromActivation(length: nat, n: nat, i: nat)
    requires length > 0 && i < n
    ensures Plays(-1, length, n)[i] == i % length
  {
    PlaysCyclically(-1, length, n, i);
  }

  function Count(rows: seq<int>, row: int): nat {
    if rows == [] then 0 else Count(rows[..|rows|-1], row) + if rows[|rows|-1] == row then 1 else 0
  }

  lemma {:induction false} CountJoin(xs: seq<int>, ys: seq<int>, row: int)
    ensures Count(xs + ys, row) == Count(xs, row) + Count(ys, row)
  {
    if ys == [] {
      assert xs + ys == xs;
    } else {
      assert (xs + ys)[..|xs + ys|-1] == xs + ys[..|ys|-1];
      CountJoin(xs, ys[..|ys|-1], row);
    }
  }

  /** One lap: each row once. */
  lemma {:induction false} CountUpTo(rows: seq<int>, row: int)
    requires forall i | 0 <= i < |rows| :: rows[i] == i
    ensures Count(rows, row) == if 0 <= row < |rows| then 1 else 0
  {
    if rows != [] {
      CountUpTo(rows[..|rows|-1], row);
    }
  }

  lemma {:induction false} PlaysJoin(index: int, length: int, m: nat, n: nat)
    requires length > 0 && m > 0
    ensures Plays(index, length, m + n) == Plays(index, length, m) + Plays(Plays(index, length, m)[m-1], length, n)
    decreases m
  {
    var next := NextIndex(index, length);
    var whole, front := Plays(next, length, m - 1 + n), Plays(next, length, m - 1);
    assert Plays(index, length, m + n) == [next] + whole;
    assert Plays(index, length, m) == [next] + front;
    if m == 1 {
      assert front == [];
    } else {
      PlaysJoin(next, length, m - 1, n);
      assert Plays(index, length, m)[m-1] == front[m-2];
    }
  }

  /** A lap that begins before the first row plays the rows in order. */
  lemma {:induction false} OneLap(index: int, length: nat, i: nat)
    requires index == -1 || index == length - 1
    requires i < length
    ensures Plays(index, length, length)[i] == i
  {
    PlaysCyclically(index, length, length, i);
    Mod(i, length, 0, i);
    AddLap(i, length);
  }

  /** Every laps * length advances play each row exactly `laps` times. */
  lemma {:induction false} EveryRowEquallyOften(index: int, length: nat, laps: nat, row: int)
    requires (index == -1 || index == length - 1) && 0 <= row < length
    ensures Count(Plays(index, length, laps * length), row) == laps
    decreases laps
  {
    if laps == 0 {
      assert Plays(index, length, 0) == [];
    } else {
      var lap := Plays(index, length, length);
      var rest := (laps - 1) * length;
      forall i: nat | i < length ensures lap[i] == i {
        OneLap(index, length, i);
      }
      assert laps * length == length + rest;
      PlaysJoin(index, length, length, rest);
      CountUpTo(lap, row);
      EveryRowEquallyOften(length - 1, length, laps - 1, row);
      CountJoin(lap, Plays(length - 1, length, rest), row);
    }
  }

  /** What can happen to a live playlist, each as one step. */
  datatype Step = Activated(tracks: seq<Track>) | Next | Edited(tracks: seq<Track>, playing: Option<string>)

  /** The playlist a step leaves, as the methods above promise it. */
  predicate Follows(p: Playlist, s: Step, q: Playlist) {
    match s
    case Activated(tracks) => q == Playlist(tracks, -1)
    case Next => q == Advanced(p)
    case Edited(tracks, playing) =>
      if tracks == [] then q == p
      else q.tracks == tracks &&
           if playing.Some? && playing.value != "" && Lists(tracks, playing.value)
           then FirstWith(tracks, playing.value, q.currentIndex)
           else q.currentIndex == Clamp(p.currentIndex, |tracks|)
  }

  /** Activation, advances and live edits keep the index in [-1, length). */
  lemma {:induction false} IndexStaysInRange(ps: seq<Playlist>, steps: seq<Step>, i: nat)
    requires |ps| == |steps| + 1 && InRange(ps[0])
    requires forall k | 0 <= k < |steps| :: Follows(ps[k], steps[k], ps[k + 1])
    requires i < |ps|
    ensures InRange(ps[i])
  {
    if i > 0 {
      IndexStaysInRange(ps, steps, i - 1);
      assert Follows(ps[i - 1], steps[i - 1], ps[i - 1 + 1]);
    }
  }

  /** After an edit that keeps the url on air, the next advance plays the row after its first
      occurrence, cyclically. */
  lemma EditKeepsThePlace(p: Playlist, tracks: seq<Track>, url: string, q: Playlist, at: int)
    requires url != "" && FirstWith(tracks, url, at)
    requires Follows(p, Edited(tracks, Some(url)), q)
    ensures Advanced(q).currentIndex == (at + 1) % |tracks|
  {
    assert Lists(tracks, url);
  }

  /** GetNextAutoplayTrack reads the playlist and writes the index in two statements. With an
      edit in between, the index stays in range exactly if the row it computed still exists. */
  lemma SplitAdvanceInRangeIff(read: Playlist, edited: Playlist)
    requires read.tracks != [] && edited.tracks != []
    ensures InRange(edited.(currentIndex := NextIndex(read.currentIndex, |read.tracks|)))
            <==> NextIndex(read.currentIndex, |read.tracks|) < |edited.tracks|
  {
  }

  /** An edit that shortens the list breaks it, and the advance after that heals it. */
  lemma SplitAdvanceCanOverrun(a: Track, b: Track)
    ensures var read, edited := Playlist([a, b, b], 1), Playlist([a], 0);
            var torn := edited.(currentIndex := NextIndex(read.currentIndex, 3));
            && InRange(read) && InRange(edited) && !InRange(torn) && InRange(Advanced(torn))
  {
  }
}
