/** Auto-closing of live rooms that stay without playback and without queued tracks. */
module IdleRooms {
  import opened Options

  type RoomId = nat

  /** In milliseconds. */
  const IDLE_TIMEOUT: int := 15 * 60 * 1000

  /** One row of the room list with what the batched reads said about it. */
  datatype Room = Room(id: RoomId, isLive: bool, hasPlayback: bool, queued: int)

  predicate Silent(r: Room) {
    r.isLive && !r.hasPlayback && r.queued <= 0
  }

  /** A tick that got all its data, or one that had to be skipped. */
  datatype Tick = Completed(now: int, rooms: seq<Room>) | Skipped

  /** The list has one row per room. */
  predicate Distinct(rooms: seq<Room>) {
    forall i, j | 0 <= i < j < |rooms| :: rooms[i].id != rooms[j].id
  }

  predicate WellFormed(t: Tick) {
    t.Completed? ==> Distinct(t.rooms)
  }

  /** The tick completed and saw the room live, without playback and without queue. */
  predicate SawSilent(t: Tick, id: RoomId) {
    t.Completed? && exists i | 0 <= i < |t.rooms| :: t.rooms[i].id == id && Silent(t.rooms[i])
  }

  predicate Due(before: map<RoomId, int>, r: Room, now: int) {
    Silent(r) && r.id in before && now - before[r.id] >= IDLE_TIMEOUT
  }

  /** Since when the row's room is tracked after the tick. */
  function Since(before: map<RoomId, int>, r: Room, now: int): Option<int> {
    if !Silent(r) || Due(before, r, now) then None
    else if r.id in before then Some(before[r.id])
    else Some(now)
  }

  function ActiveIds(rooms: seq<Room>): set<RoomId> {
    set i | 0 <= i < |rooms| && rooms[i].isLive :: rooms[i].id
  }

  function ClosedBy(before: map<RoomId, int>, rooms: seq<Room>, now: int): set<RoomId> {
    set i | 0 <= i < |rooms| && Due(before, rooms[i], now) :: rooms[i].id
  }

  /** The tracking map after a completed tick: a live row is tracked as Since says, nothing
      else is tracked. */
  predicate Tracked(before: map<RoomId, int>, rooms: seq<Room>, now: int, after: map<RoomId, int>) {
    && after.Keys <= ActiveIds(rooms)
    && forall i | 0 <= i < |rooms| && rooms[i].isLive ::
         if Since(before, rooms[i], now).Some?
         then rooms[i].id in after && after[rooms[i].id] == Since(before, rooms[i], now).value
         else rooms[i].id !in after
  }

  /** What a completed tick does, row by row: it closes the live rooms without playback and approved
      queue that are tracked for 15 minutes, tracks the others like that since they were or since
      now, and nothing else. */
  ghost predicate Answers(before: map<RoomId, int>, rooms: seq<Room>, now: int, closed: set<RoomId>, after: map<RoomId, int>) {
    && (forall i | 0 <= i < |rooms| ::
          var r := rooms[i];
          r.id in closed <==>
            && r.isLive && !r.hasPlayback && r.queued <= 0
            && r.id in before && now - before[r.id] >= 900_000)
    && (forall i | 0 <= i < |rooms| ::
          var r := rooms[i];
          && (r.id in after <==> r.isLive && !r.hasPlayback && r.queued <= 0 && r.id !in closed)
          && (r.id in after ==> after[r.id] == if r.id in before then before[r.id] else now))
    && (forall id | id in after || id in closed :: exists i :: 0 <= i < |rooms| && rooms[i].id == id)
  }

  lemma CheckAnswers(before: map<RoomId, int>, rooms: seq<Room>, now: int, closed: set<RoomId>, after: map<RoomId, int>)
    requires Distinct(rooms) && closed == ClosedBy(before, rooms, now) && Tracked(before, rooms, now, after)
    ensures Answers(before, rooms, now, closed, after)
  {
    forall i | 0 <= i < |rooms| ensures rooms[i].id in closed <==> Due(before, rooms[i], now) {
      if rooms[i].id in closed {
        var k :| 0 <= k < |rooms| && Due(before, rooms[k], now) && rooms[k].id == rooms[i].id;
      }
    }
    forall i | 0 <= i < |rooms| && rooms[i].id in after ensures rooms[i].isLive {
      var k :| 0 <= k < |rooms| && rooms[k].isLive && rooms[k].id == rooms[i].id;
    }
  }

  class IdleMonitor {
    var idleSince: map<RoomId, int>

    constructor ()
      ensures idleSince == map[]
    {
      idleSince := map[];
    }

    /** check; the tick carries the data of the reads, or says that one of them failed. */
    method Check(tick: Tick) returns (closed: set<RoomId>)
      requires WellFormed(tick)
      modifies this
      ensures tick.Skipped? ==> closed == {} && idleSince == old(idleSince)
      ensures tick.Completed? ==> Answers(old(idleSince), tick.rooms, tick.now, closed, idleSince)
      ensures tick.Completed? ==> closed == ClosedBy(old(idleSince), tick.rooms, tick.now)
      ensures tick.Completed? ==> Tracked(old(idleSince), tick.rooms, tick.now, idleSince)
    {
      closed := {};
      if tick.Skipped? {
        return;
      }
      var rooms, now := tick.rooms, tick.now;
      ghost var before := idleSince;
      var active: set<RoomId> := {};
      var i := 0;
      while i < |rooms|
        invariant 0 <= i <= |rooms|
        invariant active == set k | 0 <= k < i && rooms[k].isLive :: rooms[k].id
        invariant closed == set k | 0 <= k < i && Due(before, rooms[k], now) :: rooms[k].id
        invariant forall id | id !in active :: id in idleSince <==> id in before
        invariant forall id | id !in active && id in before :: idleSince[id] == before[id]
        invariant forall k | 0 <= k < i && rooms[k].isLive ::
                    if Since(before, rooms[k], now).Some?
                    then rooms[k].id in idleSince && idleSince[rooms[k].id] == Since(before, rooms[k], now).value
                    else rooms[k].id !in idleSince
      {
        var room := rooms[i];
        assert room.id !in active;
        if room.isLive {
          active := active + {room.id};
          if room.hasPlayback || room.queued > 0 {
            idleSince := idleSince - {room.id};
          } else if room.id !in idleSince {
            idleSince := idleSince[room.id := now];
          } else if now - idleSince[room.id] >= IDLE_TIMEOUT {
            closed := closed + {room.id};
            idleSince := idleSince - {room.id};
          }
        }
        i := i + 1;
      }
      // rooms that are no longer live
      var rest := idleSince.Keys;
      ghost var scanned := idleSince;
      while rest != {}
        invariant idleSince.Keys <= scanned.Keys && forall id <- idleSince :: idleSince[id] == scanned[id]
        invariant forall id <- scanned :: id in active ==> id in idleSince
        invariant forall id <- idleSince :: id in active || id in rest
      {
        var id :| id in rest;
        if id !in active {
          idleSince := idleSince - {id};
        }
        rest := rest - {id};
      }
      CheckAnswers(before, rooms, now, closed, idleSince);
    }
  }

  /** sinces[i] is the tracking map before tick i, from the empty one. */
  predicate Monitored(ticks: seq<Tick>, sinces: seq<map<RoomId, int>>) {
    && |sinces| == |ticks| + 1 && sinces[0] == map[]
    && forall i | 0 <= i < |ticks| ::
         WellFormed(ticks[i]) && if ticks[i].Completed? then Tracked(sinces[i], ticks[i].rooms, ticks[i].now, sinces[i + 1])
                                 else sinces[i + 1] == sinces[i]
  }

  /** From tick m on, every completed tick before n saw the room silent. */
  predicate SilentFrom(ticks: seq<Tick>, m: nat, n: nat, id: RoomId)
    requires n <= |ticks|
  {
    forall k | m <= k < n && ticks[k].Completed? :: SawSilent(ticks[k], id)
  }

  /** Tick k closes the room. */
  predicate Closes(ticks: seq<Tick>, sinces: seq<map<RoomId, int>>, k: nat, id: RoomId)
    requires k < |ticks| && k < |sinces|
  {
    ticks[k].Completed? && id in ClosedBy(sinces[k], ticks[k].rooms, ticks[k].now)
  }

  /** A tracked room has been silent, and so live, ever since the tick that began tracking it. */
  lemma {:induction false} TrackedMeansSilent(ticks: seq<Tick>, sinces: seq<map<RoomId, int>>, n: nat, id: RoomId)
    returns (m: nat)
    requires Monitored(ticks, sinces) && n <= |ticks| && id in sinces[n]
    ensures m < n && ticks[m].Completed? && ticks[m].now == sinces[n][id] && SilentFrom(ticks, m, n, id)
    decreases n
  {
    var t := ticks[n - 1];
    if t.Skipped? {
      m := TrackedMeansSilent(ticks, sinces, n - 1, id);
    } else {
      assert Tracked(sinces[n - 1], t.rooms, t.now, sinces[n - 1 + 1]);
      var i :| 0 <= i < |t.rooms| && t.rooms[i].isLive && t.rooms[i].id == id;
      assert SawSilent(t, id);
      if id in sinces[n - 1] {
        m := TrackedMeansSilent(ticks, sinces, n - 1, id);
      } else {
        m := n - 1;
      }
    }
  }

  /** Whenever a tick closes a room, some completed tick at least 15 minutes earlier and every
      completed tick from it on saw the room live, without playback and without queue. */
  lemma ClosedOnlyAfterLongSilence(ticks: seq<Tick>, sinces: seq<map<RoomId, int>>, n: nat, id: RoomId)
    returns (m: nat)
    requires Monitored(ticks, sinces) && n < |ticks| && Closes(ticks, sinces, n, id)
    ensures m < n && ticks[m].Completed? && ticks[n].now - ticks[m].now >= IDLE_TIMEOUT
    ensures SilentFrom(ticks, m, n + 1, id)
  {
    m := TrackedMeansSilent(ticks, sinces, n, id);
    assert SawSilent(ticks[n], id);
  }

  /** And such a room is not spared: when every completed tick of a stretch saw it silent, the
      first and the last completed and lie 15 minutes apart, and no earlier tick of it closed the
      room, the last one does; failed ticks in between change nothing. */
  lemma LongSilenceCloses(ticks: seq<Tick>, sinces: seq<map<RoomId, int>>, m: nat, n: nat, id: RoomId)
    requires Monitored(ticks, sinces) && m < n < |ticks|
    requires SilentFrom(ticks, m, n + 1, id)
    requires forall k | m <= k < n :: !Closes(ticks, sinces, k, id)
    requires id !in sinces[m] && ticks[m].Completed? && ticks[n].Completed?
    requires ticks[n].now - ticks[m].now >= IDLE_TIMEOUT
    ensures Closes(ticks, sinces, n, id)
  {
    KeepsTracking(ticks, sinces, m, n, id);
    assert SawSilent(ticks[n], id);
    var i :| 0 <= i < |ticks[n].rooms| && ticks[n].rooms[i].id == id && Silent(ticks[n].rooms[i]);
    assert Due(sinces[n], ticks[n].rooms[i], ticks[n].now);
  }

  lemma {:induction false} KeepsTracking(ticks: seq<Tick>, sinces: seq<map<RoomId, int>>, m: nat, n: nat, id: RoomId)
    requires Monitored(ticks, sinces) && m < n <= |ticks|
    requires SilentFrom(ticks, m, n, id)
    requires forall k | m <= k < n :: !Closes(ticks, sinces, k, id)
    requires id !in sinces[m] && ticks[m].Completed?
    ensures id in sinces[n] && sinces[n][id] == ticks[m].now
    decreases n
  {
    var t := ticks[n - 1];
    if m < n - 1 {
      KeepsTracking(ticks, sinces, m, n - 1, id);
    }
    if t.Completed? {
      assert SawSilent(t, id) && !Closes(ticks, sinces, n - 1, id);
      var i :| 0 <= i < |t.rooms| && t.rooms[i].id == id && Silent(t.rooms[i]);
      assert !Due(sinces[n - 1], t.rooms[i], t.now);
      assert Tracked(sinces[n - 1], t.rooms, t.now, sinces[n - 1 + 1]);
    } else {
      assert sinces[n - 1 + 1] == sinces[n - 1];
    }
  }
}
