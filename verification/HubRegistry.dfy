/** HubManager: at most one hub per room that has not been removed. A hub's OnShutdown runs at
    most once (HubSafety.PendingIsExact) and removes by room, not by hub. */
module HubRegistry {

  type RoomId = nat
  type HubId = nat

  /** The manager's map, and the history it answers for: the room of every hub ever created
      and the hubs whose OnShutdown has run. */
  datatype Registry = Registry(hubs: map<RoomId, HubId>, rooms: map<HubId, RoomId>, removed: set<HubId>)

  datatype Call = GetOrCreate(room: RoomId, candidate: HubId) | Shutdown(hub: HubId)

  class HubManager {
    var hubs: map<RoomId, HubId>

    constructor ()
      ensures hubs == map[]
    {
      hubs := map[];
    }

    /** `candidate` is the hub NewHub would allocate. */
    method GetOrCreate(room: RoomId, candidate: HubId) returns (hub: HubId)
      modifies this
      ensures hub == if room in old(hubs) then old(hubs)[room] else candidate
      ensures hubs == if room in old(hubs) then old(hubs) else old(hubs)[room := candidate]
      ensures hubs == Opened(old(hubs), room, candidate)
    {
      if room in hubs {
        return hubs[room];
      }
      hubs := hubs[room := candidate];
      return candidate;
    }

    method Remove(room: RoomId)
      modifies this
      ensures hubs == old(hubs) - {room}
    {
      hubs := map r | r in hubs && r != room :: hubs[r];
    }
  }

  function Opened(hubs: map<RoomId, HubId>, room: RoomId, candidate: HubId): map<RoomId, HubId> {
    if room in hubs then hubs else hubs[room := candidate]
  }

  /** NewHub allocates a hub never seen before; a hub shuts down at most once. */
  predicate Legal(r: Registry, c: Call) {
    match c
    case GetOrCreate(_, candidate) => candidate !in r.rooms
    case Shutdown(hub) => hub in r.rooms && hub !in r.removed
  }

  function Apply(r: Registry, c: Call): Registry
    requires Legal(r, c)
  {
    match c
    case GetOrCreate(room, candidate) =>
      r.(hubs := Opened(r.hubs, room, candidate), rooms := if room in r.hubs then r.rooms else r.rooms[candidate := room])
    case Shutdown(hub) => r.(hubs := r.hubs - {r.rooms[hub]}, removed := r.removed + {hub})
  }

  predicate Lawful(r: Registry, calls: seq<Call>)
    decreases |calls|
  {
    calls == [] || (Legal(r, calls[0]) && Lawful(Apply(r, calls[0]), calls[1..]))
  }

  function After(r: Registry, calls: seq<Call>): Registry
    requires Lawful(r, calls)
    decreases |calls|
  {
    if calls == [] then r else After(Apply(r, calls[0]), calls[1..])
  }

  /** The map lists exactly the hubs that were created and not removed. */
  predicate Exact(r: Registry) {
    && (forall h <- r.rooms | h !in r.removed :: r.rooms[h] in r.hubs && r.hubs[r.rooms[h]] == h)
    && (forall room <- r.hubs :: r.hubs[room] in r.rooms && r.rooms[r.hubs[room]] == room && r.hubs[room] !in r.removed)
    && r.removed <= r.rooms.Keys
  }

  lemma {:induction false} StaysExact(r: Registry, calls: seq<Call>)
    requires Exact(r) && Lawful(r, calls)
    ensures Exact(After(r, calls))
    decreases |calls|
  {
    if calls == [] {
    } else {
      StaysExact(Apply(r, calls[0]), calls[1..]);
    }
  }

  /** A call serves the room the hub it has, or registers the new one; a removal frees the room. */
  lemma CallsServe(r: Registry, room: RoomId, candidate: HubId)
    requires Legal(r, GetOrCreate(room, candidate))
    ensures var t := Apply(r, GetOrCreate(room, candidate));
            if room in r.hubs then t == r
            else t == Registry(r.hubs[room := candidate], r.rooms[candidate := room], r.removed)
    ensures forall hub | Legal(r, Shutdown(hub)) ::
              Apply(r, Shutdown(hub)) == Registry(r.hubs - {r.rooms[hub]}, r.rooms, r.removed + {hub})
  {
  }

  /** Per room at most one hub is alive, and the Remove a hub issues deletes that hub. */
  lemma {:induction false} OneHubPerRoom(calls: seq<Call>, a: HubId, b: HubId)
    requires Lawful(Registry(map[], map[], {}), calls)
    ensures var r := After(Registry(map[], map[], {}), calls);
            && (a in r.rooms && b in r.rooms && a !in r.removed && b !in r.removed && r.rooms[a] == r.rooms[b] ==> a == b)
            && (Legal(r, Shutdown(a)) ==> r.rooms[a] in r.hubs && r.hubs[r.rooms[a]] == a)
  {
    StaysExact(Registry(map[], map[], {}), calls);
  }
}
