/** The cache of assembled payloads with one shared build per key. Times are in milliseconds. */
module PayloadCache {
  import opened Options
  import opened BoundedCache

  const MAX_ENTRIES: nat := 256
  const MAX_KEY_LEN: nat := 64

  type Payload = string
  type Entries = map<string, Entry<Payload>>

  predicate Live(entries: Entries, key: string, now: int) {
    key in entries && now <= entries[key].expires
  }

  function Put(entries: Entries, key: string, data: Payload, now: int, ttl: nat): Entries {
    MadeRoom(entries, MAX_ENTRIES, now)[key := Entry(data, now + ttl)]
  }

  class Cache {
    const ttl: nat
    var entries: Entries

    constructor (ttl: nat)
      ensures entries == map[] && this.ttl == ttl
    {
      this.ttl, entries := ttl, map[];
    }

    method Get(key: string, now: int) returns (hit: Option<Payload>)
      ensures hit == if key in entries && now <= entries[key].expires then Some(entries[key].data) else None
    {
      if key !in entries || now > entries[key].expires {
        return None;
      }
      return Some(entries[key].data);
    }

    method Set(key: string, data: Payload, now: int)
      modifies this`entries
      ensures key in entries && entries[key] == Entry(data, now + ttl)
      ensures forall k <- entries :: k == key || (k in old(entries) && entries[k] == old(entries)[k])
      ensures |old(entries)| < 256 ==> entries == old(entries)[key := Entry(data, now + ttl)]
      ensures entries == Put(old(entries), key, data, now, ttl)
    {
      var kept := MakeRoom(entries, MAX_ENTRIES, now);
      entries := kept[key := Entry(data, now + ttl)];
    }

    /** A call no other one overlaps: `build` is what building would give, at the times of the
        first look, of the second, and of the store. */
    method GetOrBuild(key: string, build: Option<Payload>, look: int, recheck: int, store: int) returns (r: Option<Payload>, built: bool)
      requires look <= recheck <= store
      modifies this`entries
      ensures built <==> |key| > 64 || key !in old(entries) || look > old(entries)[key].expires
      ensures r == if built then build else Some(old(entries)[key].data)
      ensures entries == if built && |key| <= 64 && build.Some?
                         then Put(old(entries), key, build.value, store, ttl)
                         else old(entries)
    {
      if |key| > MAX_KEY_LEN {
        return build, true;
      }
      var hit := Get(key, look);
      if hit.Some? {
        return hit, false;
      }
      hit := Get(key, recheck);
      if hit.Some? {
        return hit, false;
      }
      if build.Some? {
        Set(key, build.value, store);
      }
      return build, true;
    }
  }
}
