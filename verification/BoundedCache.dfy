/** The insertion both in-memory caches use: sweep what has expired when full, drop everything
    when that was not enough. */
module BoundedCache {

  datatype Entry<V> = Entry(data: V, expires: int)

  /** What a sweep at `now` keeps. */
  function Swept<K, V>(entries: map<K, Entry<V>>, now: int): map<K, Entry<V>> {
    map k | k in entries && now <= entries[k].expires :: entries[k]
  }

  function MadeRoom<K, V>(entries: map<K, Entry<V>>, max: nat, now: int): map<K, Entry<V>> {
    if |entries| < max then entries
    else if |Swept(entries, now)| < max then Swept(entries, now)
    else map[]
  }

  method MakeRoom<K(==), V>(entries: map<K, Entry<V>>, max: nat, now: int) returns (kept: map<K, Entry<V>>)
    ensures |entries| < max ==> kept == entries
    ensures |entries| >= max ==>
              var live := map k | k in entries && now <= entries[k].expires :: entries[k];
              kept == if |live| < max then live else map[]
    ensures kept == MadeRoom(entries, max, now)
  {
    kept := entries;
    if |kept| >= max {
      var keys := entries.Keys;
      ghost var done: set<K> := {};
      while keys != {}
        invariant keys <= entries.Keys && done == entries.Keys - keys
        invariant kept == map k | k in entries && (k in keys || now <= entries[k].expires) :: entries[k]
        decreases |keys|
      {
        var k :| k in keys;
        if now > entries[k].expires {
          kept := kept - {k};
        }
        keys, done := keys - {k}, done + {k};
      }
      assert kept == Swept(entries, now);
      if |kept| >= max {
        kept := map[];
      }
    }
  }

  /** Making room keeps only entries that were there, loses no live one unless all of them go,
      and leaves space for one more. */
  lemma MadeRoomKeeps<K, V>(entries: map<K, Entry<V>>, max: nat, now: int)
    requires max > 0 && |entries| <= max
    ensures var kept := MadeRoom(entries, max, now);
            && (forall k <- kept :: k in entries && kept[k] == entries[k])
            && |kept| < max
            && (kept == map[] || forall k <- entries :: now <= entries[k].expires ==> k in kept)
  {
  }

  lemma InsertGrows<K, V>(kept: map<K, Entry<V>>, k: K, e: Entry<V>)
    ensures |kept[k := e]| <= |kept| + 1
  {
    assert kept[k := e].Keys == kept.Keys + {k};
  }
}
