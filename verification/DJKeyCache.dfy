/** The DJ key check and its cache of successful comparisons. Times are in milliseconds; the
    digest and the bcrypt comparison are parameters. */
module DJKeyCache {
  import opened BoundedCache

  const TTL: int := 900_000
  const MAX_ENTRIES: nat := 4096
  const NUL: char := '\0'

  /** What the digest is taken of: the hash, a separator and the key. */
  function Input(key: string, hash: string): string {
    hash + [NUL] + key
  }

  type Comparison = (string, string) -> bool

  /** A comparison that came out equal, and when its request started. */
  datatype Success = Success(key: string, hash: string, at: int)

  function Remember<D>(entries: map<D, Entry<()>>, s: Success, digest: string -> D): map<D, Entry<()>> {
    MadeRoom(entries, MAX_ENTRIES, s.at)[digest(Input(s.key, s.hash)) := Entry((), s.at + TTL)]
  }

  predicate Recalls<D(==)>(entries: map<D, Entry<()>>, key: string, hash: string, now: int, digest: string -> D) {
    var k := digest(Input(key, hash));
    k in entries && now < entries[k].expires
  }

  predicate Verify<D(==)>(entries: map<D, Entry<()>>, key: string, hash: string, now: int, digest: string -> D, matches: Comparison) {
    key != "" && hash != "" && (Recalls(entries, key, hash, now, digest) || matches(key, hash))
  }

  class KeyCache<D(==)> {
    var entries: map<D, Entry<()>>
    const digest: string -> D
    const matches: Comparison
    ghost var history: seq<Success>

    ghost predicate Valid()
      reads this
    {
      && entries == Cache(history, digest)
      && forall s <- history :: s.key != "" && s.hash != "" && matches(s.key, s.hash)
    }

    constructor (digest: string -> D, matches: Comparison)
      ensures Valid() && history == [] && this.digest == digest && this.matches == matches
    {
      entries, this.digest, this.matches, history := map[], digest, matches, [];
    }

    /** The history grows when, and only when, the comparison had to be made and came out equal. */
    method VerifyDJKey(key: string, hash: string, now: int) returns (ok: bool)
      requires Valid()
      modifies this`entries, this`history
      ensures Valid()
      ensures var k := digest(hash + ['\0'] + key);
              var recalled := k in old(entries) && now < old(entries)[k].expires;
              && (ok <==> key != "" && hash != "" && (recalled || matches(key, hash)))
              && (ok && !recalled ==> k in entries && entries[k].expires == now + 900_000)
              && (ok && !recalled && |old(entries)| < 4096 ==> entries == old(entries)[k := Entry((), now + 900_000)])
              && (!ok || recalled ==> entries == old(entries))
      ensures ok == Verify(old(entries), key, hash, now, digest, matches)
      ensures history == old(history)
                         + if ok && !Recalls(old(entries), key, hash, now, digest) then [Success(key, hash, now)] else []
    {
      if key == "" || hash == "" {
        return false;
      }
      var k := digest(Input(key, hash));
      if k in entries && now < entries[k].expires {
        return true;
      }
      if !matches(key, hash) {
        return false;
      }
      var kept := MakeRoom(entries, MAX_ENTRIES, now);
      entries := kept[k := Entry((), now + TTL)];
      history := history + [Success(key, hash, now)];
      assert history[..|history|-1] == old(history);
      return true;
    }
  }

  /** The cache after a history of successes. The look-up and the store of one request lock
      separately, so under concurrency stores come in any order and with any times. */
  function Cache<D>(history: seq<Success>, digest: string -> D): map<D, Entry<()>> {
    if history == [] then map[]
    else Remember(Cache(history[..|history|-1], digest), history[|history|-1], digest)
  }

  lemma {:induction false} CacheIsBounded<D>(history: seq<Success>, digest: string -> D)
    ensures |Cache(history, digest)| <= 4096
  {
    if history != [] {
      var n := |history| - 1;
      CacheIsBounded(history[..n], digest);
      var s := history[n];
      MadeRoomKeeps(Cache(history[..n], digest), MAX_ENTRIES, s.at);
      InsertGrows(MadeRoom(Cache(history[..n], digest), MAX_ENTRIES, s.at), digest(Input(s.key, s.hash)), Entry((), s.at + TTL));
    }
  }

  /** Every entry stands for one of the successes, and expires a TTL after it. */
  lemma {:induction false} EntryIsASuccess<D>(history: seq<Success>, digest: string -> D, k: D) returns (i: nat)
    requires k in Cache(history, digest)
    ensures i < |history| && digest(Input(history[i].key, history[i].hash)) == k
    ensures Cache(history, digest)[k].expires == history[i].at + TTL
  {
    var n := |history| - 1;
    i := n;
    if digest(Input(history[n].key, history[n].hash)) != k {
      i := EntryIsASuccess(history[..n], digest, k);
    }
  }

  ghost predicate Injective<D(!new)>(digest: string -> D) {
    forall x: string, y: string | digest(x) == digest(y) :: x == y
  }

  /** No hash in use goes on from another with the separator. */
  predicate Apart(hashes: set<string>) {
    forall g, h | g in hashes && h in hashes && g != "" :: !(g + [NUL] <= h)
  }

  lemma NulFreeHashesAreApart(hashes: set<string>)
    requires forall h <- hashes :: NUL !in h
    ensures Apart(hashes)
  {
    forall g, h | g in hashes && h in hashes ensures !(g + [NUL] <= h) {
      assert (g + [NUL])[|g|] == NUL;
      if |g| < |h| {
        assert h[|g|] in h;
      }
    }
  }

  /** Equal inputs from different hashes: the longer goes on from the shorter with the separator. */
  lemma EqualInputs(k1: string, h1: string, k2: string, h2: string)
    requires Input(k1, h1) == Input(k2, h2) && |h1| <= |h2|
    ensures (h1 == h2 && k1 == k2) || h1 + [NUL] <= h2
  {
    var s := Input(k1, h1);
    assert h1 == s[..|h1|] && h2 == s[..|h2|];
    assert s[|h1|] == NUL;
    assert k1 == s[|h1|+1..] && k2 == s[|h2|+1..];
    if |h1| < |h2| {
      assert h2[..|h1|+1] == s[..|h1|+1] == h1 + [NUL];
    }
  }

  /** The histories the check can have: what it remembers passed the comparison. */
  predicate Genuine(history: seq<Success>, hashes: set<string>, matches: Comparison) {
    forall s <- history :: s.hash in hashes && s.key != "" && s.hash != "" && matches(s.key, s.hash)
  }

  /** With hashes apart, the check answers what the comparison alone would, after any history. */
  lemma {:induction false} CacheNeverChangesTheAnswer<D(!new)>(history: seq<Success>, hashes: set<string>, key: string, hash: string, now: int,
      digest: string -> D, matches: Comparison)
    requires Injective(digest) && Apart(hashes) && Genuine(history, hashes, matches) && hash in hashes
    ensures Verify(Cache(history, digest), key, hash, now, digest, matches) <==> key != "" && hash != "" && matches(key, hash)
  {
    if hash != "" && Recalls(Cache(history, digest), key, hash, now, digest) {
      var i := EntryIsASuccess(history, digest, digest(Input(key, hash)));
      var s := history[i];
      assert s in history;
      if |hash| <= |s.hash| {
        EqualInputs(key, hash, s.key, s.hash);
      } else {
        EqualInputs(s.key, s.hash, key, hash);
      }
    }
  }

  /** With hashes that are not, one success is enough to make it wrong. */
  lemma NotApartCanBeWrong<D>(hashes: set<string>, digest: string -> D)
      returns (s: Success, key: string, hash: string, matches: Comparison)
    requires !Apart(hashes)
    ensures Genuine([s], hashes, matches) && key != "" && hash in hashes && !matches(key, hash)
    ensures Verify(Cache([s], digest), key, hash, s.at, digest, matches)
  {
    var g, h :| g in hashes && h in hashes && g != "" && g + [NUL] <= h;
    key, hash := "k", h;
    s := Success(h[|g|+1..] + [NUL] + key, g, 0);
    matches := (k, h') => h' == g;
    assert h == g + [NUL] + h[|g|+1..];
    assert Input(key, hash) == Input(s.key, s.hash);
    assert [s][..0] == [];
    assert Cache([s], digest) == Remember(Cache([], digest), s, digest);
    assert h != g;
  }

  /** An answer from memory rests on a comparison whose request started less than a TTL before. */
  lemma RecallIsRecent<D>(history: seq<Success>, key: string, hash: string, now: int, digest: string -> D) returns (i: nat)
    requires Recalls(Cache(history, digest), key, hash, now, digest)
    ensures i < |history| && now - history[i].at < 900_000
    ensures digest(Input(history[i].key, history[i].hash)) == digest(Input(key, hash))
  {
    i := EntryIsASuccess(history, digest, digest(Input(key, hash)));
  }
}
