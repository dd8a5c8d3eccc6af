/** The fixed-window rate limiter: INCR, and an expiry set once, when the window opens. Times
    and windows are in milliseconds. */
module RateWindow {
  import opened Options
  import opened Counting

  const MINUTE: nat := 60_000
  const HOUR: nat := 3_600_000

  /** A Redis key with its expiry. */
  datatype Counter = Counter(count: nat, expiresAt: int)

  /** Whether the store has dropped the key. At the very instant of expiry it may (`atEnd`) or
      may not have; nothing below depends on which. */
  predicate Gone(c: Option<Counter>, now: int, atEnd: bool) {
    c.None? || now > c.value.expiresAt || (atEnd && now == c.value.expiresAt)
  }

  /** INCR, then EXPIRE NX. */
  function Hit(c: Option<Counter>, window: nat, now: int, atEnd: bool): Counter {
    if Gone(c, now, atEnd) then Counter(1, now + window) else Counter(c.value.count + 1, c.value.expiresAt)
  }

  function Lookup(counters: map<string, Counter>, key: string): Option<Counter> {
    if key in counters then Some(counters[key]) else None
  }

  class RateLimiter {
    var counters: map<string, Counter>
    const atEnd: bool

    constructor (atEnd: bool)
      ensures counters == map[] && this.atEnd == atEnd
    {
      counters, this.atEnd := map[], atEnd;
    }

    /** A store that is down allows the request. */
    method CheckRateWindow(key: string, max: nat, window: nat, now: int, up: bool) returns (ok: bool)
      modifies this`counters
      ensures key == "" || !up ==> ok && counters == old(counters)
      ensures key != "" && up ==>
                && counters == old(counters)[key := Hit(Lookup(old(counters), key), window, now, atEnd)]
                && ok == (counters[key].count <= max)
      // without a key, or with one that has expired, a window opens; otherwise only the count moves
      ensures key != "" && up ==>
                var opens := key !in old(counters) || now > old(counters)[key].expiresAt
                             || (atEnd && now == old(counters)[key].expiresAt);
                && counters == old(counters)[key := if opens then Counter(1, now + window)
                                                    else Counter(old(counters)[key].count + 1, old(counters)[key].expiresAt)]
                && ok == ((if opens then 1 else old(counters)[key].count + 1) <= max)
    {
      if key == "" || !up {
        return true;
      }
      if key in counters && (now > counters[key].expiresAt || (atEnd && now == counters[key].expiresAt)) {
        counters := counters - {key};
      }
      // INCR keeps an expiry the key has
      var opens := key !in counters;
      var count := if opens then 1 else counters[key].count + 1;
      // EXPIRE NX sets one only when there is none
      var expiresAt := if opens then now + window else counters[key].expiresAt;
      counters := counters[key := Counter(count, expiresAt)];
      return count <= max;
    }

    /** One send per minute and five per hour for each kind and address. `up` and `stillUp` say
        whether the store answers the first and the second check. */
    method AllowEmailSend(kind: string, email: string, now: int, up: bool, stillUp: bool) returns (ok: bool)
      modifies this`counters
      ensures var burst, hourly := "email_burst:" + kind + ":" + email, "email_rate:" + kind + ":" + email;
              var b := Hit(Lookup(old(counters), burst), 60_000, now, atEnd);
              var h := Hit(Lookup(old(counters), hourly), 3_600_000, now, atEnd);
              if !up then ok && counters == old(counters)
              else if b.count > 1 then !ok && counters == old(counters)[burst := b]
              else if !stillUp then ok && counters == old(counters)[burst := b]
              else counters == old(counters)[burst := b][hourly := h] && ok == (h.count <= 5)
    {
      var burst, hourly := "email_burst:" + kind + ":" + email, "email_rate:" + kind + ":" + email;
      KeysDiffer(kind + ":" + email);
      assert burst == "email_burst:" + (kind + ":" + email) && hourly == "email_rate:" + (kind + ":" + email);
      ok := CheckRateWindow(burst, 1, MINUTE, now, up);
      if !up || !ok {
        return;
      }
      ok := CheckRateWindow(hourly, 5, HOUR, now, stillUp);
    }
  }

  lemma KeysDiffer(rest: string)
    ensures "email_burst:" + rest != "email_rate:" + rest
  {
    assert ("email_burst:" + rest)[6] == 'b' && ("email_rate:" + rest)[6] == 'r';
  }

  /** One request: its time, the start of the window it fell in, its rank there, the verdict. */
  datatype Decision = Decision(at: int, start: int, rank: nat, allowed: bool)

  /** The key, and the requests made on it so far. */
  datatype History = History(c: Option<Counter>, ds: seq<Decision>)

  function Request(h: History, now: int, max: nat, window: nat, atEnd: bool): History {
    var k := Hit(h.c, window, now, atEnd);
    History(Some(k), h.ds + [Decision(now, k.expiresAt - window, k.count, k.count <= max)])
  }

  function RequestAll(times: seq<int>, max: nat, window: nat, atEnd: bool): History {
    if times == [] then History(None, [])
    else Request(RequestAll(times[..|times|-1], max, window, atEnd), times[|times|-1], max, window, atEnd)
  }

  predicate Ascending(times: seq<int>) {
    forall i, j | 0 <= i < j < |times| :: times[i] <= times[j]
  }

  /** Later requests are in the same window with a higher rank, or in a window that starts a
      full length later and after everything in this one. */
  predicate Follows(d: Decision, e: Decision, window: nat) {
    if d.start == e.start then d.rank < e.rank
    else d.start + window <= e.start && d.at < e.start
  }

  predicate Windowed(h: History, max: nat, window: nat) {
    && (forall i | 0 <= i < |h.ds| :: h.ds[i].start <= h.ds[i].at && h.ds[i].rank >= 1
                                      && (h.ds[i].allowed <==> h.ds[i].rank <= max)
                                      && (h.ds[i].rank == 1 ==> h.ds[i].at == h.ds[i].start))
    && (forall i, j | 0 <= i < j < |h.ds| :: Follows(h.ds[i], h.ds[j], window))
    && (h.ds == [] <==> h.c.None?)
    && (h.ds != [] ==> var last := h.ds[|h.ds|-1]; h.c == Some(Counter(last.rank, last.start + window)))
  }

  /** Where the requests are in time, and that none outlives its window. */
  predicate Timed(h: History, now: int, window: nat, atEnd: bool) {
    forall i | 0 <= i < |h.ds| :: h.ds[i].at <= now && if atEnd then h.ds[i].at < h.ds[i].start + window else h.ds[i].at <= h.ds[i].start + window
  }

  lemma RequestWindowed(h: History, before: int, now: int, max: nat, window: nat, atEnd: bool)
    requires Windowed(h, max, window) && Timed(h, before, window, atEnd) && before <= now && window > 0
    ensures Windowed(Request(h, now, max, window, atEnd), max, window)
    ensures Timed(Request(h, now, max, window, atEnd), now, window, atEnd)
  {
    var t := Request(h, now, max, window, atEnd);
    var e := t.ds[|h.ds|];
    forall i | 0 <= i < |h.ds| ensures Follows(h.ds[i], e, window) {
      var last := h.ds[|h.ds|-1];
      if i < |h.ds| - 1 {
        assert Follows(h.ds[i], last, window);
      }
    }
  }

  /** Everything the trace of requests at these times makes true. */
  predicate Traced(h: History, times: seq<int>, max: nat, window: nat, atEnd: bool) {
    && Windowed(h, max, window) && |h.ds| == |times|
    && (forall i | 0 <= i < |times| :: h.ds[i].at == times[i])
    && (times != [] ==> Timed(h, times[|times|-1], window, atEnd))
  }

  lemma TraceGrows(h: History, times: seq<int>, now: int, max: nat, window: nat, atEnd: bool)
    requires Traced(h, times, max, window, atEnd) && window > 0
    requires times != [] ==> times[|times|-1] <= now
    ensures Traced(Request(h, now, max, window, atEnd), times + [now], max, window, atEnd)
  {
    RequestWindowed(h, if times != [] then times[|times|-1] else now, now, max, window, atEnd);
  }

  lemma {:induction false} TraceWindowed(times: seq<int>, max: nat, window: nat, atEnd: bool)
    requires Ascending(times) && window > 0
    ensures Traced(RequestAll(times, max, window, atEnd), times, max, window, atEnd)
  {
    if times != [] {
      var n := |times| - 1;
      TraceWindowed(times[..n], max, window, atEnd);
      TraceGrows(RequestAll(times[..n], max, window, atEnd), times[..n], times[n], max, window, atEnd);
      assert times == times[..n] + [times[n]];
    }
  }

  /** The allowed requests of the window that starts at `start`. */
  function AllowedIn(h: History, start: int): set<nat> {
    set i: nat | i < |h.ds| && h.ds[i].start == start && h.ds[i].allowed
  }

  /** The allowed requests made from `from` to `to`, both included. */
  function AllowedBetween(h: History, from: int, to: int): set<nat> {
    set i: nat | i < |h.ds| && from <= h.ds[i].at <= to && h.ds[i].allowed
  }

  lemma RanksDiffer(h: History, max: nat, window: nat, start: int)
    requires Windowed(h, max, window)
    ensures |AllowedIn(h, start)| <= max
  {
    var f: map<nat, nat> := map i: nat | i < |h.ds| :: h.ds[i].rank;
    forall i, j | i in AllowedIn(h, start) && j in AllowedIn(h, start) && i < j ensures f[i] < f[j] {
      assert Follows(h.ds[i], h.ds[j], window);
    }
    Injection(AllowedIn(h, start), UpTo(max), f);
  }

  /** At most max requests are allowed per window. */
  lemma {:induction false} MaxPerWindow(times: seq<int>, max: nat, window: nat, atEnd: bool, start: int)
    requires Ascending(times) && window > 0
    ensures |AllowedIn(RequestAll(times, max, window, atEnd), start)| <= max
  {
    TraceWindowed(times, max, window, atEnd);
    RanksDiffer(RequestAll(times, max, window, atEnd), max, window, start);
  }

  /** All requests of the window that starts at `start`. */
  function RequestsIn(h: History, start: int): set<nat> {
    set i: nat | i < |h.ds| && h.ds[i].start == start
  }

  predicate FirstMax(h: History, start: int, max: nat) {
    |AllowedIn(h, start)| == if |RequestsIn(h, start)| <= max then |RequestsIn(h, start)| else max
  }

  /** Of every window the first max requests are allowed, and the latest request's rank is the
      number of requests in its window. */
  predicate Counted(h: History, max: nat) {
    && (forall i | 0 <= i < |h.ds| :: FirstMax(h, h.ds[i].start, max))
    && (h.ds != [] ==> var last := h.ds[|h.ds|-1]; last.rank == |RequestsIn(h, last.start)|)
  }

  lemma OneMoreRequest(h: History, t: History, e: Decision, start: int)
    requires t.ds == h.ds + [e]
    ensures RequestsIn(t, start) == RequestsIn(h, start) + if e.start == start then {|h.ds|} else {}
    ensures |RequestsIn(t, start)| == |RequestsIn(h, start)| + if e.start == start then 1 else 0
  {
    assert |h.ds| !in RequestsIn(h, start);
  }

  lemma OneMoreAllowed(h: History, t: History, e: Decision, start: int)
    requires t.ds == h.ds + [e]
    ensures AllowedIn(t, start) == AllowedIn(h, start) + if e.start == start && e.allowed then {|h.ds|} else {}
    ensures |AllowedIn(t, start)| == |AllowedIn(h, start)| + if e.start == start && e.allowed then 1 else 0
  {
    assert |h.ds| !in AllowedIn(h, start);
  }

  /** The newest request's window: a new one, or that of the request before it. */
  lemma NewestCounted(h: History, t: History, e: Decision, max: nat, window: nat)
    requires t.ds == h.ds + [e] && Counted(h, max) && Windowed(t, max, window)
    requires e.rank != 1 ==> h.ds != [] && h.ds[|h.ds|-1].start == e.start && e.rank == h.ds[|h.ds|-1].rank + 1
    ensures FirstMax(t, e.start, max) && e.rank == |RequestsIn(t, e.start)|
  {
    var n := |h.ds|;
    assert t.ds[n] == e;
    OneMoreRequest(h, t, e, e.start);
    OneMoreAllowed(h, t, e, e.start);
    if e.rank == 1 {
      forall i | 0 <= i < n ensures h.ds[i].start != e.start {
        assert Follows(t.ds[i], t.ds[n], window) && t.ds[i].rank >= 1;
      }
      assert RequestsIn(h, e.start) == {} && AllowedIn(h, e.start) == {};
    } else {
      assert FirstMax(h, h.ds[n-1].start, max);
    }
  }

  lemma RequestCounted(h: History, before: int, now: int, max: nat, window: nat, atEnd: bool)
    requires Windowed(h, max, window) && Timed(h, before, window, atEnd) && before <= now && window > 0 && Counted(h, max)
    ensures Counted(Request(h, now, max, window, atEnd), max)
  {
    RequestWindowed(h, before, now, max, window, atEnd);
    var t := Request(h, now, max, window, atEnd);
    var n := |h.ds|;
    var e := t.ds[n];
    assert t.ds == h.ds + [e];
    NewestCounted(h, t, e, max, window);
    forall i | 0 <= i < |t.ds| ensures FirstMax(t, t.ds[i].start, max) {
      if i < n {
        assert t.ds[i] == h.ds[i] && FirstMax(h, h.ds[i].start, max);
        OneMoreRequest(h, t, e, h.ds[i].start);
        OneMoreAllowed(h, t, e, h.ds[i].start);
      }
    }
  }

  lemma {:induction false} TraceCounted(times: seq<int>, max: nat, window: nat, atEnd: bool)
    requires Ascending(times) && window > 0
    ensures Counted(RequestAll(times, max, window, atEnd), max)
  {
    if times != [] {
      var n := |times| - 1;
      TraceCounted(times[..n], max, window, atEnd);
      TraceWindowed(times[..n], max, window, atEnd);
      RequestCounted(RequestAll(times[..n], max, window, atEnd), if n > 0 then times[n-1] else times[n], times[n], max, window, atEnd);
    }
  }

  /** Of every window exactly the first max requests are allowed: all of them if there are no more,
      max otherwise, and no request is allowed after a denied one. */
  lemma {:induction false} FirstMaxAreAllowed(times: seq<int>, max: nat, window: nat, atEnd: bool, i: nat, j: nat)
    requires Ascending(times) && window > 0 && i <= j < |times|
    ensures var h := RequestAll(times, max, window, atEnd);
            && |h.ds| == |times|
            && var start := h.ds[j].start;
            && |AllowedIn(h, start)| == (if |RequestsIn(h, start)| <= max then |RequestsIn(h, start)| else max)
            && (h.ds[i].start == h.ds[j].start && h.ds[j].allowed ==> h.ds[i].allowed)
  {
    TraceCounted(times, max, window, atEnd);
    TraceWindowed(times, max, window, atEnd);
    var h := RequestAll(times, max, window, atEnd);
    assert FirstMax(h, h.ds[j].start, max);
    if i < j {
      assert Follows(h.ds[i], h.ds[j], window);
    }
  }

  lemma {:induction false} Bounds(xs: set<nat>) returns (low: nat, high: nat)
    requires xs != {}
    ensures low in xs && high in xs && forall x <- xs :: low <= x <= high
    decreases xs
  {
    var x :| x in xs;
    var rest := xs - {x};
    low, high := x, x;
    if rest != {} {
      low, high := Bounds(rest);
      low, high := if x < low then x else low, if x > high then x else high;
    }
    assert forall y <- xs :: y == x || y in rest;
  }

  /** Whatever the trace of requests on a key: at most twice max are allowed in any closed
      interval as long as the window. */
  lemma {:induction false} TwiceMaxPerInterval(times: seq<int>, max: nat, window: nat, atEnd: bool, from: int)
    requires Ascending(times) && window > 0
    ensures |AllowedBetween(RequestAll(times, max, window, atEnd), from, from + window)| <= 2 * max
  {
    TraceWindowed(times, max, window, atEnd);
    var h := RequestAll(times, max, window, atEnd);
    var xs := AllowedBetween(h, from, from + window);
    if xs != {} {
      var low, high := Bounds(xs);
      var a, b := h.ds[low].start, h.ds[high].start;
      forall i <- xs ensures i in AllowedIn(h, a) + AllowedIn(h, b) {
        OnlyTwoWindows(h, max, window, from, low, i, high);
      }
      RanksDiffer(h, max, window, a);
      RanksDiffer(h, max, window, b);
      Union(xs, AllowedIn(h, a), AllowedIn(h, b));
    }
  }

  lemma OnlyTwoWindows(h: History, max: nat, window: nat, from: int, low: nat, i: nat, high: nat)
    requires Windowed(h, max, window) && low <= i <= high < |h.ds|
    requires from <= h.ds[low].at && h.ds[high].at <= from + window
    ensures h.ds[i].start == h.ds[low].start || h.ds[i].start == h.ds[high].start
  {
    if low < i < high {
      assert Follows(h.ds[low], h.ds[i], window) && Follows(h.ds[i], h.ds[high], window);
    }
  }

  lemma Union(xs: set<nat>, ys: set<nat>, zs: set<nat>)
    requires xs <= ys + zs
    ensures |xs| <= |ys| + |zs|
  {
    var f: map<nat, nat> := map x | x in ys + zs :: x;
    Injection(xs, ys + zs, f);
    assert |ys + zs| == |ys| + |zs - ys|;
    var g: map<nat, nat> := map x | x in zs :: x;
    Injection(zs - ys, zs, g);
  }

  /** With a limit of one, as for the burst key of AllowEmailSend, allowed requests are at least
      a whole window apart. */
  lemma {:induction false} OneAtATime(times: seq<int>, window: nat, atEnd: bool, i: nat, j: nat)
    requires Ascending(times) && window > 0 && i < j < |times|
    ensures var h := RequestAll(times, 1, window, atEnd);
            |h.ds| == |times| && (h.ds[i].allowed && h.ds[j].allowed ==> times[j] - times[i] >= window)
  {
    TraceWindowed(times, 1, window, atEnd);
    var h := RequestAll(times, 1, window, atEnd);
    assert Follows(h.ds[i], h.ds[j], window);
  }

  /** Denied or not, a request inside the window leaves its end where it is; the first one after
      it opens a window of its own, so hammering a key cannot keep it locked. */
  lemma {:induction false} HammeringDoesNotExtend(times: seq<int>, now: int, max: nat, window: nat, atEnd: bool)
    requires Ascending(times + [now]) && times != [] && window > 0
    ensures var ds := RequestAll(times + [now], max, window, atEnd).ds;
            && |ds| == |times| + 1
            && var last, next := ds[|times|-1], ds[|times|];
            && (now < last.start + window ==> next.start == last.start)
            && (now > last.start + window ==> next.start == now && (next.allowed <==> max >= 1))
  {
    assert (times + [now])[..|times|] == times;
    assert forall i | 0 <= i < |times| :: times[i] == (times + [now])[i];
    TraceWindowed(times, max, window, atEnd);
  }
}
