/** Any number of overlapping calls of getOrBuild, each under its own program counter. One step
    is one section under the cache's mutex, one under the group's, or one build. */
module PayloadFlights {
  import opened Options
  import opened BoundedCache
  import opened PayloadCache

  /** A payload, when it was stored, and when and by which call it was then seen in the cache. */
  datatype Hit = Hit(data: Payload, stored: int, seen: int, seenBy: nat)

  datatype Pc =
    | Looking
    | Missed
    | Rechecking
    | Building
    | Storing(data: Payload)
    | Landing(hit: Hit)
    | Crashing
    | Waiting(leader: nat)
    | Returned(hit: Hit)
    | Failed
    | Bypassing
    | Bypassed(data: Payload)

  datatype Call = Call(key: string, since: int, pc: Pc)

  datatype Build = Build(key: string, data: Payload)
  datatype Published = Published(key: string, data: Payload, at: int)

  /** `builds` and `published` record what was built and what was put in the cache, ever. */
  datatype State = State(
    now: int,
    entries: Entries,
    flights: map<string, nat>,
    calls: map<nat, Call>,
    builds: set<Build>,
    published: set<Published>)

  datatype Action =
    | Tick(ms: nat)
    | Arrive(c: nat, key: string)
    | Look(c: nat)
    | Join(c: nat)
    | Recheck(c: nat)
    | RunBuild(c: nat, built: Option<Payload>)
    | Store(c: nat)
    | Land(c: nat)
    | Collect(c: nat)

  predicate Enabled(s: State, a: Action) {
    match a
    case Tick(_) => true
    case Arrive(c, _) => c !in s.calls
    case Look(c) => c in s.calls && s.calls[c].pc.Looking?
    case Join(c) => c in s.calls && s.calls[c].pc.Missed?
    case Recheck(c) => c in s.calls && s.calls[c].pc.Rechecking?
    case RunBuild(c, _) => c in s.calls && (s.calls[c].pc.Building? || s.calls[c].pc.Bypassing?)
    case Store(c) => c in s.calls && s.calls[c].pc.Storing?
    case Land(c) => c in s.calls && (s.calls[c].pc.Landing? || s.calls[c].pc.Crashing?)
    case Collect(c) =>
      && c in s.calls && s.calls[c].pc.Waiting?
      && var l := s.calls[c].pc.leader; l in s.calls && (s.calls[l].pc.Returned? || s.calls[l].pc.Failed?)
  }

  function Goto(s: State, c: nat, pc: Pc): State
    requires c in s.calls
  {
    s.(calls := s.calls[c := s.calls[c].(pc := pc)])
  }

  /** What a caller finds when it looks: the payload and the time it was stored. */
  function Found(s: State, c: nat, key: string, ttl: nat): Hit
    requires key in s.entries
  {
    Hit(s.entries[key].data, s.entries[key].expires - ttl, s.now, c)
  }

  function Do(s: State, a: Action, ttl: nat): State
    requires Enabled(s, a)
  {
    match a
    case Tick(ms) => s.(now := s.now + ms)
    case Arrive(c, key) => s.(calls := s.calls[c := Call(key, s.now, if |key| > MAX_KEY_LEN then Bypassing else Looking)])
    case Look(c) =>
      var key := s.calls[c].key;
      Goto(s, c, if Live(s.entries, key, s.now) then Returned(Found(s, c, key, ttl)) else Missed)
    case Join(c) =>
      var key := s.calls[c].key;
      if key in s.flights then Goto(s, c, Waiting(s.flights[key]))
      else Goto(s, c, Rechecking).(flights := s.flights[key := c])
    case Recheck(c) =>
      var key := s.calls[c].key;
      Goto(s, c, if Live(s.entries, key, s.now) then Landing(Found(s, c, key, ttl)) else Building)
    case RunBuild(c, built) =>
      var key := s.calls[c].key;
      if built.None? then Goto(s, c, if s.calls[c].pc.Bypassing? then Failed else Crashing)
      else Goto(s, c, if s.calls[c].pc.Bypassing? then Bypassed(built.value) else Storing(built.value))
           .(builds := s.builds + {Build(key, built.value)})
    case Store(c) =>
      var key, data := s.calls[c].key, s.calls[c].pc.data;
      Goto(s, c, Landing(Hit(data, s.now, s.now, c)))
      .(entries := Put(s.entries, key, data, s.now, ttl), published := s.published + {Published(key, data, s.now)})
    case Land(c) =>
      var key, pc := s.calls[c].key, s.calls[c].pc;
      Goto(s, c, if pc.Landing? then Returned(pc.hit) else Failed).(flights := s.flights - {key})
    case Collect(c) =>
      Goto(s, c, s.calls[s.calls[c].pc.leader].pc)
  }

  predicate InFlight(pc: Pc) {
    pc.Rechecking? || pc.Building? || pc.Storing? || pc.Landing? || pc.Crashing?
  }

  predicate FreshHit(s: State, key: string, h: Hit, ttl: nat) {
    && Published(key, h.data, h.stored) in s.published
    && h.stored <= h.seen <= h.stored + ttl
    && h.seen <= s.now
    && h.seenBy in s.calls && s.calls[h.seenBy].key == key && s.calls[h.seenBy].since <= h.seen
  }

  predicate CallInv(s: State, c: nat, ttl: nat)
    requires c in s.calls
  {
    var call := s.calls[c];
    && call.since <= s.now
    && (!call.pc.Bypassing? && !call.pc.Bypassed? && !call.pc.Failed? ==> |call.key| <= MAX_KEY_LEN)
    && (InFlight(call.pc) ==> call.key in s.flights && s.flights[call.key] == c)
    && (call.pc.Building? || call.pc.Storing? ==> !Live(s.entries, call.key, s.now))
    && (call.pc.Storing? || call.pc.Bypassed? ==> Build(call.key, call.pc.data) in s.builds)
    && (call.pc.Waiting? ==> call.pc.leader in s.calls && s.calls[call.pc.leader].key == call.key)
  }

  predicate HitInv(s: State, c: nat, ttl: nat)
    requires c in s.calls
  {
    var call := s.calls[c];
    call.pc.Landing? || call.pc.Returned? ==> FreshHit(s, call.key, call.pc.hit, ttl)
  }

  /** What a finished flight holds is what the cache holds for the key, if it still does. */
  predicate LandingInv(s: State, c: nat, ttl: nat)
    requires c in s.calls
  {
    var call := s.calls[c];
    call.pc.Landing? && call.key in s.entries ==> s.entries[call.key].expires == call.pc.hit.stored + ttl
  }

  predicate FlightInv(s: State, key: string)
    requires key in s.flights
  {
    var l := s.flights[key];
    l in s.calls && s.calls[l].key == key && InFlight(s.calls[l].pc)
  }

  predicate EntryInv(s: State, key: string, ttl: nat)
    requires key in s.entries
  {
    var e := s.entries[key];
    |key| <= MAX_KEY_LEN && e.expires - ttl <= s.now && Published(key, e.data, e.expires - ttl) in s.published
  }

  predicate Inv(s: State, ttl: nat) {
    && (forall c <- s.calls :: CallInv(s, c, ttl))
    && (forall c <- s.calls :: HitInv(s, c, ttl) && LandingInv(s, c, ttl))
    && (forall key <- s.flights :: FlightInv(s, key))
    && (forall key <- s.entries :: EntryInv(s, key, ttl))
    && (forall p <- s.published :: Build(p.key, p.data) in s.builds)
    && |s.entries| <= MAX_ENTRIES
  }

  lemma StepKeepsEntries(s: State, a: Action, ttl: nat)
    requires Enabled(s, a) && |s.entries| <= MAX_ENTRIES
    requires a.Store? ==> CallInv(s, a.c, ttl)
    requires forall key <- s.entries :: EntryInv(s, key, ttl)
    requires forall p <- s.published :: Build(p.key, p.data) in s.builds
    ensures var t := Do(s, a, ttl);
            && (forall key <- t.entries :: EntryInv(t, key, ttl))
            && (forall p <- t.published :: Build(p.key, p.data) in t.builds)
            && |t.entries| <= MAX_ENTRIES
  {
    if a.Store? {
      var key, data := s.calls[a.c].key, s.calls[a.c].pc.data;
      MadeRoomKeeps(s.entries, MAX_ENTRIES, s.now);
      InsertGrows(MadeRoom(s.entries, MAX_ENTRIES, s.now), key, Entry(data, s.now + ttl));
    } else {
      var t := Do(s, a, ttl);
      assert t.entries == s.entries && t.published == s.published && s.builds <= t.builds && s.now <= t.now;
    }
  }

  lemma FlightStep(s: State, a: Action, key: string, ttl: nat)
    requires Enabled(s, a) && key in Do(s, a, ttl).flights
    requires key in s.flights ==> FlightInv(s, key)
    requires !a.Tick? && a.c in s.calls ==> CallInv(s, a.c, ttl)
    ensures FlightInv(Do(s, a, ttl), key)
  {
    if a.Join? {
    } else if a.Land? {
    } else {
      assert Do(s, a, ttl).flights == s.flights;
    }
  }

  lemma StepKeepsFlights(s: State, a: Action, ttl: nat)
    requires Inv(s, ttl) && Enabled(s, a)
    ensures var t := Do(s, a, ttl); forall key <- t.flights :: FlightInv(t, key)
  {
    var t := Do(s, a, ttl);
    forall key <- t.flights ensures FlightInv(t, key) {
      FlightStep(s, a, key, ttl);
    }
  }

  /** Nothing that was recorded is forgotten. */
  predicate Later(s: State, t: State) {
    && s.published <= t.published && s.now <= t.now
    && forall c <- s.calls :: c in t.calls && t.calls[c].key == s.calls[c].key && t.calls[c].since == s.calls[c].since
  }

  lemma StepIsLater(s: State, a: Action, ttl: nat)
    requires Enabled(s, a)
    ensures Later(s, Do(s, a, ttl))
  {
    var t := Do(s, a, ttl);
    if a.Tick? {
    } else if a.Arrive? {
      assert t.calls == s.calls[a.c := t.calls[a.c]] && t.published == s.published;
    } else {
      assert t.calls == s.calls[a.c := s.calls[a.c].(pc := t.calls[a.c].pc)];
      assert s.published <= t.published && s.now <= t.now by {
        if a.Store? {
        } else if a.RunBuild? {
        }
      }
    }
  }

  lemma HitStaysFresh(s: State, t: State, key: string, h: Hit, ttl: nat)
    requires Later(s, t) && FreshHit(s, key, h, ttl)
    ensures FreshHit(t, key, h, ttl)
  {
  }

  lemma HitOthersStep(s: State, a: Action, c: nat, ttl: nat)
    requires Enabled(s, a) && c in s.calls && (a.Tick? || a.c != c) && HitInv(s, c, ttl)
    ensures HitInv(Do(s, a, ttl), c, ttl)
  {
    StepIsLater(s, a, ttl);
    var t := Do(s, a, ttl);
    assert t.calls[c] == s.calls[c];
    if s.calls[c].pc.Landing? || s.calls[c].pc.Returned? {
      HitStaysFresh(s, t, s.calls[c].key, s.calls[c].pc.hit, ttl);
    }
  }

  lemma HitOwnStep(s: State, a: Action, ttl: nat)
    requires Enabled(s, a) && !a.Tick?
    requires a.c in s.calls ==> CallInv(s, a.c, ttl) && HitInv(s, a.c, ttl)
    requires a.c in s.calls && s.calls[a.c].key in s.entries ==> EntryInv(s, s.calls[a.c].key, ttl)
    requires a.Collect? ==> HitInv(s, s.calls[a.c].pc.leader, ttl)
    ensures HitInv(Do(s, a, ttl), a.c, ttl)
  {
    var t := Do(s, a, ttl);
    if a.Land? {
      if s.calls[a.c].pc.Landing? {
        StepIsLater(s, a, ttl);
        HitStaysFresh(s, t, s.calls[a.c].key, s.calls[a.c].pc.hit, ttl);
      }
    } else if a.Collect? {
      var l := s.calls[a.c].pc.leader;
      if s.calls[l].pc.Returned? {
        StepIsLater(s, a, ttl);
        HitStaysFresh(s, t, s.calls[l].key, s.calls[l].pc.hit, ttl);
      }
    } else if a.Look? || a.Recheck? {
    } else if a.Store? {
    } else if a.Join? {
    } else if a.Arrive? {
    }
  }

  /** The step of a call itself. */
  lemma OwnStep(s: State, a: Action, ttl: nat)
    requires Enabled(s, a) && !a.Tick?
    requires a.c in s.calls ==> CallInv(s, a.c, ttl)
    requires a.c in s.calls && s.calls[a.c].key in s.flights ==> FlightInv(s, s.calls[a.c].key)
    requires a.Collect? ==> CallInv(s, s.calls[a.c].pc.leader, ttl)
    ensures CallInv(Do(s, a, ttl), a.c, ttl)
  {
    if a.Arrive? {
    } else if a.Join? {
    } else if a.Collect? {
    } else if a.Store? {
    } else if a.Land? {
    } else if a.Look? || a.Recheck? {
    }
  }

  lemma OthersStep(s: State, a: Action, c: nat, ttl: nat)
    requires Enabled(s, a) && c in s.calls && (a.Tick? || a.c != c) && CallInv(s, c, ttl)
    requires !a.Tick? && a.c in s.calls ==> CallInv(s, a.c, ttl)
    requires |s.entries| <= MAX_ENTRIES
    ensures CallInv(Do(s, a, ttl), c, ttl)
  {
    if a.Tick? || a.Arrive? {
    } else if a.Store? {
      MadeRoomKeeps(s.entries, MAX_ENTRIES, s.now);
    } else if a.Land? {
    } else if a.Join? {
    } else {
      var t := Do(s, a, ttl);
      assert t.entries == s.entries && t.flights == s.flights && t.now == s.now && t.calls[c] == s.calls[c];
    }
  }

  lemma LandingStep(s: State, a: Action, c: nat, ttl: nat)
    requires Enabled(s, a) && c in s.calls && CallInv(s, c, ttl) && LandingInv(s, c, ttl)
    requires !a.Tick? && a.c in s.calls ==> CallInv(s, a.c, ttl)
    requires |s.entries| <= MAX_ENTRIES
    ensures LandingInv(Do(s, a, ttl), c, ttl)
  {
    if a.Tick? || a.Arrive? {
    } else if a.Store? {
      MadeRoomKeeps(s.entries, MAX_ENTRIES, s.now);
    } else {
      assert Do(s, a, ttl).entries == s.entries;
      if a.Collect? && a.c == c {
        assert !Do(s, a, ttl).calls[c].pc.Landing?;
      } else if a.Recheck? {
      }
    }
  }

  lemma StepKeepsInv(s: State, a: Action, ttl: nat)
    requires Inv(s, ttl) && Enabled(s, a)
    ensures Inv(Do(s, a, ttl), ttl)
  {
    StepKeepsEntries(s, a, ttl);
    StepKeepsFlights(s, a, ttl);
    var t := Do(s, a, ttl);
    forall c <- t.calls ensures CallInv(t, c, ttl) && HitInv(t, c, ttl) && LandingInv(t, c, ttl) {
      assert c in s.calls ==> CallInv(s, c, ttl) && HitInv(s, c, ttl);
      if c in s.calls {
        LandingStep(s, a, c, ttl);
      }
      if !a.Tick? && a.c == c {
        HitOwnStep(s, a, ttl);
        OwnStep(s, a, ttl);
      } else {
        HitOthersStep(s, a, c, ttl);
        OthersStep(s, a, c, ttl);
      }
    }
  }

  predicate Feasible(s: State, actions: seq<Action>, ttl: nat)
    decreases |actions|
  {
    actions == [] || (Enabled(s, actions[0]) && Feasible(Do(s, actions[0], ttl), actions[1..], ttl))
  }

  function Run(s: State, actions: seq<Action>, ttl: nat): State
    requires Feasible(s, actions, ttl)
    decreases |actions|
  {
    if actions == [] then s else Run(Do(s, actions[0], ttl), actions[1..], ttl)
  }

  function Initial(now: int): State {
    State(now, map[], map[], map[], {}, {})
  }

  lemma {:induction false} RunInv(s: State, actions: seq<Action>, ttl: nat)
    requires Inv(s, ttl) && Feasible(s, actions, ttl)
    ensures Inv(Run(s, actions, ttl), ttl)
    decreases |actions|
  {
    if actions != [] {
      StepKeepsInv(s, actions[0], ttl);
      RunInv(Do(s, actions[0], ttl), actions[1..], ttl);
    }
  }

  /** Whatever the interleaving: a call for a cached key returns a payload that was built for
      that key and was stored at most a TTL before it was seen, by the call itself or by the one
      it shares a flight with. */
  lemma {:induction false} ReturnedWasFresh(now: int, actions: seq<Action>, ttl: nat, c: nat)
    requires Feasible(Initial(now), actions, ttl)
    ensures var s := Run(Initial(now), actions, ttl);
            c in s.calls && s.calls[c].pc.Returned? ==>
              var key, h := s.calls[c].key, s.calls[c].pc.hit;
              && Build(key, h.data) in s.builds && Published(key, h.data, h.stored) in s.published
              && h.stored <= h.seen <= h.stored + ttl
              && h.seenBy in s.calls && s.calls[h.seenBy].key == key && s.calls[h.seenBy].since <= h.seen
  {
    RunInv(Initial(now), actions, ttl);
    var s := Run(Initial(now), actions, ttl);
    if c in s.calls {
      assert HitInv(s, c, ttl);
    }
  }

  /** At most one call at a time looks again, builds or stores for a key, and never while the
      cache holds a live payload for it: concurrent misses share one build. */
  lemma {:induction false} OneBuildAtATime(now: int, actions: seq<Action>, ttl: nat, c: nat, d: nat)
    requires Feasible(Initial(now), actions, ttl)
    ensures var s := Run(Initial(now), actions, ttl);
            && (c in s.calls && d in s.calls && InFlight(s.calls[c].pc) && InFlight(s.calls[d].pc) ==>
                  c == d || s.calls[c].key != s.calls[d].key)
            && (c in s.calls && (s.calls[c].pc.Building? || s.calls[c].pc.Storing?) ==> !Live(s.entries, s.calls[c].key, s.now))
  {
    RunInv(Initial(now), actions, ttl);
    var s := Run(Initial(now), actions, ttl);
    if c in s.calls && d in s.calls {
      assert CallInv(s, c, ttl) && CallInv(s, d, ttl);
    }
  }

  /** The cache never exceeds its bound and never holds a long key. */
  lemma {:induction false} CacheIsBounded(now: int, actions: seq<Action>, ttl: nat)
    requires Feasible(Initial(now), actions, ttl)
    ensures var s := Run(Initial(now), actions, ttl);
            |s.entries| <= 256 && forall key <- s.entries :: |key| <= 64
  {
    RunInv(Initial(now), actions, ttl);
    var s := Run(Initial(now), actions, ttl);
    forall key <- s.entries ensures |key| <= MAX_KEY_LEN {
      assert EntryInv(s, key, ttl);
    }
  }

  lemma {:induction false} OneMore(s: State, actions: seq<Action>, a: Action, ttl: nat) returns (more: seq<Action>)
    requires Feasible(s, actions, ttl) && Enabled(Run(s, actions, ttl), a)
    ensures more == actions + [a] && Feasible(s, more, ttl)
    ensures Run(s, more, ttl) == Do(Run(s, actions, ttl), a, ttl)
    decreases |actions|
  {
    more := actions + [a];
    if actions == [] {
      assert Feasible(Do(s, a, ttl), more[1..], ttl);
    } else {
      var rest := OneMore(Do(s, actions[0], ttl), actions[1..], a, ttl);
      assert more[1..] == rest;
    }
  }

  /** A finished flight for the key that was not yet removed holds a payload already expired. */
  predicate ExpiredLanding(s: State, key: string, ttl: nat) {
    && key in s.flights && s.flights[key] in s.calls
    && var pc := s.calls[s.flights[key]].pc;
    pc.Landing? && pc.hit.stored + ttl < s.now
  }

  /** The call was handed a payload that had expired before the call arrived. */
  predicate ServedExpired(s: State, c: nat, ttl: nat) {
    c in s.calls && s.calls[c].pc.Returned? && s.calls[c].pc.hit.stored + ttl < s.calls[c].since
  }

  /** A payload of this flight or call, if it has one, is live at `since` or later. */
  predicate LiveFrom(pc: Pc, since: int, ttl: nat) {
    pc.Landing? || pc.Returned? ==> since <= pc.hit.stored + ttl
  }

  /** The point of a call that others wait for, or did. */
  predicate Led(pc: Pc) {
    InFlight(pc) || pc.Returned? || pc.Failed?
  }

  /** What keeps call c, arrived at `since`, from an expired payload. */
  predicate Protected(s: State, c: nat, key: string, since: int, ttl: nat) {
    && c in s.calls && s.calls[c].key == key && s.calls[c].since == since && since <= s.now
    && LiveFrom(s.calls[c].pc, since, ttl)
    && (key in s.flights ==> FlightInv(s, key) && LiveFrom(s.calls[s.flights[key]].pc, since, ttl))
    && (s.calls[c].pc.Waiting? ==>
          && var l := s.calls[c].pc.leader;
          l in s.calls && Led(s.calls[l].pc) && LiveFrom(s.calls[l].pc, since, ttl))
  }

  /** A call that is not handed another's payload stays live. */
  lemma LiveStep(s: State, a: Action, l: nat, since: int, ttl: nat)
    requires Enabled(s, a) && l in s.calls && since <= s.now
    requires LiveFrom(s.calls[l].pc, since, ttl) && !s.calls[l].pc.Waiting?
    ensures l in Do(s, a, ttl).calls && LiveFrom(Do(s, a, ttl).calls[l].pc, since, ttl)
    ensures Led(s.calls[l].pc) ==> Led(Do(s, a, ttl).calls[l].pc)
  {
    if a.Tick? || a.Arrive? || a.c != l {
      assert Do(s, a, ttl).calls[l] == s.calls[l];
    } else if a.Look? || a.Recheck? {
    } else if a.Join? {
    } else if a.Land? {
    } else {
    }
  }

  lemma ProtectedCall(s: State, a: Action, c: nat, key: string, since: int, ttl: nat)
    requires Enabled(s, a) && Protected(s, c, key, since, ttl)
    ensures var t := Do(s, a, ttl);
            && c in t.calls && t.calls[c].key == key && t.calls[c].since == since && since <= t.now
            && LiveFrom(t.calls[c].pc, since, ttl)
  {
    if a.Collect? && a.c == c {
    } else if s.calls[c].pc.Waiting? {
      assert Do(s, a, ttl).calls[c] == s.calls[c];
    } else {
      LiveStep(s, a, c, since, ttl);
    }
    StepIsLater(s, a, ttl);
  }

  lemma ProtectedFlight(s: State, a: Action, c: nat, key: string, since: int, ttl: nat)
    requires Enabled(s, a) && Protected(s, c, key, since, ttl)
    ensures var t := Do(s, a, ttl);
            key in t.flights && t.flights[key] in t.calls ==> LiveFrom(t.calls[t.flights[key]].pc, since, ttl)
  {
    if key in s.flights {
      LiveStep(s, a, s.flights[key], since, ttl);
    }
    if a.Join? {
    } else if a.Land? {
    } else {
      assert Do(s, a, ttl).flights == s.flights;
    }
  }

  lemma ProtectedLeader(s: State, a: Action, c: nat, key: string, since: int, ttl: nat)
    requires Enabled(s, a) && Protected(s, c, key, since, ttl)
    ensures var t := Do(s, a, ttl);
            t.calls[c].pc.Waiting? ==>
              && var l := t.calls[c].pc.leader;
              l in t.calls && Led(t.calls[l].pc) && LiveFrom(t.calls[l].pc, since, ttl)
  {
    if s.calls[c].pc.Waiting? {
      LiveStep(s, a, s.calls[c].pc.leader, since, ttl);
      assert !(a.Collect? && a.c == c) ==> Do(s, a, ttl).calls[c] == s.calls[c];
    } else if a.Join? && a.c == c {
    } else {
      assert !Do(s, a, ttl).calls[c].pc.Waiting?;
    }
  }

  lemma {:induction false} StaysProtected(s: State, actions: seq<Action>, c: nat, key: string, since: int, ttl: nat)
    requires Inv(s, ttl) && Feasible(s, actions, ttl) && Protected(s, c, key, since, ttl)
    ensures Protected(Run(s, actions, ttl), c, key, since, ttl)
    decreases |actions|
  {
    if actions != [] {
      var a, t := actions[0], Do(s, actions[0], ttl);
      StepKeepsInv(s, a, ttl);
      ProtectedCall(s, a, c, key, since, ttl);
      ProtectedFlight(s, a, c, key, since, ttl);
      ProtectedLeader(s, a, c, key, since, ttl);
      StaysProtected(t, actions[1..], c, key, since, ttl);
    }
  }

  /** The shortest way into the trap: join the flight, let it land, collect. */
  function Trap(c: nat, l: nat): seq<Action> {
    [Look(c), Join(c), Land(l), Collect(c)]
  }

  lemma {:induction false} TrapSprings(s: State, c: nat, key: string, ttl: nat)
    requires Inv(s, ttl) && c !in s.calls && ExpiredLanding(s, key, ttl)
    ensures var t := Do(s, Arrive(c, key), ttl);
            && Feasible(t, Trap(c, s.flights[key]), ttl)
            && ServedExpired(Run(t, Trap(c, s.flights[key]), ttl), c, ttl)
  {
    var l := s.flights[key];
    assert FlightInv(s, key) && CallInv(s, l, ttl) && LandingInv(s, l, ttl);
    var t := Do(s, Arrive(c, key), ttl);
    assert t.calls[c] == Call(key, s.now, Looking) && t.calls[l] == s.calls[l];
    TrapCloses(t, c, l, key, ttl);
  }

  lemma {:induction false} TrapCloses(t: State, c: nat, l: nat, key: string, ttl: nat)
    requires c in t.calls && l in t.calls && c != l && t.calls[c].key == t.calls[l].key == key
    requires t.calls[c].pc.Looking? && t.calls[l].pc.Landing? && !Live(t.entries, key, t.now)
    requires key in t.flights && t.flights[key] == l
    ensures Feasible(t, Trap(c, l), ttl)
    ensures var u := Run(t, Trap(c, l), ttl);
            c in u.calls && u.calls[c] == t.calls[c].(pc := Returned(t.calls[l].pc.hit))
  {
    var h := t.calls[l].pc.hit;
    var actions := OneMore(t, [], Look(c), ttl);
    assert Run(t, actions, ttl) == Goto(t, c, Missed);
    actions := OneMore(t, actions, Join(c), ttl);
    assert Run(t, actions, ttl) == Goto(t, c, Waiting(l));
    actions := OneMore(t, actions, Land(l), ttl);
    var u := Goto(Goto(t, c, Waiting(l)), l, Returned(h)).(flights := t.flights - {key});
    assert Run(t, actions, ttl) == u;
    actions := OneMore(t, actions, Collect(c), ttl);
    assert Run(t, actions, ttl) == Goto(u, c, Returned(h));
    assert actions == Trap(c, l);
  }

  /** Some continuation hands the call, arriving now, a payload that has already expired. */
  ghost predicate CanBeServedExpired(s: State, c: nat, key: string, ttl: nat)
    requires c !in s.calls
  {
    var t := Do(s, Arrive(c, key), ttl);
    exists actions :: Feasible(t, actions, ttl) && ServedExpired(Run(t, actions, ttl), c, ttl)
  }

  /** The TTL bounds the age of what a flight saw, not of what its followers get. From every
      reachable state: a call can be handed a payload that had expired before it arrived if and
      only if, when it arrives, the key's flight has finished with such a payload and has not
      been removed yet. */
  lemma {:induction false} ServedExpiredIff(now: int, before: seq<Action>, c: nat, key: string, ttl: nat)
    requires Feasible(Initial(now), before, ttl) && c !in Run(Initial(now), before, ttl).calls
    ensures var s := Run(Initial(now), before, ttl);
            CanBeServedExpired(s, c, key, ttl) <==> ExpiredLanding(s, key, ttl)
  {
    RunInv(Initial(now), before, ttl);
    var s := Run(Initial(now), before, ttl);
    var t := Do(s, Arrive(c, key), ttl);
    if ExpiredLanding(s, key, ttl) {
      TrapSprings(s, c, key, ttl);
    } else {
      StepKeepsInv(s, Arrive(c, key), ttl);
      ArrivesProtected(s, c, key, ttl);
      forall actions | Feasible(t, actions, ttl) ensures !ServedExpired(Run(t, actions, ttl), c, ttl) {
        StaysProtected(t, actions, c, key, s.now, ttl);
      }
    }
  }

  lemma ArrivesProtected(s: State, c: nat, key: string, ttl: nat)
    requires Inv(s, ttl) && c !in s.calls && !ExpiredLanding(s, key, ttl)
    ensures Protected(Do(s, Arrive(c, key), ttl), c, key, s.now, ttl)
  {
    if key in s.flights {
      assert FlightInv(s, key);
    }
  }

  function Leader(pc: Pc): map<nat, Call> {
    map[0 := Call("k", 0, pc)]
  }

  lemma LeaderBuilds(data: Payload, ttl: nat) returns (actions: seq<Action>)
    ensures Feasible(Initial(0), actions, ttl)
    ensures Run(Initial(0), actions, ttl) == State(0, map[], map["k" := 0], Leader(Storing(data)), {Build("k", data)}, {})
  {
    var s := Initial(0);
    actions := OneMore(s, [], Arrive(0, "k"), ttl);
    assert Run(s, actions, ttl) == s.(calls := Leader(Looking));
    actions := OneMore(s, actions, Look(0), ttl);
    assert Run(s, actions, ttl) == s.(calls := Leader(Missed));
    actions := OneMore(s, actions, Join(0), ttl);
    assert Run(s, actions, ttl) == s.(calls := Leader(Rechecking), flights := map["k" := 0]);
    actions := OneMore(s, actions, Recheck(0), ttl);
    assert Run(s, actions, ttl) == s.(calls := Leader(Building), flights := map["k" := 0]);
    actions := OneMore(s, actions, RunBuild(0, Some(data)), ttl);
  }

  /** Whatever the TTL, such a flight is reachable and a caller can be caught by it. */
  lemma FollowerMayGetExpired(data: Payload, ttl: nat) returns (actions: seq<Action>)
    ensures Feasible(Initial(0), actions, ttl) && 1 !in Run(Initial(0), actions, ttl).calls
    ensures CanBeServedExpired(Run(Initial(0), actions, ttl), 1, "k", ttl)
  {
    actions := LeaderBuilds(data, ttl);
    actions := OneMore(Initial(0), actions, Store(0), ttl);
    actions := OneMore(Initial(0), actions, Tick(ttl + 1), ttl);
    assert ExpiredLanding(Run(Initial(0), actions, ttl), "k", ttl);
    ServedExpiredIff(0, actions, 1, "k", ttl);
  }

  /** A call that nothing overlaps does what GetOrBuild promises: a live payload is returned as it
      is; without one it builds, stores for one TTL and returns what it built, or fails and stores
      nothing; a long key is built past the cache. */
  lemma LoneCall(s: State, c: nat, key: string, build: Option<Payload>, ttl: nat) returns (actions: seq<Action>)
    requires c !in s.calls && key !in s.flights
    ensures Feasible(s, actions, ttl)
    ensures var t := Run(s, actions, ttl);
            && c in t.calls && t.flights == s.flights && t.now == s.now
            && if |key| > 64 then
                 t.entries == s.entries && t.calls[c].pc == if build.Some? then Bypassed(build.value) else Failed
               else if key in s.entries && s.now <= s.entries[key].expires then
                 t.entries == s.entries && t.calls[c].pc.Returned? && t.calls[c].pc.hit.data == s.entries[key].data
               else if build.Some? then
                 && t.entries == Put(s.entries, key, build.value, s.now, ttl)
                 && t.calls[c].pc.Returned? && t.calls[c].pc.hit.data == build.value
               else t.entries == s.entries && t.calls[c].pc.Failed?
  {
    var start := Do(s, Arrive(c, key), ttl);
    actions := OneMore(s, [], Arrive(c, key), ttl);
    assert Run(s, actions, ttl) == start;
    if |key| > MAX_KEY_LEN {
      actions := OneMore(s, actions, RunBuild(c, build), ttl);
    } else {
      actions := OneMore(s, actions, Look(c), ttl);
      if !Live(s.entries, key, s.now) {
        assert Run(s, actions, ttl) == Goto(start, c, Missed);
        actions := LoneFlight(s, start, actions, c, key, build, ttl);
      }
    }
  }

  /** The lone call in flight. */
  function Flying(s: State, c: nat, key: string, pc: Pc): State {
    s.(calls := s.calls[c := Call(key, s.now, pc)], flights := s.flights[key := c])
  }

  lemma LoneFlight(s: State, start: State, before: seq<Action>, c: nat, key: string, build: Option<Payload>, ttl: nat)
      returns (actions: seq<Action>)
    requires c !in s.calls && key !in s.flights && |key| <= MAX_KEY_LEN && !Live(s.entries, key, s.now)
    requires start == Do(s, Arrive(c, key), ttl)
    requires Feasible(s, before, ttl) && Run(s, before, ttl) == Goto(start, c, Missed)
    ensures Feasible(s, actions, ttl)
    ensures var t := Run(s, actions, ttl);
            && c in t.calls && t.flights == s.flights && t.now == s.now
            && t.entries == (if build.Some? then Put(s.entries, key, build.value, s.now, ttl) else s.entries)
            && if build.Some? then t.calls[c].pc.Returned? && t.calls[c].pc.hit.data == build.value else t.calls[c].pc.Failed?
  {
    actions := OneMore(s, before, Join(c), ttl);
    assert Run(s, actions, ttl) == Flying(s, c, key, Rechecking);
    actions := OneMore(s, actions, Recheck(c), ttl);
    assert Run(s, actions, ttl) == Flying(s, c, key, Building);
    actions := OneMore(s, actions, RunBuild(c, build), ttl);
    actions := LoneLanding(s, actions, c, key, build, ttl);
  }

  lemma LoneLanding(s: State, before: seq<Action>, c: nat, key: string, build: Option<Payload>, ttl: nat)
      returns (actions: seq<Action>)
    requires c !in s.calls && key !in s.flights && Feasible(s, before, ttl)
    requires var f := Flying(s, c, key, Building);
             Enabled(f, RunBuild(c, build)) && Run(s, before, ttl) == Do(f, RunBuild(c, build), ttl)
    ensures Feasible(s, actions, ttl)
    ensures var t := Run(s, actions, ttl);
            && c in t.calls && t.flights == s.flights && t.now == s.now
            && t.entries == (if build.Some? then Put(s.entries, key, build.value, s.now, ttl) else s.entries)
            && if build.Some? then t.calls[c].pc.Returned? && t.calls[c].pc.hit.data == build.value else t.calls[c].pc.Failed?
  {
    actions := before;
    if build.Some? {
      actions := OneMore(s, actions, Store(c), ttl);
    }
    assert s.flights[key := c] - {key} == s.flights;
    actions := OneMore(s, actions, Land(c), ttl);
  }
}
