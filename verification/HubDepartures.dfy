/** Nothing is skipped on the way in or out: without panics, whoever is through onRegister has been
    added to presence, and whoever is through onUnregister has been removed and has given up the mic. */
module HubDepartures {
  import opened Options
  import opened RoomState
  import opened HubProtocol
  import opened HubControl
  import opened HubSafety
  import opened HubProgress

  /** onUnregister is past its mic section. */
  predicate PastMic(pc: LeavePc) {
    pc.Deciding? || pc.Ending? || pc.Counting? || pc.Querying? || pc.Checking? || pc.Stopping? || pc.Left?
  }

  predicate Thorough(s: Core, c: Client, p: Peer) {
    && (p.enter.Announcing? || p.enter.Releasing? || p.enter.Entered? ==> p.added)
    && (Holds(s.count, c, true) && !s.count.Locked? ==> p.added)
    && (Holds(s.count, c, false) && !s.count.Locked? ==> p.removed)
    && (p.leave.Parting? || PastMic(p.leave) ==> p.removed)
    && (PastMic(p.leave) ==> p.micLeft)
    && (p.leave.Gone? ==> p.conn.done)
  }

  lemma LoopThorough(s: Core, c: Client, p: Peer, a: LoopAction)
    requires PeerControl(s, c, p) && Thorough(s, c, p) && LoopEnabled(s, c, p, a)
    ensures Thorough(DoLoop(s, c, p, a).core, c, DoLoop(s, c, p, a).peer)
  {
    if a.Receive? && s.room.stopping {
    } else if a.FanOne? {
    } else {
    }
  }

  lemma JoinThorough(s: Core, c: Client, p: Peer, a: JoinAction)
    requires PeerControl(s, c, p) && Thorough(s, c, p) && JoinEnabled(s, c, p, a) && !a.PanicEnter?
    ensures Thorough(DoJoin(s, c, p, a).core, c, DoJoin(s, c, p, a).peer)
  {
    if a.Mutate? {
    } else if a.Unlock? {
    } else if a.Lock? {
    } else {
      assert DoJoin(s, c, p, a).core.count == s.count;
    }
  }

  lemma LeaveThorough(s: Core, c: Client, p: Peer, a: LeaveAction)
    requires PeerControl(s, c, p) && Thorough(s, c, p) && LeaveEnabled(s, c, p, a) && !a.PanicLeave?
    ensures Thorough(DoLeave(s, c, p, a).core, c, DoLeave(s, c, p, a).peer)
  {
  }

  lemma LoopSparesOther(s: Core, c: Client, p: Peer, a: LoopAction, d: Client, q: Peer)
    requires LoopEnabled(s, c, p, a) && d != c && Thorough(s, d, q)
    ensures Thorough(DoLoop(s, c, p, a).core, d, q)
  {
    if a.Receive? && s.room.stopping {
    } else if a.FanOne? {
    } else {
    }
  }

  lemma JoinSparesOther(s: Core, c: Client, p: Peer, a: JoinAction, d: Client, q: Peer)
    requires JoinEnabled(s, c, p, a) && d != c && Thorough(s, d, q)
    ensures Thorough(DoJoin(s, c, p, a).core, d, q)
  {
  }

  lemma LeaveSparesOther(s: Core, c: Client, p: Peer, a: LeaveAction, d: Client, q: Peer)
    requires LeaveEnabled(s, c, p, a) && d != c && Thorough(s, d, q)
    ensures Thorough(DoLeave(s, c, p, a).core, d, q)
  {
  }

  lemma SharedSpares(s: Core, a: CoreAction, d: Client, q: Peer)
    requires CoreEnabled(s, a) && Thorough(s, d, q)
    ensures Thorough(DoCore(s, a), d, q)
  {
  }

  lemma StepThorough(s: State, a: Action, d: Client)
    requires Control(s) && Enabled(s, a) && !Panics(a) && d in s.peers && Thorough(s.core, d, s.peers[d])
    ensures d in Do(s, a).peers && Thorough(Do(s, a).core, d, Do(s, a).peers[d])
  {
    assert PeerControl(s.core, d, s.peers[d]);
    match a
    case Of(c, Loop(l)) =>
      if c == d { LoopThorough(s.core, c, s.peers[c], l); } else { LoopSparesOther(s.core, c, s.peers[c], l, d, s.peers[d]); }
    case Of(c, Joining(j)) =>
      if c == d { JoinThorough(s.core, c, s.peers[c], j); } else { JoinSparesOther(s.core, c, s.peers[c], j, d, s.peers[d]); }
    case Of(c, Leaving(v)) =>
      if c == d { LeaveThorough(s.core, c, s.peers[c], v); } else { LeaveSparesOther(s.core, c, s.peers[c], v, d, s.peers[d]); }
    case Shared(step) => SharedSpares(s.core, step, d, s.peers[d]);
    case Evict =>
  }

  lemma {:induction false} RunThorough(s: State, acts: seq<Action>, d: Client)
    requires Inv(s) && Feasible(s, acts) && forall a <- acts :: !Panics(a)
    requires d in s.peers && Thorough(s.core, d, s.peers[d])
    ensures d in Run(s, acts).peers && Thorough(Run(s, acts).core, d, Run(s, acts).peers[d])
    decreases |acts|
  {
    if acts != [] {
      StepInv(s, acts[0]);
      StepThorough(s, acts[0], d);
      RunThorough(Do(s, acts[0]), acts[1..], d);
    }
  }

  /** In every state of every run without panics: a connection through onRegister was added to
      presence, one through onUnregister was removed from it and gave up the mic, and one that left
      a dead hub is closed. */
  lemma {:induction false} NoSectionIsSkipped(clients: set<Client>, acts: seq<Action>, c: Client)
    requires Feasible(Init(clients), acts) && c in clients && forall a <- acts :: !Panics(a)
    ensures c in Run(Init(clients), acts).peers
    ensures var p := Run(Init(clients), acts).peers[c];
            && (p.enter.Entered? ==> p.added)
            && (p.leave.Left? ==> p.removed && p.micLeft)
            && (p.leave.Gone? ==> p.conn.done)
  {
    InitInv(clients);
    RunThorough(Init(clients), acts, c);
  }
}
