/** Which program counters can hold together. Every safety argument starts here. */
module HubControl {
  import opened Options
  import opened RoomState
  import opened HubProtocol

  /** Run has not dropped the connection on its own request. */
  predicate NotDropped(pc: LeavePc) {
    pc.Connected? || pc.Leaving? || pc.Gone? || pc.HandedBack?
  }

  /** onUnregister is past its barrier. */
  predicate PastBarrier(pc: LeavePc) {
    !NotDropped(pc) && !pc.Waiting?
  }

  /** Some goroutine is inside stopOnce.Do. */
  predicate InStop(once: OncePc) {
    once.Marking? || once.ClosingQuit? || once.Notifying?
  }

  predicate PeerControl(s: Core, c: Client, p: Peer) {
    && (p.join.HandedOver? <==> s.loop.GotRegister? && s.loop.c == c)
    && (p.join.Rejecting? <==> s.loop.Refusing? && s.loop.c == c)
    && (p.leave.HandedBack? <==> s.loop.GotUnregister? && s.loop.c == c)
    && (!p.enter.NotSpawned? <==> p.join.Admitted?)
    && (c in s.room.clients ==> p.join.Admitted? && NotDropped(p.leave))
    && (!p.leave.Connected? ==> HasPumps(p.join))
    && (!NotDropped(p.leave) ==> p.join.Admitted? || p.join.Rejected?)
    && (Holds(s.count, c, true) ==> p.enter.Entering?)
    && (Holds(s.count, c, false) ==> p.leave.Removing?)
    && (InStop(s.once) && s.once.c == c ==> p.leave.Stopping?)
  }

  predicate LoopControl(s: Core) {
    match s.loop
    case Refusing(_) => s.room.stopping
    case Fanning(m, todo, stale) =>
      todo <= s.room.clients && stale <= s.room.clients && todo !! stale && |s.log| > 0 && s.log[|s.log|-1] == m
    case Evicting(stale) => stale <= s.room.clients && |s.log| > 0
    case Exited => s.draining
    case _ => true
  }

  predicate CoreControl(s: Core) {
    && LoopControl(s)
    && (s.quit <==> s.once.Notifying? || s.once.Fired?)
    && (s.once.ClosingQuit? || s.quit ==> s.room.stopping)
    && (s.draining ==> s.quit)
    && s.shutdowns == if s.once.Fired? then 1 else 0
  }

  predicate Control(s: State) {
    && CoreControl(s.core)
    && s.core.room.clients <= s.peers.Keys
    && forall c <- s.peers :: PeerControl(s.core, c, s.peers[c])
  }

  lemma LoopKeepsCore(s: Core, c: Client, p: Peer, a: LoopAction)
    requires CoreControl(s) && PeerControl(s, c, p) && LoopEnabled(s, c, p, a)
    ensures CoreControl(DoLoop(s, c, p, a).core)
    ensures DoLoop(s, c, p, a).core.room.clients <= s.room.clients + {c}
  {
  }

  lemma LoopKeepsPeer(s: Core, c: Client, p: Peer, a: LoopAction)
    requires PeerControl(s, c, p) && LoopEnabled(s, c, p, a)
    ensures PeerControl(DoLoop(s, c, p, a).core, c, DoLoop(s, c, p, a).peer)
  {
    if a.Receive? && s.room.stopping {
    } else if a.FanOne? {
    } else {
    }
  }

  lemma LoopKeepsOther(s: Core, c: Client, p: Peer, a: LoopAction, d: Client, q: Peer)
    requires PeerControl(s, c, p) && LoopEnabled(s, c, p, a)
    requires d != c && PeerControl(s, d, q)
    ensures PeerControl(DoLoop(s, c, p, a).core, d, q)
  {
  }

  lemma JoinKeepsCore(s: Core, c: Client, p: Peer, a: JoinAction)
    requires CoreControl(s) && PeerControl(s, c, p) && JoinEnabled(s, c, p, a)
    ensures CoreControl(DoJoin(s, c, p, a).core)
    ensures DoJoin(s, c, p, a).core.room.clients <= s.room.clients + {c}
  {
  }

  lemma JoinKeepsPeer(s: Core, c: Client, p: Peer, a: JoinAction)
    requires PeerControl(s, c, p) && JoinEnabled(s, c, p, a)
    ensures PeerControl(DoJoin(s, c, p, a).core, c, DoJoin(s, c, p, a).peer)
  {
  }

  lemma JoinKeepsOther(s: Core, c: Client, p: Peer, a: JoinAction, d: Client, q: Peer)
    requires PeerControl(s, c, p) && JoinEnabled(s, c, p, a)
    requires d != c && PeerControl(s, d, q)
    ensures PeerControl(DoJoin(s, c, p, a).core, d, q)
  {
  }

  lemma LeaveKeepsCore(s: Core, c: Client, p: Peer, a: LeaveAction)
    requires CoreControl(s) && PeerControl(s, c, p) && LeaveEnabled(s, c, p, a)
    ensures CoreControl(DoLeave(s, c, p, a).core)
    ensures DoLeave(s, c, p, a).core.room.clients <= s.room.clients + {c}
  {
  }

  lemma LeaveKeepsPeer(s: Core, c: Client, p: Peer, a: LeaveAction)
    requires PeerControl(s, c, p) && LeaveEnabled(s, c, p, a)
    ensures PeerControl(DoLeave(s, c, p, a).core, c, DoLeave(s, c, p, a).peer)
  {
  }

  lemma LeaveKeepsOther(s: Core, c: Client, p: Peer, a: LeaveAction, d: Client, q: Peer)
    requires PeerControl(s, c, p) && LeaveEnabled(s, c, p, a)
    requires d != c && PeerControl(s, d, q)
    ensures PeerControl(DoLeave(s, c, p, a).core, d, q)
  {
  }

  lemma SharedKeeps(s: Core, a: CoreAction)
    requires CoreControl(s) && CoreEnabled(s, a)
    ensures CoreControl(DoCore(s, a))
    ensures DoCore(s, a).room.clients == s.room.clients
  {
  }

  lemma SharedKeepsPeer(s: Core, a: CoreAction, d: Client, q: Peer)
    requires CoreControl(s) && PeerControl(s, d, q) && CoreEnabled(s, a)
    ensures PeerControl(DoCore(s, a), d, q)
  {
  }

  lemma InitControl(clients: set<Client>)
    ensures Control(Init(clients))
  {
  }

  lemma PeerStepControl(s: State, c: Client, a: PeerAction)
    requires Control(s) && c in s.peers && PeerEnabled(s.core, c, s.peers[c], a)
    ensures Control(Do(s, Of(c, a)))
  {
    var p := s.peers[c];
    match a {
      case Loop(l) =>
        LoopKeepsCore(s.core, c, p, l);
        LoopKeepsPeer(s.core, c, p, l);
        forall d <- s.peers | d != c ensures PeerControl(DoPeer(s.core, c, p, a).core, d, s.peers[d]) {
          LoopKeepsOther(s.core, c, p, l, d, s.peers[d]);
        }
      case Joining(j) =>
        JoinKeepsCore(s.core, c, p, j);
        JoinKeepsPeer(s.core, c, p, j);
        forall d <- s.peers | d != c ensures PeerControl(DoPeer(s.core, c, p, a).core, d, s.peers[d]) {
          JoinKeepsOther(s.core, c, p, j, d, s.peers[d]);
        }
      case Leaving(v) =>
        LeaveKeepsCore(s.core, c, p, v);
        LeaveKeepsPeer(s.core, c, p, v);
        forall d <- s.peers | d != c ensures PeerControl(DoPeer(s.core, c, p, a).core, d, s.peers[d]) {
          LeaveKeepsOther(s.core, c, p, v, d, s.peers[d]);
        }
    }
  }

  lemma StepControl(s: State, a: Action)
    requires Control(s) && Enabled(s, a)
    ensures Control(Do(s, a))
  {
    match a
    case Of(c, act) => PeerStepControl(s, c, act);
    case Shared(step) =>
      SharedKeeps(s.core, step);
      forall d <- s.peers ensures PeerControl(DoCore(s.core, step), d, s.peers[d]) {
        SharedKeepsPeer(s.core, step, d, s.peers[d]);
      }
    case Evict =>
  }
}
