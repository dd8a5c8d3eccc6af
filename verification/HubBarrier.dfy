/** The per-client ordering barrier, and what it buys: presence never keeps a ghost. */
module HubBarrier {
  import opened Options
  import opened RoomState
  import opened HubProtocol
  import opened HubControl

  /** `registered` is closed by whoever owes it, once, and nothing past it runs before. */
  predicate PeerBarrier(p: Peer) {
    && p.closes == (if p.enter.Entered? then 1 else 0) + (if p.join.Rejected? then 1 else 0)
    && (p.conn.registered <==> p.closes == 1)
    && (PastBarrier(p.leave) || p.removed ==> p.conn.registered)
    && (p.added ==> p.join.Admitted?)
  }

  /** Each presence step of a connection runs at most once. */
  predicate PeerOnce(s: Core, c: Client, p: Peer) {
    && (p.added && p.enter.Entering? ==> Holds(s.count, c, true) && !s.count.Locked?)
    && (p.removed && p.leave.Removing? ==> Holds(s.count, c, false) && !s.count.Locked?)
    && (p.removed ==> PastBarrier(p.leave))
  }

  /** c is in the room as far as presence is concerned. */
  predicate Present(p: Peer) {
    p.added && !p.removed
  }

  predicate Barrier(s: State) {
    && (forall c <- s.peers :: PeerBarrier(s.peers[c]) && PeerOnce(s.core, c, s.peers[c]))
    && forall x <- s.core.presence :: exists c :: c in s.peers && c.session == x && Present(s.peers[c])
  }

  lemma LoopBarrier(s: Core, c: Client, p: Peer, a: LoopAction)
    requires PeerControl(s, c, p) && PeerBarrier(p) && PeerOnce(s, c, p) && LoopEnabled(s, c, p, a)
    ensures var x := DoLoop(s, c, p, a); PeerBarrier(x.peer) && PeerOnce(x.core, c, x.peer)
    ensures var x := DoLoop(s, c, p, a);
            x.peer.added == p.added && x.peer.removed == p.removed && x.core.presence == s.presence
  {
    if a.FanOne? {
    } else {
    }
  }

  lemma JoinBarrier(s: Core, c: Client, p: Peer, a: JoinAction)
    requires PeerControl(s, c, p) && PeerBarrier(p) && PeerOnce(s, c, p) && JoinEnabled(s, c, p, a)
    ensures var x := DoJoin(s, c, p, a); PeerBarrier(x.peer) && PeerOnce(x.core, c, x.peer)
    ensures var x := DoJoin(s, c, p, a);
            if a.Mutate? then
              if s.count.adding then Present(x.peer) && x.core.presence == s.presence + {c.session}
              else x.core.presence == s.presence - {c.session}
            else x.peer.added == p.added && x.peer.removed == p.removed && x.core.presence == s.presence
  {
  }

  lemma LeaveBarrier(s: Core, c: Client, p: Peer, a: LeaveAction)
    requires PeerControl(s, c, p) && PeerBarrier(p) && PeerOnce(s, c, p) && LeaveEnabled(s, c, p, a)
    ensures var x := DoLeave(s, c, p, a); PeerBarrier(x.peer) && PeerOnce(x.core, c, x.peer)
    ensures var x := DoLeave(s, c, p, a);
            x.peer.added == p.added && x.peer.removed == p.removed && x.core.presence <= s.presence
  {
  }

  lemma LoopOtherOnce(s: Core, c: Client, p: Peer, a: LoopAction, d: Client, q: Peer)
    requires LoopEnabled(s, c, p, a) && d != c && PeerOnce(s, d, q)
    ensures PeerOnce(DoLoop(s, c, p, a).core, d, q)
  {
    if a.Receive? && s.room.stopping {
    } else if a.FanOne? {
    } else {
    }
  }

  lemma JoinOtherOnce(s: Core, c: Client, p: Peer, a: JoinAction, d: Client, q: Peer)
    requires JoinEnabled(s, c, p, a) && d != c && PeerOnce(s, d, q)
    ensures PeerOnce(DoJoin(s, c, p, a).core, d, q)
  {
  }

  lemma LeaveOtherOnce(s: Core, c: Client, p: Peer, a: LeaveAction, d: Client, q: Peer)
    requires LeaveEnabled(s, c, p, a) && d != c && PeerOnce(s, d, q)
    ensures PeerOnce(DoLeave(s, c, p, a).core, d, q)
  {
  }

  lemma OtherOnce(s: Core, c: Client, p: Peer, a: PeerAction, d: Client, q: Peer)
    requires PeerEnabled(s, c, p, a) && d != c && PeerOnce(s, d, q)
    ensures PeerOnce(DoPeer(s, c, p, a).core, d, q)
  {
    match a
    case Loop(l) => LoopOtherOnce(s, c, p, l, d, q);
    case Joining(j) => JoinOtherOnce(s, c, p, j, d, q);
    case Leaving(v) => LeaveOtherOnce(s, c, p, v, d, q);
  }

  /** A presence step of a connection that has not finished onRegister comes before its removal. */
  lemma AddComesFirst(s: State, c: Client)
    requires Control(s) && Barrier(s)
    requires c in s.peers && s.core.count == Locked(c, true)
    ensures !s.peers[c].added && !s.peers[c].removed && !PastBarrier(s.peers[c].leave)
  {
    assert PeerControl(s.core, c, s.peers[c]) && Holds(s.core.count, c, true);
  }

  /** Whose session an action leaves in presence: one that was there and whose connection stays
      present, or the one just added. */
  lemma OwnPresence(s: Core, c: Client, p: Peer, a: PeerAction, x: nat)
    requires PeerControl(s, c, p) && PeerBarrier(p) && PeerOnce(s, c, p) && PeerEnabled(s, c, p, a)
    requires x in DoPeer(s, c, p, a).core.presence
    ensures var q := DoPeer(s, c, p, a).peer;
            (x == c.session && Present(q)) || (x in s.presence && (x == c.session && Present(p) ==> Present(q)))
  {
    match a
    case Loop(l) => LoopBarrier(s, c, p, l);
    case Joining(j) => JoinBarrier(s, c, p, j);
    case Leaving(v) => LeaveBarrier(s, c, p, v);
  }

  lemma SharedPresence(s: Core, a: CoreAction)
    requires CoreEnabled(s, a)
    ensures DoCore(s, a).presence <= s.presence
  {
  }

  lemma StepPresence(s: State, a: Action, x: nat) returns (d: Client)
    requires Control(s) && Barrier(s) && Enabled(s, a) && x in Do(s, a).core.presence
    ensures d in Do(s, a).peers && d.session == x && Present(Do(s, a).peers[d])
  {
    if a.Of? {
      OwnPresence(s.core, a.c, s.peers[a.c], a.act, x);
      if x == a.c.session && Present(Do(s, a).peers[a.c]) {
        return a.c;
      }
    } else if a.Shared? {
      SharedPresence(s.core, a.step);
    }
    d :| d in s.peers && d.session == x && Present(s.peers[d]);
    if a.Of? {
      assert d != a.c && Do(s, a).peers[d] == s.peers[d];
    }
  }

  lemma OwnBarrier(s: Core, c: Client, p: Peer, a: PeerAction)
    requires PeerControl(s, c, p) && PeerBarrier(p) && PeerOnce(s, c, p) && PeerEnabled(s, c, p, a)
    ensures var x := DoPeer(s, c, p, a); PeerBarrier(x.peer) && PeerOnce(x.core, c, x.peer)
  {
    match a
    case Loop(l) => LoopBarrier(s, c, p, l);
    case Joining(j) => JoinBarrier(s, c, p, j);
    case Leaving(v) => LeaveBarrier(s, c, p, v);
  }

  lemma SharedOnce(s: Core, a: CoreAction, d: Client, q: Peer)
    requires CoreEnabled(s, a) && PeerOnce(s, d, q)
    ensures PeerOnce(DoCore(s, a), d, q)
  {
  }

  lemma StepPeers(s: State, a: Action)
    requires Control(s) && Barrier(s) && Enabled(s, a)
    ensures var t := Do(s, a); forall d <- t.peers :: PeerBarrier(t.peers[d]) && PeerOnce(t.core, d, t.peers[d])
  {
    var t := Do(s, a);
    forall d <- t.peers ensures PeerBarrier(t.peers[d]) && PeerOnce(t.core, d, t.peers[d]) {
      assert PeerBarrier(s.peers[d]) && PeerOnce(s.core, d, s.peers[d]) && PeerControl(s.core, d, s.peers[d]);
      match a
      case Of(c, act) =>
        if d == c {
          OwnBarrier(s.core, c, s.peers[c], act);
        } else {
          OtherOnce(s.core, c, s.peers[c], act, d, s.peers[d]);
        }
      case Shared(step) => SharedOnce(s.core, step, d, s.peers[d]);
      case Evict =>
    }
  }

  lemma StepBarrier(s: State, a: Action)
    requires Control(s) && Barrier(s) && Enabled(s, a)
    ensures Barrier(Do(s, a))
  {
    var t := Do(s, a);
    StepPeers(s, a);
    forall x <- t.core.presence ensures exists c :: c in t.peers && c.session == x && Present(t.peers[c]) {
      var d := StepPresence(s, a, x);
    }
  }
}
