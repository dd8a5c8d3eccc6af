/** Registration against shutdown: the pending count, the idle decision, and who is closed. */
module HubAdmission {
  import opened Options
  import opened RoomState
  import opened HubProtocol
  import opened HubControl

  /** Past RegisterClient's check and neither resolved by Run nor given back. */
  predicate IsPending(pc: JoinPc) {
    pc.Offering? || pc.BackingOff? || pc.HandedOver?
  }

  function Pending(peers: map<Client, Peer>): set<Client> {
    set c | c in peers && IsPending(peers[c].join)
  }

  /** pendingRegs is exact, and a successful idle re-check is final. */
  predicate Admission(s: State) {
    && s.core.room.pendingRegs == |Pending(s.peers)|
    && (s.core.idleCommitted ==> s.core.room.stopping && Idle(s.core.room))
  }

  /** A client the hub accepted or turned away, and no longer counts, is closed; one nobody
      else is closed unless the hub itself is dead. */
  predicate PeerClosed(s: Core, c: Client, p: Peer) {
    && ((p.join.Admitted? || p.join.Rejected?) && c !in s.room.clients ==> p.conn.done)
    && (p.conn.done ==> s.quit || p.join.Rejected? || (p.join.Admitted? && c !in s.room.clients))
  }

  predicate Closings(s: State) {
    forall c <- s.peers :: PeerClosed(s.core, c, s.peers[c])
  }

  function Slot(pc: JoinPc): int {
    if IsPending(pc) then 1 else 0
  }

  /** How one connection's action moves the slot count and the idle verdict. */
  predicate SlotStep(s: Core, p: Peer, t: Core, q: Peer) {
    && t.room.pendingRegs - s.room.pendingRegs == Slot(q.join) - Slot(p.join)
    && (t.idleCommitted ==> t.room.stopping && Idle(t.room))
  }

  lemma LoopSlots(s: Core, c: Client, p: Peer, a: LoopAction)
    requires PeerControl(s, c, p) && LoopEnabled(s, c, p, a)
    requires s.idleCommitted ==> s.room.stopping && Idle(s.room)
    requires IsPending(p.join) ==> s.room.pendingRegs > 0
    ensures SlotStep(s, p, DoLoop(s, c, p, a).core, DoLoop(s, c, p, a).peer)
  {
  }

  lemma JoinSlots(s: Core, c: Client, p: Peer, a: JoinAction)
    requires PeerControl(s, c, p) && JoinEnabled(s, c, p, a)
    requires s.idleCommitted ==> s.room.stopping && Idle(s.room)
    requires IsPending(p.join) ==> s.room.pendingRegs > 0
    ensures SlotStep(s, p, DoJoin(s, c, p, a).core, DoJoin(s, c, p, a).peer)
  {
  }

  lemma LeaveSlots(s: Core, c: Client, p: Peer, a: LeaveAction)
    requires PeerControl(s, c, p) && LeaveEnabled(s, c, p, a)
    requires s.idleCommitted ==> s.room.stopping && Idle(s.room)
    ensures SlotStep(s, p, DoLeave(s, c, p, a).core, DoLeave(s, c, p, a).peer)
  {
  }

  lemma PendingAfter(peers: map<Client, Peer>, c: Client, q: Peer)
    requires c in peers
    ensures |Pending(peers[c := q])| == |Pending(peers)| + Slot(q.join) - Slot(peers[c].join)
  {
    PendingWithout(peers, c);
    PendingWithout(peers[c := q], c);
    assert Pending(peers[c := q]) - {c} == Pending(peers) - {c};
  }

  lemma PendingWithout(peers: map<Client, Peer>, c: Client)
    requires c in peers
    ensures |Pending(peers)| == |Pending(peers) - {c}| + Slot(peers[c].join)
  {
    if IsPending(peers[c].join) {
      assert c in Pending(peers);
    } else {
      assert Pending(peers) - {c} == Pending(peers);
    }
  }

  lemma StepAdmission(s: State, a: Action)
    requires Control(s) && Admission(s) && Enabled(s, a)
    ensures Admission(Do(s, a))
  {
    match a
    case Of(c, act) =>
      var p := s.peers[c];
      if IsPending(p.join) {
        assert c in Pending(s.peers);
      }
      match act {
        case Loop(l) => LoopSlots(s.core, c, p, l);
        case Joining(j) => JoinSlots(s.core, c, p, j);
        case Leaving(v) => LeaveSlots(s.core, c, p, v);
      }
      PendingAfter(s.peers, c, DoPeer(s.core, c, p, act).peer);
    case Shared(_) =>
    case Evict =>
      assert Pending(Do(s, a).peers) == Pending(s.peers);
  }

  lemma LoopClosed(s: Core, c: Client, p: Peer, a: LoopAction)
    requires CoreControl(s) && PeerControl(s, c, p) && PeerClosed(s, c, p) && LoopEnabled(s, c, p, a)
    ensures PeerClosed(DoLoop(s, c, p, a).core, c, DoLoop(s, c, p, a).peer)
  {
  }

  lemma JoinClosed(s: Core, c: Client, p: Peer, a: JoinAction)
    requires PeerClosed(s, c, p) && JoinEnabled(s, c, p, a)
    ensures PeerClosed(DoJoin(s, c, p, a).core, c, DoJoin(s, c, p, a).peer)
  {
  }

  lemma LeaveClosed(s: Core, c: Client, p: Peer, a: LeaveAction)
    requires PeerClosed(s, c, p) && LeaveEnabled(s, c, p, a)
    ensures PeerClosed(DoLeave(s, c, p, a).core, c, DoLeave(s, c, p, a).peer)
  {
  }

  lemma LoopMembership(s: Core, c: Client, p: Peer, a: LoopAction, d: Client)
    requires LoopEnabled(s, c, p, a) && d != c
    ensures d in DoLoop(s, c, p, a).core.room.clients <==> d in s.room.clients
    ensures DoLoop(s, c, p, a).core.quit == s.quit
  {
  }

  lemma JoinMembership(s: Core, c: Client, p: Peer, a: JoinAction)
    requires JoinEnabled(s, c, p, a)
    ensures DoJoin(s, c, p, a).core.room.clients == s.room.clients
    ensures DoJoin(s, c, p, a).core.quit == s.quit
  {
  }

  lemma LeaveMembership(s: Core, c: Client, p: Peer, a: LeaveAction)
    requires LeaveEnabled(s, c, p, a)
    ensures DoLeave(s, c, p, a).core.room.clients == s.room.clients
    ensures DoLeave(s, c, p, a).core.quit == s.quit
  {
  }

  lemma SameMembership(s: Core, c: Client, p: Peer, a: PeerAction, d: Client)
    requires PeerEnabled(s, c, p, a) && d != c
    ensures d in DoPeer(s, c, p, a).core.room.clients <==> d in s.room.clients
    ensures DoPeer(s, c, p, a).core.quit == s.quit
  {
    match a
    case Loop(l) => LoopMembership(s, c, p, l, d);
    case Joining(j) => JoinMembership(s, c, p, j);
    case Leaving(v) => LeaveMembership(s, c, p, v);
  }

  lemma StepClosings(s: State, a: Action)
    requires Control(s) && Closings(s) && Enabled(s, a)
    ensures Closings(Do(s, a))
  {
    match a
    case Of(c, act) =>
      var p := s.peers[c];
      match act {
        case Loop(l) => LoopClosed(s.core, c, p, l);
        case Joining(j) => JoinClosed(s.core, c, p, j);
        case Leaving(v) => LeaveClosed(s.core, c, p, v);
      }
      forall d <- s.peers | d != c ensures PeerClosed(Do(s, a).core, d, s.peers[d]) {
        SameMembership(s.core, c, p, act, d);
      }
    case Shared(_) =>
    case Evict =>
  }
}
