/** Who holds the microphone. */
module HubMic {
  import opened Options
  import opened RoomState
  import opened HubProtocol
  import opened HubControl

  /** The owner is a DJ connection that has not run its leave step, and only a connection
      that was dropped runs it. */
  predicate PeerMic(s: Core, c: Client, p: Peer) {
    && (s.room.micOwner.Some? && s.room.micOwner.value == c ==> c.isDJ && !p.micLeft)
    && (p.micLeft ==> !NotDropped(p.leave))
  }

  predicate CoreMic(s: Core) {
    s.room.micActive <==> s.room.micOwner.Some?
  }

  predicate Mic(s: State) {
    && CoreMic(s.core)
    && (s.core.room.micOwner.Some? ==> s.core.room.micOwner.value in s.peers)
    && forall c <- s.peers :: PeerMic(s.core, c, s.peers[c])
  }

  /** The owner after an action of c: as before, c itself, or nobody. */
  predicate MicMoves(s: Core, c: Client, t: Core) {
    CoreMic(t) && (t.room.micOwner.None? || t.room.micOwner == s.room.micOwner || t.room.micOwner.value == c)
  }

  lemma LoopMic(s: Core, c: Client, p: Peer, a: LoopAction)
    requires CoreMic(s) && PeerMic(s, c, p) && LoopEnabled(s, c, p, a) && PeerControl(s, c, p)
    ensures var x := DoLoop(s, c, p, a);
            PeerMic(x.core, c, x.peer) && CoreMic(x.core) && x.core.room.micOwner == s.room.micOwner
  {
    if a.Receive? && s.room.stopping {
    } else if a.FanOne? {
    } else {
    }
  }

  lemma JoinMic(s: Core, c: Client, p: Peer, a: JoinAction)
    requires CoreMic(s) && PeerMic(s, c, p) && JoinEnabled(s, c, p, a) && PeerControl(s, c, p)
    ensures var x := DoJoin(s, c, p, a); PeerMic(x.core, c, x.peer) && MicMoves(s, c, x.core)
  {
  }

  lemma LeaveMicStep(s: Core, c: Client, p: Peer, a: LeaveAction)
    requires CoreMic(s) && PeerMic(s, c, p) && LeaveEnabled(s, c, p, a)
    ensures var x := DoLeave(s, c, p, a); PeerMic(x.core, c, x.peer) && MicMoves(s, c, x.core)
  {
  }

  lemma StepMic(s: State, a: Action)
    requires Control(s) && Mic(s) && Enabled(s, a)
    ensures Mic(Do(s, a))
  {
    match a
    case Of(c, act) =>
      var p := s.peers[c];
      match act {
        case Loop(l) => LoopMic(s.core, c, p, l);
        case Joining(j) => JoinMic(s.core, c, p, j);
        case Leaving(v) => LeaveMicStep(s.core, c, p, v);
      }
      assert MicMoves(s.core, c, DoPeer(s.core, c, p, act).core);
    case Shared(_) =>
    case Evict =>
  }
}
