/** What each step of the hub does to the room and the buffers, in their own terms. */
module HubEffects {
  import opened Options
  import opened RoomState
  import opened HubProtocol

  /** Run admits whoever it received unless the hub is stopping, and drops exactly the client
      that asked for it. */
  lemma LoopEffects(s: Core, c: Client, p: Peer, a: LoopAction)
    requires LoopEnabled(s, c, p, a)
    ensures var x := DoLoop(s, c, p, a);
            && (a.Receive? ==>
                  && x.core.room == s.room.(pendingRegs := s.room.pendingRegs - 1,
                                            clients := if s.room.stopping then s.room.clients else s.room.clients + {c})
                  && (s.room.stopping <==> x.peer.join.Rejecting?) && (!s.room.stopping <==> x.peer.join.Admitted?))
            && (a.Drop? ==>
                  && x.core.room == s.room.(clients := s.room.clients - {c})
                  && (x.peer.conn.done <==> p.conn.done || c in s.room.clients))
            && (a.TurnAway? ==> x.peer.conn.done && x.peer.conn.registered)
            && (!a.Receive? && !a.Drop? ==> x.core.room == s.room)
  {
    if a.Receive? {
    } else if a.FanOne? {
    } else {
    }
  }

  /** A slot is claimed unless the hub is stopping; a member's mic action sets the mic, anybody
      else's does nothing; frames leave the buffer at the front and enter at the end. */
  lemma JoinEffects(s: Core, c: Client, p: Peer, a: JoinAction)
    requires JoinEnabled(s, c, p, a)
    ensures var x := DoJoin(s, c, p, a);
            && (a.ClaimSlot? ==>
                  if s.room.stopping then x.core.room == s.room && x.peer.join.Refused?
                  else x.core.room == s.room.(pendingRegs := s.room.pendingRegs + 1) && x.peer.join.Offering?)
            && (a.GiveUpSlot? ==> x.core.room == s.room.(pendingRegs := s.room.pendingRegs - 1) && x.peer.join.Refused?)
            && (a.MicAction? ==>
                  && c.isDJ
                  && x.core.room == if c !in s.room.clients then s.room
                                    else s.room.(micActive := a.active, micPauseMusic := a.pauseMusic,
                                                 micOwner := if a.active then Some(c) else None))
            && (a.Take? ==> p.conn.send == [x.peer.taken[|p.taken|]] + x.peer.conn.send && |x.peer.taken| == |p.taken| + 1)
            && (a.SendDirect? ==> x.peer.conn.send == p.conn.send + [Direct(a.tag)] && |p.conn.send| < 256)
            && (!a.ClaimSlot? && !a.GiveUpSlot? && !a.MicAction? ==> x.core.room == s.room)
  {
  }

  /** Only the owner's leaving clears the mic; only a DJ that leaves a never-live room, or a
      successful idle re-check after the room was seen offline and empty, leads to a stop. */
  lemma LeaveEffects(s: Core, c: Client, p: Peer, a: LeaveAction)
    requires LeaveEnabled(s, c, p, a)
    ensures var x := DoLeave(s, c, p, a);
            && (a.LeaveMic? ==>
                  x.core.room == if c.isDJ && s.room.micOwner == Some(c)
                                 then s.room.(micActive := false, micPauseMusic := false, micOwner := None) else s.room)
            && (a.NeverLive? ==> c.isDJ && x.peer.leave.Ending?)
            && (a.EverLive? ==> x.peer.leave.Counting?)
            && (a.SeeClients? ==> x.peer.leave == if s.room.clients == {} then Querying else Left)
            && (a.SeeRoom? ==> x.peer.leave == if a.offline then Checking else Left)
            && (a.CheckIdle? ==>
                  if s.room.clients == {} && s.room.pendingRegs == 0
                  then x.core.room == s.room.(stopping := true) && x.peer.leave.Stopping? && x.core.idleCommitted
                  else x.core.room == s.room && x.peer.leave.Left? && x.core.idleCommitted == s.idleCommitted)
            && (a.EndRoom? ==> x.core.presence == {} && x.peer.leave.Stopping?)
            && (!a.LeaveMic? && !a.CheckIdle? ==> x.core.room == s.room)
  {
  }

  /** What the shared steps do: a broadcast leaves the channel at the front for every member, a
      listener count or event enters at the end while the channel holds fewer than 256. */
  lemma SharedEffects(s: Core, a: CoreAction)
    requires CoreEnabled(s, a)
    ensures var t := DoCore(s, a);
            && (a.TakeBroadcast? ==>
                  && s.chan == [t.log[|s.log|]] + t.chan && |t.log| == |s.log| + 1
                  && t.loop == Fanning(t.log[|s.log|], s.room.clients, {}))
            && (a.Offer? && !a.lost ==> |s.chan| < 256 && t.chan == s.chan + [ListenerCount(|s.sizes|, s.count.size)])
            && (a.Offer? && a.lost ==> (s.quit || |s.chan| >= 256) && t.chan == s.chan)
            && (a.OfferEvent? ==> |s.chan| < 256 && t.chan == s.chan + [Event(a.tag)])
            && (a.MarkStop? ==> t.room == s.room.(stopping := true))
            && (a.CloseQuit? ==> t.quit)
            && (a.Exit? ==> s.quit || s.draining)
            && (a.ClearListeners? ==> t.presence == {})
            && (!a.MarkStop? ==> t.room == s.room)
    ensures CoreEnabled(s, ClearListeners)
  {
  }
}
