/** What holds of a room's hub in every state of every run, and between the states of a run. */
module HubSafety {
  import opened Options
  import opened RoomState
  import opened HubProtocol
  import opened HubControl
  import opened HubAdmission
  import opened HubBarrier
  import opened HubMic
  import opened HubStream

  predicate Inv(s: State) {
    Control(s) && Admission(s) && Closings(s) && Barrier(s) && Mic(s) && Stream(s)
  }

  lemma InitInv(clients: set<Client>)
    ensures Inv(Init(clients))
  {
    var s := Init(clients);
    InitControl(clients);
    assert Pending(s.peers) == {};
    assert s.core.log[0..0] == [];
  }

  lemma StepInv(s: State, a: Action)
    requires Inv(s) && Enabled(s, a)
    ensures Inv(Do(s, a))
  {
    StepControl(s, a);
    StepAdmission(s, a);
    StepClosings(s, a);
    StepBarrier(s, a);
    StepMic(s, a);
    StepStream(s, a);
  }

  lemma {:induction false} RunInv(s: State, acts: seq<Action>)
    requires Inv(s) && Feasible(s, acts)
    ensures Inv(Run(s, acts))
    decreases |acts|
  {
    if acts == [] {
    } else {
      StepInv(s, acts[0]);
      RunInv(Do(s, acts[0]), acts[1..]);
    }
  }

  /** Under every interleaving: the pending count is the number of clients past the check
      and unresolved, and each `registered` channel is closed at most once. */
  lemma {:induction false} PendingIsExact(clients: set<Client>, acts: seq<Action>)
    requires Feasible(Init(clients), acts)
    ensures var s := Run(Init(clients), acts);
            && s.core.room.pendingRegs == |set c | c in s.peers && IsPending(s.peers[c].join)|
            && s.core.shutdowns <= 1
            && forall c <- s.peers :: s.peers[c].closes <= 1
  {
    InitInv(clients);
    RunInv(Init(clients), acts);
    var s := Run(Init(clients), acts);
    assert Pending(s.peers) == set c | c in s.peers && IsPending(s.peers[c].join);
    forall c <- s.peers ensures s.peers[c].closes <= 1 {
      assert PeerBarrier(s.peers[c]) && PeerControl(s.core, c, s.peers[c]);
    }
  }

  /** No action of a stopping hub adds a client or revokes the stop, and a connection that
      had not called RegisterClient can only be refused by it. */
  predicate Dying(s: State, t: State) {
    && s.peers.Keys == t.peers.Keys
    && t.core.room.stopping && t.core.room.clients <= s.core.room.clients
    && (s.core.idleCommitted ==> t.core.idleCommitted)
    && forall c <- s.peers :: s.peers[c].join.Fresh? || s.peers[c].join.Refused? ==>
         t.peers[c].join.Fresh? || t.peers[c].join.Refused?
  }

  lemma LoopDying(s: Core, c: Client, p: Peer, a: LoopAction)
    requires s.room.stopping && LoopEnabled(s, c, p, a) && PeerControl(s, c, p)
    ensures var x := DoLoop(s, c, p, a);
            && x.core.room.stopping && x.core.room.clients <= s.room.clients
            && x.core.idleCommitted == s.idleCommitted
            && (p.join.Fresh? || p.join.Refused? ==> x.peer.join.Fresh? || x.peer.join.Refused?)
  {
    if a.Receive? {
    } else if a.FanOne? {
    } else {
    }
  }

  lemma JoinDying(s: Core, c: Client, p: Peer, a: JoinAction)
    requires s.room.stopping && JoinEnabled(s, c, p, a)
    ensures var x := DoJoin(s, c, p, a);
            && x.core.room.stopping && x.core.room.clients == s.room.clients
            && x.core.idleCommitted == s.idleCommitted
            && (p.join.Fresh? || p.join.Refused? ==> x.peer.join.Fresh? || x.peer.join.Refused?)
  {
  }

  lemma LeaveDying(s: Core, c: Client, p: Peer, a: LeaveAction)
    requires s.room.stopping && LeaveEnabled(s, c, p, a)
    ensures var x := DoLeave(s, c, p, a);
            && x.core.room.stopping && x.core.room.clients == s.room.clients
            && (s.idleCommitted ==> x.core.idleCommitted) && x.peer.join == p.join
  {
  }

  lemma StepDying(s: State, a: Action)
    requires Control(s) && s.core.room.stopping && Enabled(s, a)
    ensures Dying(s, Do(s, a))
  {
    match a
    case Of(c, act) =>
      var p := s.peers[c];
      match act {
        case Loop(l) => LoopDying(s.core, c, p, l);
        case Joining(j) => JoinDying(s.core, c, p, j);
        case Leaving(v) => LeaveDying(s.core, c, p, v);
      }
    case Shared(_) =>
    case Evict =>
  }

  /** Once stopping is set, Clients never grows again and stopping stays set. */
  lemma {:induction false} StoppingNeverGrows(s: State, acts: seq<Action>)
    requires Inv(s) && s.core.room.stopping && Feasible(s, acts)
    ensures Dying(s, Run(s, acts))
    decreases |acts|
  {
    if acts == [] {
    } else {
      StepInv(s, acts[0]);
      StepDying(s, acts[0]);
      StoppingNeverGrows(Do(s, acts[0]), acts[1..]);
    }
  }

  /** After an idle re-check succeeded nobody is in the room or on the way into it, ever:
      whoever had not called RegisterClient by then can only be refused. So the shutdown
      that follows tears down no client the hub had accepted. */
  lemma {:induction false} IdleShutdownIsSafe(clients: set<Client>, before: seq<Action>, after: seq<Action>)
    requires Feasible(Init(clients), before)
    requires Run(Init(clients), before).core.idleCommitted
    requires Feasible(Run(Init(clients), before), after)
    ensures var s := Run(Init(clients), before);
            var t := Run(s, after);
            && t.core.room.clients == {} && t.core.room.pendingRegs == 0
            && (forall c <- t.peers :: !IsPending(t.peers[c].join))
            && (forall c <- s.peers :: s.peers[c].join.Fresh? ==>
                  c in t.peers && (t.peers[c].join.Fresh? || t.peers[c].join.Refused?))
  {
    InitInv(clients);
    RunInv(Init(clients), before);
    var s := Run(Init(clients), before);
    RunInv(s, after);
    StoppingNeverGrows(s, after);
    var t := Run(s, after);
    assert Pending(t.peers) == {};
    forall c <- t.peers ensures !IsPending(t.peers[c].join) {
      assert c !in Pending(t.peers);
    }
  }

  /** A client the hub accepted or turned away is closed as soon as the hub no longer counts
      it, and while the hub runs nobody else is. */
  lemma {:induction false} ClosedExactlyWhenDropped(clients: set<Client>, acts: seq<Action>, c: Client)
    requires Feasible(Init(clients), acts) && c in Run(Init(clients), acts).peers
    requires !Run(Init(clients), acts).core.quit
    ensures var s := Run(Init(clients), acts);
            s.peers[c].conn.done <==>
              s.peers[c].join.Rejected? || (s.peers[c].join.Admitted? && c !in s.core.room.clients)
  {
    InitInv(clients);
    RunInv(Init(clients), acts);
    var s := Run(Init(clients), acts);
    assert PeerClosed(s.core, c, s.peers[c]) && PeerControl(s.core, c, s.peers[c]);
  }

  lemma StreamReachesEnd(s: Core, c: Client, p: Peer)
    requires PeerStream(s, c, p) && c in s.room.clients && !s.loop.Fanning? && !s.loop.Evicting?
    ensures Casts(p.taken + p.conn.send) == s.log[p.since..]
  {
    assert Owed(s.loop, c) == 0 && s.log[p.since..p.upto] == s.log[p.since..];
  }

  /** No gap: what any client was ever queued, taken or buffered, evicted or not, carries an
      unbroken stretch of the broadcasts starting at its admission; for a member between
      broadcasts the stretch reaches the latest one. */
  lemma {:induction false} NoGap(clients: set<Client>, acts: seq<Action>, c: Client)
    requires Feasible(Init(clients), acts) && c in Run(Init(clients), acts).peers
    ensures var s := Run(Init(clients), acts);
            var p := s.peers[c];
            && p.since <= p.upto <= |s.core.log|
            && Casts(p.taken + p.conn.send) == s.core.log[p.since..p.upto]
            && (c in s.core.room.clients && !s.core.loop.Fanning? && !s.core.loop.Evicting? ==>
                  Casts(p.taken + p.conn.send) == s.core.log[p.since..])
  {
    InitInv(clients);
    RunInv(Init(clients), acts);
    var s := Run(Init(clients), acts);
    assert PeerStream(s.core, c, s.peers[c]);
    if c in s.core.room.clients && !s.core.loop.Fanning? && !s.core.loop.Evicting? {
      StreamReachesEnd(s.core, c, s.peers[c]);
    }
  }

  lemma SliceOrder(ms: seq<Msg>, sizes: seq<nat>, last: nat, wiped: set<nat>, i: nat, j: nat)
    requires CountOrder(ms, sizes, last, wiped) && last <= |sizes| && i <= j <= |ms|
    ensures CountOrder(ms[i..j], sizes, |sizes|, wiped)
  {
  }

  lemma QueuedCounts(s: Core, c: Client, p: Peer)
    requires Counts(s) && PeerStream(s, c, p)
    ensures CountOrder(Casts(p.taken + p.conn.send), s.sizes, |s.sizes|, s.wiped)
  {
    var all := s.log + s.chan;
    assert s.log[p.since..p.upto] == all[p.since..p.upto];
    SliceOrder(all, s.sizes, Reported(s), s.wiped, p.since, p.upto);
  }

  /** The listener counts a client is queued come in the order of the presence mutations they
      report; each is the size right after its mutation, or 0 if presence was cleared in between. */
  lemma {:induction false} CountsNeverRunBackwards(clients: set<Client>, acts: seq<Action>, c: Client)
    requires Feasible(Init(clients), acts) && c in Run(Init(clients), acts).peers
    ensures var s := Run(Init(clients), acts);
            CountOrder(Casts(s.peers[c].taken + s.peers[c].conn.send), s.core.sizes, |s.core.sizes|, s.core.wiped)
    ensures var s := Run(Init(clients), acts);
            CountOrder(s.core.offers, s.core.sizes, |s.core.sizes|, s.core.wiped)
  {
    InitInv(clients);
    RunInv(Init(clients), acts);
    var s := Run(Init(clients), acts);
    QueuedCounts(s.core, c, s.peers[c]);
    MoreReported(s.core.offers, s.core.sizes, Reported(s.core), s.core.wiped);
  }

  /** Presence holds only sessions of connections that joined and have not left; when every
      joined connection has run its presence step, it is empty, however many shared a session. */
  lemma {:induction false} NoGhostListeners(clients: set<Client>, acts: seq<Action>)
    requires Feasible(Init(clients), acts)
    ensures var s := Run(Init(clients), acts);
            forall x <- s.core.presence :: exists c :: c in s.peers && c.session == x && Present(s.peers[c])
    ensures var s := Run(Init(clients), acts);
            (forall c <- s.peers :: s.peers[c].added ==> s.peers[c].removed) ==> s.core.presence == {}
  {
    InitInv(clients);
    RunInv(Init(clients), acts);
  }

  /** AddListener runs at most once per connection and before its RemoveListener. */
  lemma {:induction false} AddPrecedesRemove(clients: set<Client>, acts: seq<Action>, c: Client)
    requires Feasible(Init(clients), acts)
    requires c in Run(Init(clients), acts).peers && Run(Init(clients), acts).core.count == Locked(c, true)
    ensures var p := Run(Init(clients), acts).peers[c]; !p.added && !p.removed && !p.conn.registered
  {
    InitInv(clients);
    RunInv(Init(clients), acts);
    AddComesFirst(Run(Init(clients), acts), c);
    assert PeerBarrier(Run(Init(clients), acts).peers[c]);
    assert PeerControl(Run(Init(clients), acts).core, c, Run(Init(clients), acts).peers[c]);
    assert Holds(Run(Init(clients), acts).core.count, c, true);
  }

  lemma {:induction false} MicLeftStays(s: State, acts: seq<Action>, c: Client)
    requires Inv(s) && Feasible(s, acts) && c in s.peers && s.peers[c].micLeft
    ensures c in Run(s, acts).peers && Run(s, acts).peers[c].micLeft
    decreases |acts|
  {
    if acts == [] {
    } else {
      StepInv(s, acts[0]);
      MicLeftStep(s, acts[0], c);
      MicLeftStays(Do(s, acts[0]), acts[1..], c);
    }
  }

  lemma LoopMicLeft(s: Core, c: Client, p: Peer, a: LoopAction)
    requires LoopEnabled(s, c, p, a) && p.micLeft
    ensures DoLoop(s, c, p, a).peer.micLeft
  {
  }

  lemma JoinMicLeft(s: Core, c: Client, p: Peer, a: JoinAction)
    requires JoinEnabled(s, c, p, a) && p.micLeft
    ensures DoJoin(s, c, p, a).peer.micLeft
  {
  }

  lemma LeaveMicLeft(s: Core, c: Client, p: Peer, a: LeaveAction)
    requires LeaveEnabled(s, c, p, a) && p.micLeft
    ensures DoLeave(s, c, p, a).peer.micLeft
  {
  }

  lemma MicLeftStep(s: State, a: Action, c: Client)
    requires Enabled(s, a) && c in s.peers && s.peers[c].micLeft
    ensures c in Do(s, a).peers && Do(s, a).peers[c].micLeft
  {
    if a.Of? && a.c == c {
      match a.act
      case Loop(l) => LoopMicLeft(s.core, c, s.peers[c], l);
      case Joining(j) => JoinMicLeft(s.core, c, s.peers[c], j);
      case Leaving(v) => LeaveMicLeft(s.core, c, s.peers[c], v);
    } else if a.Of? {
      assert Do(s, a).peers[c] == s.peers[c];
    } else if a.Shared? {
    } else {
    }
  }

  /** The mic is on exactly when someone owns it; the owner is a DJ who has not run its leave
      step; no connection that ran it ever owns the mic again. */
  lemma {:induction false} MicHasALiveOwner(clients: set<Client>, before: seq<Action>, after: seq<Action>)
    requires Feasible(Init(clients), before) && Feasible(Run(Init(clients), before), after)
    ensures var s := Run(Init(clients), before);
            var t := Run(s, after);
            && (t.core.room.micActive <==> t.core.room.micOwner.Some?)
            && (t.core.room.micOwner.Some? ==>
                  var o := t.core.room.micOwner.value;
                  o.isDJ && o in t.peers && !t.peers[o].micLeft)
            && (forall c | c in s.peers && s.peers[c].micLeft :: t.core.room.micOwner != Some(c))
  {
    InitInv(clients);
    RunInv(Init(clients), before);
    var s := Run(Init(clients), before);
    RunInv(s, after);
    var t := Run(s, after);
    if t.core.room.micOwner.Some? {
      assert PeerMic(t.core, t.core.room.micOwner.value, t.peers[t.core.room.micOwner.value]);
    }
    forall c | c in s.peers && s.peers[c].micLeft ensures t.core.room.micOwner != Some(c) {
      MicLeftStays(s, after, c);
    }
  }

  lemma LoopQueue(s: Core, c: Client, p: Peer, a: LoopAction)
    requires LoopEnabled(s, c, p, a)
    ensures var t := DoLoop(s, c, p, a).core;
            t.log == s.log && t.chan == s.chan && !s.loop.Exited? && !t.loop.Exited?
  {
    if a.Receive? {
    } else if a.FanOne? {
    } else {
    }
  }

  lemma JoinQueue(s: Core, c: Client, p: Peer, a: JoinAction)
    requires JoinEnabled(s, c, p, a)
    ensures var t := DoJoin(s, c, p, a).core; t.log == s.log && t.chan == s.chan && t.loop == s.loop
  {
  }

  lemma LeaveQueue(s: Core, c: Client, p: Peer, a: LeaveAction)
    requires LeaveEnabled(s, c, p, a)
    ensures var t := DoLeave(s, c, p, a).core; t.log == s.log && t.chan == s.chan && t.loop == s.loop
  {
  }

  lemma OthersQueue(s: Core, c: Client, p: Peer, a: PeerAction)
    requires PeerEnabled(s, c, p, a) && !a.Loop?
    ensures var t := DoPeer(s, c, p, a).core; t.log == s.log && t.chan == s.chan && t.loop == s.loop
  {
    match a
    case Joining(j) => JoinQueue(s, c, p, j);
    case Leaving(v) => LeaveQueue(s, c, p, v);
  }

  lemma SharedQueue(s: Core, a: CoreAction)
    requires CoreEnabled(s, a) && LoopControl(s)
    ensures var t := DoCore(s, a);
            && s.log + s.chan <= t.log + t.chan
            && (s.loop.Exited? ==> t.loop.Exited? && t.log == s.log)
            && (t.loop.Exited? && !s.loop.Exited? ==> t.log == s.log + s.chan)
  {
    if a.TakeBroadcast? {
      assert (s.log + [s.chan[0]]) + s.chan[1..] == s.log + s.chan;
    } else if a.Offer? {
      assert s.log + s.chan <= s.log + DoCore(s, a).chan;
    }
  }

  /** Broadcasts leave the channel in the order they entered, and after the loop exits none do. */
  lemma StepQueue(s: State, a: Action)
    requires Enabled(s, a) && Control(s)
    ensures s.core.log + s.core.chan <= Do(s, a).core.log + Do(s, a).core.chan
    ensures s.core.loop.Exited? ==> Do(s, a).core.loop.Exited? && Do(s, a).core.log == s.core.log
    ensures Do(s, a).core.loop.Exited? && !s.core.loop.Exited? ==> Do(s, a).core.log == s.core.log + s.core.chan
  {
    match a
    case Of(c, act) =>
      if act.Loop? {
        LoopQueue(s.core, c, s.peers[c], act.l);
      } else {
        OthersQueue(s.core, c, s.peers[c], act);
      }
    case Shared(step) => SharedQueue(s.core, step);
    case Evict =>
  }

  lemma {:induction false} AfterExit(s: State, acts: seq<Action>)
    requires Inv(s) && Feasible(s, acts) && s.core.loop.Exited?
    ensures Run(s, acts).core.log == s.core.log
    decreases |acts|
  {
    if acts == [] {
    } else {
      StepInv(s, acts[0]);
      StepQueue(s, acts[0]);
      AfterExit(Do(s, acts[0]), acts[1..]);
    }
  }

  /** A broadcast that made it into the channel before Run exited, such as the final
      room_ended, is fanned out before Run exits, after everything queued ahead of it. */
  lemma {:induction false} QueuedIsFlushed(s: State, acts: seq<Action>)
    requires Inv(s) && Feasible(s, acts) && !s.core.loop.Exited? && Run(s, acts).core.loop.Exited?
    ensures s.core.log + s.core.chan <= Run(s, acts).core.log
    decreases |acts|
  {
    if acts == [] {
    } else {
      var t := Do(s, acts[0]);
      StepInv(s, acts[0]);
      StepQueue(s, acts[0]);
      if t.core.loop.Exited? {
        AfterExit(t, acts[1..]);
      } else {
        QueuedIsFlushed(t, acts[1..]);
      }
    }
  }
}
