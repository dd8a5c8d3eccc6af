/** What the hub is for: whoever comes to a hub that is not stopping can join, a live room keeps
    its hub, and the mic stays with its owner. */
module HubService {
  import opened Options
  import opened RoomState
  import opened HubProtocol
  import opened HubControl
  import opened HubEffects
  import opened HubSafety
  import opened HubProgress

  /** The room is never seen offline, and no DJ leaves it as never live. */
  predicate RoomIsLive(a: Action) {
    a.Of? && a.act.Leaving? ==> !(a.act.v.SeeRoom? && a.act.v.offline) && !(a.act.v.NeverLive? && a.c.isDJ)
  }

  predicate Keeps(p: Peer) {
    && !p.leave.Ending? && !p.leave.Checking? && !p.leave.Stopping?
    && !p.join.Refused? && !p.join.BackingOff? && !p.join.Rejecting? && !p.join.Rejected?
  }

  predicate Serving(s: State) {
    Open(s.core) && forall c <- s.peers :: Keeps(s.peers[c])
  }

  predicate Open(s: Core) {
    !s.room.stopping && !s.quit && s.once.Unfired? && !s.loop.Refusing? && s.shutdowns == 0
  }

  lemma LoopServing(s: Core, c: Client, p: Peer, a: LoopAction)
    requires LoopEnabled(s, c, p, a) && Keeps(p) && Open(s)
    ensures Keeps(DoLoop(s, c, p, a).peer) && Open(DoLoop(s, c, p, a).core)
  {
    if a.Receive? {
    } else if a.FanOne? {
    } else {
    }
  }

  lemma JoinServing(s: Core, c: Client, p: Peer, a: JoinAction)
    requires JoinEnabled(s, c, p, a) && Keeps(p) && Open(s)
    ensures Keeps(DoJoin(s, c, p, a).peer) && Open(DoJoin(s, c, p, a).core)
  {
  }

  lemma LeaveServing(s: Core, c: Client, p: Peer, a: LeaveAction)
    requires LeaveEnabled(s, c, p, a) && RoomIsLive(Of(c, PeerAction.Leaving(a))) && Keeps(p) && Open(s)
    ensures Keeps(DoLeave(s, c, p, a).peer) && Open(DoLeave(s, c, p, a).core)
  {
  }

  lemma StepServing(s: State, a: Action)
    requires Serving(s) && Enabled(s, a) && RoomIsLive(a)
    ensures Serving(Do(s, a))
  {
    match a
    case Of(c, act) =>
      match act {
        case Loop(l) => LoopServing(s.core, c, s.peers[c], l);
        case Joining(j) => JoinServing(s.core, c, s.peers[c], j);
        case Leaving(v) => LeaveServing(s.core, c, s.peers[c], v);
      }
      forall d <- Do(s, a).peers ensures Keeps(Do(s, a).peers[d]) {
        assert d != c ==> Do(s, a).peers[d] == s.peers[d];
      }
    case Shared(_) =>
    case Evict =>
  }

  lemma {:induction false} RunServing(s: State, acts: seq<Action>)
    requires Serving(s) && Feasible(s, acts) && forall a <- acts :: RoomIsLive(a)
    ensures Serving(Run(s, acts))
    decreases |acts|
  {
    if acts != [] {
      StepServing(s, acts[0]);
      RunServing(Do(s, acts[0]), acts[1..]);
    }
  }

  /** A room that is never seen offline, and that no DJ leaves as never live, keeps its hub and
      turns nobody away, whoever comes, goes, is evicted or panics. */
  lemma {:induction false} LiveRoomKeepsItsHub(clients: set<Client>, acts: seq<Action>)
    requires Feasible(Init(clients), acts) && forall a <- acts :: RoomIsLive(a)
    ensures var s := Run(Init(clients), acts);
            && !s.core.room.stopping && !s.core.quit && s.core.shutdowns == 0
            && forall c <- s.peers :: !s.peers[c].join.Refused? && !s.peers[c].join.Rejected?
  {
    RunServing(Init(clients), acts);
    forall c <- Run(Init(clients), acts).peers ensures Keeps(Run(Init(clients), acts).peers[c]) {
    }
  }

  /** The step is neither a mic action nor the owner's leaving. */
  predicate SparesMic(a: Action, o: Client) {
    a.Of? ==> !(a.act.Joining? && a.act.j.MicAction?) && !(a.act.Leaving? && a.act.v.LeaveMic? && a.c == o)
  }

  predicate HoldsMic(s: State, o: Client, pauseMusic: bool) {
    s.core.room.micActive && s.core.room.micPauseMusic == pauseMusic && s.core.room.micOwner == Some(o)
  }

  lemma MicStep(s: State, a: Action, o: Client, pauseMusic: bool)
    requires Enabled(s, a) && SparesMic(a, o) && HoldsMic(s, o, pauseMusic)
    ensures HoldsMic(Do(s, a), o, pauseMusic)
  {
    match a
    case Of(c, Loop(l)) => LoopEffects(s.core, c, s.peers[c], l);
    case Of(c, Joining(j)) => JoinEffects(s.core, c, s.peers[c], j);
    case Of(c, Leaving(v)) => LeaveEffects(s.core, c, s.peers[c], v);
    case Shared(step) => SharedEffects(s.core, step);
    case Evict =>
  }

  /** The mic stays on and with its owner until somebody uses the mic action or the owner itself
      leaves: no other tab, listener or eviction takes it away. */
  lemma {:induction false} MicStaysWithItsOwner(s: State, acts: seq<Action>, o: Client, pauseMusic: bool)
    requires Feasible(s, acts) && HoldsMic(s, o, pauseMusic) && forall a <- acts :: SparesMic(a, o)
    ensures HoldsMic(Run(s, acts), o, pauseMusic)
    decreases |acts|
  {
    if acts != [] {
      MicStep(s, acts[0], o, pauseMusic);
      MicStaysWithItsOwner(Do(s, acts[0]), acts[1..], o, pauseMusic);
    }
  }

  lemma LoopWorkKeeps(s: State, a: Action, c: Client)
    requires Inv(s) && Enabled(s, a) && LoopWork(a) && c in s.peers && s.peers[c].join.Fresh?
    ensures var t := Do(s, a); t.core.room.stopping == s.core.room.stopping && c in t.peers && t.peers[c].join.Fresh?
  {
    assert PeerControl(s.core, c, s.peers[c]);
    if a.Of? {
      LoopEffects(s.core, a.c, s.peers[a.c], a.act.l);
      assert s.core.loop.Fanning? ==> c !in s.core.loop.todo;
    }
  }

  /** Run gets back to selecting, whatever it was busy with. */
  lemma {:induction false} LoopComesBack(s: State, c: Client) returns (acts: seq<Action>)
    requires Inv(s) && Busy(s) && !s.core.room.stopping && c in s.peers && s.peers[c].join.Fresh?
    ensures Feasible(s, acts) && forall a <- acts :: !Panics(a)
    ensures var t := Run(s, acts);
            Inv(t) && t.core.loop.Selecting? && !t.core.room.stopping && c in t.peers && t.peers[c].join.Fresh?
    decreases PeerLeft(s.core, c, s.peers[c]), SharedLeft(s.core)
  {
    if LoopLeft(s.core.loop) == 0 {
      acts := [];
    } else {
      var a := LoopMoves(s, c);
      StepInv(s, a);
      StepBusy(s, a);
      LoopWorkKeeps(s, a, c);
      var rest := LoopComesBack(Do(s, a), c);
      acts := [a] + rest;
      assert acts[1..] == rest;
    }
  }

  lemma {:induction false} OneMore(s: State, acts: seq<Action>, a: Action)
    requires Feasible(s, acts) && Enabled(Run(s, acts), a)
    ensures Feasible(s, acts + [a]) && Run(s, acts + [a]) == Do(Run(s, acts), a)
    decreases |acts|
  {
    if acts == [] {
      assert Feasible(Do(s, a), (acts + [a])[1..]);
    } else {
      OneMore(Do(s, acts[0]), acts[1..], a);
      assert (acts + [a])[1..] == acts[1..] + [a];
    }
  }

  /** From every reachable state of a hub that is not stopping, a connection that has not yet
      called RegisterClient can call it and become a member. */
  lemma NewcomerCanJoin(clients: set<Client>, before: seq<Action>, c: Client) returns (after: seq<Action>)
    requires Feasible(Init(clients), before) && !Run(Init(clients), before).core.room.stopping
    requires c in Run(Init(clients), before).peers && Run(Init(clients), before).peers[c].join.Fresh?
    ensures var s := Run(Init(clients), before);
            && Feasible(s, after) && (forall a <- after :: !Panics(a))
            && c in Run(s, after).core.room.clients
  {
    InitInv(clients);
    RunInv(Init(clients), before);
    RunBusy(Init(clients), before);
    after := CanJoin(Run(Init(clients), before), c);
  }

  function Joins(c: Client): seq<Action> {
    [Of(c, Joining(ClaimSlot)), Of(c, Loop(TakeRegister)), Of(c, Loop(Receive))]
  }

  lemma CanJoin(s: State, c: Client) returns (after: seq<Action>)
    requires Inv(s) && Busy(s) && !s.core.room.stopping && c in s.peers && s.peers[c].join.Fresh?
    ensures Feasible(s, after) && (forall a <- after :: !Panics(a)) && c in Run(s, after).core.room.clients
  {
    var first := LoopComesBack(s, c);
    JoinsAfter(s, first, c);
    after := first + Joins(c);
    forall a <- after ensures !Panics(a) {
      assert a in first || a in Joins(c);
    }
  }

  lemma {:induction false} JoinsAfter(s: State, first: seq<Action>, c: Client)
    requires Feasible(s, first)
    requires var t := Run(s, first);
             Inv(t) && t.core.loop.Selecting? && !t.core.room.stopping && c in t.peers && t.peers[c].join.Fresh?
    ensures Feasible(s, first + Joins(c)) && c in Run(s, first + Joins(c)).core.room.clients
  {
    var u, v := JoinsNow(Run(s, first), c);
    ThreeMore(s, first, Of(c, Joining(ClaimSlot)), Of(c, Loop(TakeRegister)), Of(c, Loop(Receive)));
  }

  lemma {:induction false} ThreeMore(s: State, acts: seq<Action>, a: Action, b: Action, d: Action)
    requires Feasible(s, acts) && Enabled(Run(s, acts), a)
    requires Enabled(Do(Run(s, acts), a), b) && Enabled(Do(Do(Run(s, acts), a), b), d)
    ensures Feasible(s, acts + [a, b, d]) && Run(s, acts + [a, b, d]) == Do(Do(Do(Run(s, acts), a), b), d)
  {
    OneMore(s, acts, a);
    OneMore(s, acts + [a], b);
    OneMore(s, acts + [a] + [b], d);
    assert acts + [a] + [b] + [d] == acts + [a, b, d];
  }

  /** While Run selects and the hub is not stopping, claiming a slot, being taken and being received
      are possible one after the other and make c a member. */
  lemma JoinsNow(t: State, c: Client) returns (u: State, v: State)
    requires Inv(t) && t.core.loop.Selecting? && !t.core.room.stopping && c in t.peers && t.peers[c].join.Fresh?
    ensures Enabled(t, Of(c, Joining(ClaimSlot))) && u == Do(t, Of(c, Joining(ClaimSlot)))
    ensures Enabled(u, Of(c, Loop(TakeRegister))) && v == Do(u, Of(c, Loop(TakeRegister)))
    ensures Enabled(v, Of(c, Loop(Receive))) && c in Do(v, Of(c, Loop(Receive))).core.room.clients
  {
    u := Do(t, Of(c, Joining(ClaimSlot)));
    assert u.peers[c].join.Offering? && u.core.loop.Selecting? && !u.core.draining;
    v := Do(u, Of(c, Loop(TakeRegister)));
    assert v.core.loop == GotRegister(c) && !v.core.room.stopping;
    LoopEffects(v.core, c, v.peers[c], Receive);
  }

  lemma LoopWorkSpares(s: State, a: Action)
    requires Enabled(s, a) && LoopWork(a)
    ensures var t := Do(s, a); t.core.chan == s.core.chan && t.core.quit == s.core.quit && t.core.draining == s.core.draining
  {
    if a.Of? {
      LoopSpares(s.core, a.c, s.peers[a.c], a.act.l);
    }
  }

  lemma LoopSpares(s: Core, c: Client, p: Peer, a: LoopAction)
    requires LoopEnabled(s, c, p, a)
    ensures var t := DoLoop(s, c, p, a).core; t.chan == s.chan && t.quit == s.quit && t.draining == s.draining
  {
    if a.Receive? {
    } else if a.FanOne? {
    } else {
    }
  }

  /** What a Run that selects does once quit is closed. */
  function QuitStep(s: Core): CoreAction {
    if !s.draining then TakeQuit else if s.chan != [] then TakeBroadcast else Exit
  }

  lemma QuitStepWorks(s: State)
    requires s.core.loop.Selecting? && s.core.quit
    ensures Enabled(s, Shared(QuitStep(s.core)))
    ensures var t := Do(s, Shared(QuitStep(s.core)));
            && t.core.quit && t.peers == s.peers
            && if !s.core.draining then t.core.draining && t.core.chan == s.core.chan && t.core.loop.Selecting?
               else t.core.draining && if s.core.chan != [] then |t.core.chan| < |s.core.chan| else t.core.loop.Exited?
  {
  }

  /** Less queued; or as much, and the exit noticed at last; or less left for c or the shared parts. */
  predicate Nearer(s: State, t: State, c: Client)
    requires c in s.peers
  {
    && c in t.peers &&
    var before, after := PeerLeft(s.core, c, s.peers[c]), PeerLeft(t.core, c, t.peers[c]);
    || |t.core.chan| < |s.core.chan|
    || (|t.core.chan| == |s.core.chan| && !s.core.draining && t.core.draining)
    || (|t.core.chan| == |s.core.chan| && t.core.draining == s.core.draining
        && (after < before || (after == before && SharedLeft(t.core) < SharedLeft(s.core))))
  }

  lemma QuitMoves(s: State, c: Client) returns (a: Action)
    requires Inv(s) && Busy(s) && s.core.quit && c in s.peers && !s.core.loop.Exited?
    ensures Enabled(s, a) && !Panics(a) && Do(s, a).core.quit && c in Do(s, a).peers
    ensures Do(s, a).core.loop.Exited? || Nearer(s, Do(s, a), c)
  {
    if LoopLeft(s.core.loop) > 0 {
      a := LoopMoves(s, c);
      LoopWorkSpares(s, a);
    } else {
      a := Shared(QuitStep(s.core));
      QuitStepWorks(s);
    }
  }

  lemma {:induction false} Exited(s: State, a: Action)
    requires Enabled(s, a)
    ensures Feasible(s, [a]) && Run(s, [a]) == Do(s, a)
  {
    OneMore(s, [], a);
    assert [] + [a] == [a];
  }

  lemma {:induction false} QuitRunExits(s: State, c: Client) returns (acts: seq<Action>)
    requires Inv(s) && Busy(s) && s.core.quit && c in s.peers
    ensures Feasible(s, acts) && (forall a <- acts :: !Panics(a)) && Run(s, acts).core.loop.Exited?
    decreases |s.core.chan|, !s.core.draining, PeerLeft(s.core, c, s.peers[c]), SharedLeft(s.core)
  {
    if s.core.loop.Exited? {
      acts := [];
    } else {
      var a := QuitMoves(s, c);
      if Do(s, a).core.loop.Exited? {
        Exited(s, a);
        acts := [a];
      } else {
        StepInv(s, a);
        StepBusy(s, a);
        var rest := QuitRunExits(Do(s, a), c);
        acts := [a] + rest;
        assert acts[1..] == rest;
      }
    }
  }

  /** From every reachable state of a dead hub its Run can flush what is queued, in order, and exit. */
  lemma DeadHubFlushesAndExits(clients: set<Client>, before: seq<Action>, c: Client) returns (after: seq<Action>)
    requires Feasible(Init(clients), before) && Run(Init(clients), before).core.quit && c in clients
    ensures var s := Run(Init(clients), before);
            && Feasible(s, after) && (forall a <- after :: !Panics(a))
            && Run(s, after).core.loop.Exited?
            && (!s.core.loop.Exited? ==> s.core.log + s.core.chan <= Run(s, after).core.log)
  {
    InitInv(clients);
    RunInv(Init(clients), before);
    RunBusy(Init(clients), before);
    var s := Run(Init(clients), before);
    after := QuitRunExits(s, c);
    if !s.core.loop.Exited? {
      QueuedIsFlushed(s, after);
    }
  }

  /** How the last one out shuts an offline room's hub. */
  function LastOut(c: Client): seq<Action> {
    [Of(c, PeerAction.Leaving(LeaveMic)), Of(c, PeerAction.Leaving(EverLive)), Of(c, PeerAction.Leaving(SeeClients)),
     Of(c, PeerAction.Leaving(SeeRoom(true))), Of(c, PeerAction.Leaving(CheckIdle))]
  }

  lemma LeaveChain(s: State, c: Client, a: LeaveAction, next: LeavePc) returns (t: State)
    requires c in s.peers && LeaveEnabled(s.core, c, s.peers[c], a)
    requires DoLeave(s.core, c, s.peers[c], a).peer.leave == next
    ensures Enabled(s, Of(c, PeerAction.Leaving(a))) && t == Do(s, Of(c, PeerAction.Leaving(a)))
    ensures c in t.peers && t.peers[c].leave == next && t.core == DoLeave(s.core, c, s.peers[c], a).core
  {
    t := Do(s, Of(c, PeerAction.Leaving(a)));
  }

  /** Nobody is in the room or on the way in, the room was live once and is seen offline: the
      connection that gets to its mic section last then commits the hub to stopping. */
  lemma {:induction false} LastOutStopsTheHub(s: State, c: Client)
    requires c in s.peers && s.peers[c].leave.Parting? && s.core.room.clients == {} && s.core.room.pendingRegs == 0
    ensures Feasible(s, LastOut(c))
    ensures var t := Run(s, LastOut(c)); t.core.room.stopping && c in t.peers && t.peers[c].leave.Stopping?
  {
    var t1, t2 := GivesUpMic(s, c);
    var t3, t4, t5 := FindsNobody(t2, c);
    FiveSteps(s, LastOut(c), t1, t2, t3, t4, t5);
  }

  lemma GivesUpMic(s: State, c: Client) returns (t1: State, t2: State)
    requires c in s.peers && s.peers[c].leave.Parting? && s.core.room.clients == {} && s.core.room.pendingRegs == 0
    ensures Enabled(s, Of(c, PeerAction.Leaving(LeaveMic))) && t1 == Do(s, Of(c, PeerAction.Leaving(LeaveMic)))
    ensures Enabled(t1, Of(c, PeerAction.Leaving(EverLive))) && t2 == Do(t1, Of(c, PeerAction.Leaving(EverLive)))
    ensures c in t2.peers && t2.peers[c].leave.Counting? && t2.core.room.clients == {} && t2.core.room.pendingRegs == 0
  {
    t1 := LeaveChain(s, c, LeaveMic, Deciding);
    LeaveEffects(s.core, c, s.peers[c], LeaveMic);
    t2 := LeaveChain(t1, c, EverLive, Counting);
  }

  lemma FindsNobody(t2: State, c: Client) returns (t3: State, t4: State, t5: State)
    requires c in t2.peers && t2.peers[c].leave.Counting? && t2.core.room.clients == {} && t2.core.room.pendingRegs == 0
    ensures Enabled(t2, Of(c, PeerAction.Leaving(SeeClients))) && t3 == Do(t2, Of(c, PeerAction.Leaving(SeeClients)))
    ensures Enabled(t3, Of(c, PeerAction.Leaving(SeeRoom(true)))) && t4 == Do(t3, Of(c, PeerAction.Leaving(SeeRoom(true))))
    ensures Enabled(t4, Of(c, PeerAction.Leaving(CheckIdle))) && t5 == Do(t4, Of(c, PeerAction.Leaving(CheckIdle)))
    ensures t5.core.room.stopping && c in t5.peers && t5.peers[c].leave.Stopping?
  {
    t3 := LeaveChain(t2, c, SeeClients, Querying);
    t4 := LeaveChain(t3, c, SeeRoom(true), Checking);
    t5 := LeaveChain(t4, c, CheckIdle, Stopping);
  }

  lemma {:induction false} FiveSteps(s: State, acts: seq<Action>, t1: State, t2: State, t3: State, t4: State, t5: State)
    requires |acts| == 5
    requires Enabled(s, acts[0]) && t1 == Do(s, acts[0])
    requires Enabled(t1, acts[1]) && t2 == Do(t1, acts[1])
    requires Enabled(t2, acts[2]) && t3 == Do(t2, acts[2])
    requires Enabled(t3, acts[3]) && t4 == Do(t3, acts[3])
    requires Enabled(t4, acts[4]) && t5 == Do(t4, acts[4])
    ensures Feasible(s, acts) && Run(s, acts) == t5
  {
    assert acts[1..][1..] == acts[2..] && acts[2..][1..] == acts[3..] && acts[3..][1..] == acts[4..] && acts[4..][1..] == [];
    Step(t4, t5, acts[4..]);
    Step(t3, t4, acts[3..]);
    Step(t2, t3, acts[2..]);
    Step(t1, t2, acts[1..]);
    Step(s, t1, acts);
  }

  lemma {:induction false} Step(s: State, t: State, acts: seq<Action>)
    requires acts != [] && Enabled(s, acts[0]) && t == Do(s, acts[0]) && Feasible(t, acts[1..])
    ensures Feasible(s, acts) && Run(s, acts) == Run(t, acts[1..])
  {
  }
}
