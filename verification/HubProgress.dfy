/** Nothing blocks forever: from every reachable state each connection can be brought to its end,
    and no step on the way is a panic. */
module HubProgress {
  import opened Options
  import opened RoomState
  import opened HubProtocol
  import opened HubControl
  import opened HubBarrier
  import opened HubSafety

  /** Whoever the shared parts are busy with is one of the connections. */
  predicate Busy(s: State) {
    && (s.core.loop.GotRegister? || s.core.loop.Refusing? || s.core.loop.GotUnregister? ==> s.core.loop.c in s.peers)
    && (!s.core.count.Unlocked? ==> s.core.count.c in s.peers)
    && (InStop(s.core.once) ==> s.core.once.c in s.peers)
  }

  lemma StepBusy(s: State, a: Action)
    requires Busy(s) && Enabled(s, a)
    ensures Busy(Do(s, a)) && Do(s, a).peers.Keys == s.peers.Keys
  {
    match a
    case Of(c, Loop(l)) => LoopBusy(s, c, l);
    case Of(c, Joining(j)) => JoinBusy(s, c, j);
    case Of(c, Leaving(v)) => LeaveBusy(s, c, v);
    case Shared(step) => SharedBusy(s, step);
    case Evict =>
  }

  lemma SharedBusy(s: State, a: CoreAction)
    requires Busy(s) && Enabled(s, Shared(a))
    ensures Busy(Do(s, Shared(a)))
  {
  }

  lemma LoopBusy(s: State, c: Client, a: LoopAction)
    requires Busy(s) && Enabled(s, Of(c, Loop(a)))
    ensures Busy(Do(s, Of(c, Loop(a))))
  {
  }

  lemma JoinBusy(s: State, c: Client, a: JoinAction)
    requires Busy(s) && Enabled(s, Of(c, Joining(a)))
    ensures Busy(Do(s, Of(c, Joining(a))))
  {
  }

  lemma LeaveBusy(s: State, c: Client, a: LeaveAction)
    requires Busy(s) && Enabled(s, Of(c, PeerAction.Leaving(a)))
    ensures Busy(Do(s, Of(c, PeerAction.Leaving(a))))
  {
  }

  lemma {:induction false} RunBusy(s: State, acts: seq<Action>)
    requires Busy(s) && Feasible(s, acts)
    ensures Busy(Run(s, acts)) && Run(s, acts).peers.Keys == s.peers.Keys
    decreases |acts|
  {
    if acts != [] {
      StepBusy(s, acts[0]);
      RunBusy(Do(s, acts[0]), acts[1..]);
    }
  }

  /** How far RegisterClient and Run's Register arm are from done with the connection. */
  function JoinLeft(pc: JoinPc): nat {
    match pc
    case Fresh => 9
    case Offering => 8
    case HandedOver => 6
    case BackingOff => 1
    case Rejecting => 1
    case _ => 0
  }

  function EnterLeft(pc: EnterPc, holds: bool): nat {
    match pc
    case Entering => if holds then 3 else 4
    case Announcing => 2
    case Releasing => 1
    case _ => 0
  }

  function LeaveLeft(pc: LeavePc, holds: bool, stops: bool): nat {
    match pc
    case Connected => 13
    case Leaving => 12
    case HandedBack => 11
    case Waiting => 10
    case Removing => if holds then 8 else 9
    case Parting => 7
    case Deciding => 6
    case Counting => 5
    case Querying => 4
    case Checking => 3
    case Ending => 3
    case Stopping => if stops then 1 else 2
    case _ => 0
  }

  /** Steps the connection's own goroutines still have to make. */
  function PeerLeft(s: Core, c: Client, p: Peer): nat {
    if p.join.Refused? then 0
    else JoinLeft(p.join) + EnterLeft(p.enter, Holds(s.count, c, true))
         + LeaveLeft(p.leave, Holds(s.count, c, false), InStop(s.once) && s.once.c == c)
  }

  /** Refused, or gone with its join and leave goroutines finished. */
  predicate Finished(p: Peer) {
    || p.join.Refused?
    || ((p.join.Admitted? || p.join.Rejected?) && (p.enter.NotSpawned? || p.enter.Entered?) && (p.leave.Gone? || p.leave.Left?))
  }

  lemma NothingLeft(s: Core, c: Client, p: Peer)
    ensures PeerLeft(s, c, p) == 0 <==> Finished(p)
  {
  }

  /** Steps until Run selects again, countMu is free and stopOnce is not being run. */
  function LoopLeft(l: LoopPc): nat {
    match l
    case GotRegister(_) => 2
    case Refusing(_) => 1
    case GotUnregister(_) => 1
    case Fanning(_, todo, _) => 2 + |todo|
    case Evicting(_) => 1
    case _ => 0
  }

  function CountLeft(k: CountPc): nat {
    match k
    case Locked(_, _) => 4
    case Mutated(_, _) => 3
    case Sized(_, _, _) => 2
    case Offered(_, _) => 1
    case Unlocked => 0
  }

  function OnceLeft(o: OncePc): nat {
    match o
    case Marking(_) => 3
    case ClosingQuit(_) => 2
    case Notifying(_) => 1
    case _ => 0
  }

  function SharedLeft(s: Core): nat {
    LoopLeft(s.loop) + CountLeft(s.count) + OnceLeft(s.once)
  }

  predicate Panics(a: Action) {
    a.Of? && ((a.act.Joining? && a.act.j.PanicEnter?) || (a.act.Leaving? && a.act.v.PanicLeave?))
  }

  /** The action is possible, is no panic, and leaves less to do for c, or as much for c and less
      for the shared parts. */
  predicate Advances(s: State, a: Action, c: Client)
    requires c in s.peers
  {
    && Enabled(s, a) && !Panics(a)
    && var t := Do(s, a);
    c in t.peers &&
    var before, after := PeerLeft(s.core, c, s.peers[c]), PeerLeft(t.core, c, t.peers[c]);
    after < before || (after == before && SharedLeft(t.core) < SharedLeft(s.core))
  }

  /** A step of d takes or drops countMu and stopOnce only for d. */
  predicate OnlyFor(s: Core, t: Core, d: Client) {
    && (t.count == s.count || ((s.count.Unlocked? || s.count.c == d) && (t.count.Unlocked? || t.count.c == d)))
    && (t.once == s.once || ((InStop(s.once) ==> s.once.c == d) && (InStop(t.once) ==> t.once.c == d)))
  }

  /** The step is possible, gets the shared parts closer, and d no further away. */
  predicate Helps(s: Core, d: Client, p: Peer, a: PeerAction) {
    && PeerEnabled(s, d, p, a) && !Panics(Of(d, a))
    && var x := DoPeer(s, d, p, a);
    PeerLeft(x.core, d, x.peer) <= PeerLeft(s, d, p) && SharedLeft(x.core) < SharedLeft(s) && OnlyFor(s, x.core, d)
  }

  lemma HelpAdvances(s: State, d: Client, a: PeerAction, c: Client)
    requires c in s.peers && d in s.peers && Helps(s.core, d, s.peers[d], a)
    ensures Advances(s, Of(d, a), c)
  {
  }

  lemma ReceiveHelps(s: Core, d: Client, p: Peer)
    requires PeerControl(s, d, p) && LoopEnabled(s, d, p, Receive)
    ensures Helps(s, d, p, Loop(Receive))
  {
    if s.room.stopping {
    } else {
    }
  }

  lemma SendHelps(s: Core, d: Client, p: Peer)
    requires LoopEnabled(s, d, p, FanOne(false))
    ensures Helps(s, d, p, Loop(FanOne(false)))
  {
    if Accepts(p.conn) {
    } else {
    }
  }

  lemma TurnAwayHelps(s: Core, d: Client, p: Peer)
    requires PeerControl(s, d, p) && LoopEnabled(s, d, p, TurnAway)
    ensures Helps(s, d, p, Loop(TurnAway))
  {
  }

  lemma DropHelps(s: Core, d: Client, p: Peer)
    requires PeerControl(s, d, p) && LoopEnabled(s, d, p, Drop)
    ensures Helps(s, d, p, Loop(Drop))
  {
  }

  lemma MutateHelps(s: Core, d: Client, p: Peer)
    requires JoinEnabled(s, d, p, Mutate)
    ensures Helps(s, d, p, Joining(Mutate))
  {
  }

  lemma UnlockHelps(s: Core, d: Client, p: Peer)
    requires PeerControl(s, d, p) && JoinEnabled(s, d, p, Unlock)
    ensures Helps(s, d, p, Joining(Unlock))
  {
    assert Holds(s.count, d, s.count.adding);
  }

  lemma NotifyHelps(s: Core, d: Client, p: Peer)
    requires PeerControl(s, d, p) && LeaveEnabled(s, d, p, Notify)
    ensures Helps(s, d, p, PeerAction.Leaving(Notify))
  {
  }

  lemma SharedAdvances(s: State, a: CoreAction, c: Client)
    requires c in s.peers && CoreEnabled(s.core, a)
    requires a.FanDone? || a.ReadSize? || a.Offer? || a.MarkStop? || a.CloseQuit?
    ensures Advances(s, Shared(a), c)
  {
    if a.FanDone? {
    } else if a.ReadSize? || a.Offer? {
    } else {
    }
  }

  lemma EvictAdvances(s: State, c: Client)
    requires c in s.peers && s.core.loop.Evicting?
    ensures Advances(s, Evict, c)
  {
  }

  /** A step of Run on what it has already taken. */
  predicate LoopWork(a: Action) {
    a.Evict? || (a.Shared? && a.step.FanDone?)
    || (a.Of? && a.act.Loop? && !a.act.l.TakeRegister? && !a.act.l.TakeUnregister?)
  }

  lemma LoopMoves(s: State, c: Client) returns (a: Action)
    requires Inv(s) && Busy(s) && c in s.peers && LoopLeft(s.core.loop) > 0
    ensures Advances(s, a, c) && LoopWork(a)
  {
    var loop := s.core.loop;
    if loop.Fanning? && loop.todo == {} {
      SharedAdvances(s, FanDone, c);
      a := Shared(FanDone);
    } else if loop.Evicting? {
      EvictAdvances(s, c);
      a := Evict;
    } else {
      var d: Client;
      if loop.Fanning? {
        d :| d in loop.todo;
      } else {
        d := loop.c;
      }
      assert d in s.peers && PeerControl(s.core, d, s.peers[d]);
      var act := LoopHelper(s.core, d, s.peers[d]);
      HelpAdvances(s, d, Loop(act), c);
      a := Of(d, Loop(act));
    }
  }

  lemma LoopHelper(s: Core, d: Client, p: Peer) returns (a: LoopAction)
    requires PeerControl(s, d, p) && LoopLeft(s.loop) > 0 && !s.loop.Evicting?
    requires if s.loop.Fanning? then d in s.loop.todo else d == s.loop.c
    ensures Helps(s, d, p, Loop(a)) && !a.TakeRegister? && !a.TakeUnregister?
  {
    match s.loop
    case GotRegister(_) =>
      ReceiveHelps(s, d, p);
      a := Receive;
    case Refusing(_) =>
      TurnAwayHelps(s, d, p);
      a := TurnAway;
    case GotUnregister(_) =>
      DropHelps(s, d, p);
      a := Drop;
    case _ =>
      SendHelps(s, d, p);
      a := FanOne(false);
  }

  /** The holder of countMu moves on. */
  lemma CountMoves(s: State, c: Client) returns (a: Action)
    requires Inv(s) && Busy(s) && c in s.peers && !s.core.count.Unlocked?
    ensures Advances(s, a, c)
  {
    var d := s.core.count.c;
    assert PeerControl(s.core, d, s.peers[d]);
    match s.core.count
    case Locked(_, _) =>
      MutateHelps(s.core, d, s.peers[d]);
      HelpAdvances(s, d, Joining(Mutate), c);
      a := Of(d, Joining(Mutate));
    case Mutated(_, _) =>
      SharedAdvances(s, ReadSize, c);
      a := Shared(ReadSize);
    case Sized(_, _, _) =>
      var full := |s.core.chan| >= BROADCAST_BUFFER;
      SharedAdvances(s, Offer(full), c);
      a := Shared(Offer(full));
    case Offered(_, _) =>
      UnlockHelps(s.core, d, s.peers[d]);
      HelpAdvances(s, d, Joining(Unlock), c);
      a := Of(d, Joining(Unlock));
  }

  /** The goroutine inside stopOnce moves on. */
  lemma OnceMoves(s: State, c: Client) returns (a: Action)
    requires Inv(s) && Busy(s) && c in s.peers && InStop(s.core.once)
    ensures Advances(s, a, c)
  {
    var d := s.core.once.c;
    assert PeerControl(s.core, d, s.peers[d]);
    match s.core.once
    case Marking(_) =>
      SharedAdvances(s, MarkStop, c);
      a := Shared(MarkStop);
    case ClosingQuit(_) =>
      SharedAdvances(s, CloseQuit, c);
      a := Shared(CloseQuit);
    case Notifying(_) =>
      NotifyHelps(s.core, d, s.peers[d]);
      HelpAdvances(s, d, PeerAction.Leaving(Notify), c);
      a := Of(d, PeerAction.Leaving(Notify));
  }

  predicate Idling(s: Core) {
    LoopLeft(s.loop) == 0 && s.count.Unlocked? && !InStop(s.once)
  }

  /** With the shared parts idle, the connection's own next action is possible. */
  function JoinNext(s: Core, p: Peer): PeerAction {
    match p.join
    case Fresh => Joining(ClaimSlot)
    case Offering => if s.quit then Joining(BackOff) else Loop(TakeRegister)
    case _ => Joining(GiveUpSlot)
  }

  function EnterNext(p: Peer): PeerAction {
    match p.enter
    case Entering => Joining(Lock(true))
    case Announcing => Joining(Announced)
    case _ => Joining(ReleaseBarrier)
  }

  function LeaveNext(s: Core, p: Peer): PeerAction {
    match p.leave
    case Connected => PeerAction.Leaving(Leave)
    case Leaving => if s.quit then PeerAction.Leaving(LeaveDead) else Loop(TakeUnregister)
    case Waiting => PeerAction.Leaving(PassBarrier)
    case Removing => Joining(Lock(false))
    case Parting => PeerAction.Leaving(LeaveMic)
    case Deciding => PeerAction.Leaving(EverLive)
    case Counting => PeerAction.Leaving(SeeClients)
    case Querying => PeerAction.Leaving(SeeRoom(true))
    case Checking => PeerAction.Leaving(CheckIdle)
    case Ending => PeerAction.Leaving(EndRoom)
    case _ => if s.once.Fired? then PeerAction.Leaving(SkipStop) else PeerAction.Leaving(EnterStop)
  }

  /** The action is possible and brings the connection closer to its end. */
  predicate OwnAdvance(s: Core, c: Client, p: Peer, a: PeerAction) {
    && PeerEnabled(s, c, p, a) && !Panics(Of(c, a))
    && var x := DoPeer(s, c, p, a);
    PeerLeft(x.core, c, x.peer) < PeerLeft(s, c, p)
  }

  lemma JoinMoves(s: Core, c: Client, p: Peer)
    requires CoreControl(s) && PeerControl(s, c, p) && Idling(s) && !p.join.Refused? && JoinLeft(p.join) > 0
    ensures OwnAdvance(s, c, p, JoinNext(s, p))
  {
  }

  lemma EnterMoves(s: Core, c: Client, p: Peer)
    requires PeerControl(s, c, p) && Idling(s) && JoinLeft(p.join) == 0 && !p.join.Refused?
    requires EnterLeft(p.enter, false) > 0
    ensures OwnAdvance(s, c, p, EnterNext(p))
  {
  }

  lemma DepartureMoves(s: Core, c: Client, p: Peer)
    requires CoreControl(s) && PeerControl(s, c, p) && PeerBarrier(p) && Idling(s) && JoinLeft(p.join) == 0 && !p.join.Refused?
    requires EnterLeft(p.enter, false) == 0
    requires p.leave.Connected? || p.leave.Leaving? || p.leave.Waiting? || p.leave.Removing?
    ensures OwnAdvance(s, c, p, LeaveNext(s, p))
  {
    if p.leave.Connected? {
    } else if p.leave.Leaving? {
    } else if p.leave.Waiting? {
    } else {
    }
  }

  lemma AftermathMoves(s: Core, c: Client, p: Peer)
    requires Idling(s) && !p.join.Refused?
    requires p.leave.Parting? || p.leave.Deciding? || p.leave.Counting? || p.leave.Querying? || p.leave.Checking? || p.leave.Ending?
    ensures OwnAdvance(s, c, p, LeaveNext(s, p))
  {
    if p.leave.Parting? {
    } else if p.leave.Deciding? {
    } else if p.leave.Counting? {
    } else {
    }
  }

  lemma StoppingMoves(s: Core, c: Client, p: Peer)
    requires Idling(s) && !p.join.Refused? && p.leave.Stopping?
    ensures OwnAdvance(s, c, p, LeaveNext(s, p))
  {
    assert s.once.Unfired? || s.once.Fired?;
  }

  lemma LeaveMoves(s: Core, c: Client, p: Peer)
    requires CoreControl(s) && PeerControl(s, c, p) && PeerBarrier(p) && Idling(s) && JoinLeft(p.join) == 0 && !p.join.Refused?
    requires EnterLeft(p.enter, false) == 0 && LeaveLeft(p.leave, false, false) > 0
    ensures OwnAdvance(s, c, p, LeaveNext(s, p))
  {
    if p.leave.Connected? || p.leave.Leaving? || p.leave.Waiting? || p.leave.Removing? {
      DepartureMoves(s, c, p);
    } else if p.leave.Stopping? {
      StoppingMoves(s, c, p);
    } else {
      AftermathMoves(s, c, p);
    }
  }

  /** From every reachable state an unfinished connection has something to wait for that is
      possible now and no panic, or something of its own to do. */
  lemma SomethingMoves(s: State, c: Client) returns (a: Action)
    requires Inv(s) && Busy(s) && c in s.peers && !Finished(s.peers[c])
    ensures Advances(s, a, c)
  {
    var p := s.peers[c];
    if LoopLeft(s.core.loop) > 0 {
      a := LoopMoves(s, c);
    } else if !s.core.count.Unlocked? {
      a := CountMoves(s, c);
    } else if InStop(s.core.once) {
      a := OnceMoves(s, c);
    } else {
      assert PeerControl(s.core, c, p) && PeerBarrier(p);
      NothingLeft(s.core, c, p);
      if JoinLeft(p.join) > 0 {
        JoinMoves(s.core, c, p);
        a := Of(c, JoinNext(s.core, p));
      } else if EnterLeft(p.enter, false) > 0 {
        EnterMoves(s.core, c, p);
        a := Of(c, EnterNext(p));
      } else {
        LeaveMoves(s.core, c, p);
        a := Of(c, LeaveNext(s.core, p));
      }
    }
  }

  lemma {:induction false} CanFinish(s: State, c: Client) returns (acts: seq<Action>)
    requires Inv(s) && Busy(s) && c in s.peers
    ensures Feasible(s, acts) && (forall a <- acts :: !Panics(a))
    ensures c in Run(s, acts).peers && Finished(Run(s, acts).peers[c])
    decreases PeerLeft(s.core, c, s.peers[c]), SharedLeft(s.core)
  {
    if Finished(s.peers[c]) {
      acts := [];
    } else {
      var a := SomethingMoves(s, c);
      StepInv(s, a);
      StepBusy(s, a);
      var rest := CanFinish(Do(s, a), c);
      acts := [a] + rest;
      assert acts[1..] == rest;
    }
  }

  /** No reachable state of a hub, alive, stopping or dead, traps a connection: it can still be
      refused or leave, with its barrier passed and every lock it needs obtained. */
  lemma NobodyIsStuck(clients: set<Client>, before: seq<Action>, c: Client) returns (after: seq<Action>)
    requires Feasible(Init(clients), before) && c in clients
    ensures var s := Run(Init(clients), before);
            && Feasible(s, after) && (forall a <- after :: !Panics(a))
            && c in Run(s, after).peers && Finished(Run(s, after).peers[c])
  {
    InitInv(clients);
    RunInv(Init(clients), before);
    RunBusy(Init(clients), before);
    after := CanFinish(Run(Init(clients), before), c);
  }
}
