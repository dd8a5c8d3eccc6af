/** One room's hub as a state machine: the Run loop, and for every connection the
    RegisterClient call, the onRegister goroutine, the ReadPump's unregister call and the
    onUnregister goroutine. An action is one critical section or one channel operation of
    one goroutine; any enabled action may come next. */
module HubProtocol {
  import opened Options
  import opened RoomState

  /** A connection with the attributes that never change. */
  datatype Client = Client(conn: nat, session: nat, isDJ: bool)

  /** Where the connection stands in RegisterClient and the Register arm of Run. */
  datatype JoinPc =
    | Fresh        // before the locked check
    | Refused      // RegisterClient returned false
    | Offering     // slot claimed, in the select
    | BackingOff   // the quit arm fired, slot not yet given back
    | HandedOver   // RegisterClient returned true, Run holds the client
    | Admitted     // Run added it to Clients
    | Rejecting    // Run gave the slot back and will turn it away
    | Rejected     // barrier and done closed by Run

  /** onRegister. */
  datatype EnterPc = NotSpawned | Entering | Announcing | Releasing | Entered

  /** ReadPump's unregister, then onUnregister. */
  datatype LeavePc =
    | Connected | Leaving
    | Gone         // the quit arm fired
    | HandedBack   // Run holds the client
    | Waiting      // <-client.registered
    | Removing     // presence step
    | Parting      // leave broadcast, then the mic section
    | Deciding     // was the room ever live?
    | Ending       // it was not: delete it
    | Counting     // any client left?
    | Querying     // is the room live?
    | Checking     // the locked idle re-check
    | Stopping     // in stop
    | Left

  /** Run. While fanning, `todo` still has to be sent to and `stale` refused the frame. */
  datatype LoopPc =
    | Selecting
    | GotRegister(c: Client)
    | Refusing(c: Client)
    | GotUnregister(c: Client)
    | Fanning(msg: Msg, todo: set<Client>, stale: set<Client>)
    | Evicting(stale: set<Client>)
    | Exited

  /** The holder of countMu and how far it is. */
  datatype CountPc =
    | Unlocked
    | Locked(c: Client, adding: bool)
    | Mutated(c: Client, adding: bool)
    | Sized(c: Client, adding: bool, size: nat)
    | Offered(c: Client, adding: bool)

  /** stopOnce. */
  datatype OncePc = Unfired | Marking(c: Client) | ClosingQuit(c: Client) | Notifying(c: Client) | Fired

  /** One connection. From `closes` on, history: how often `registered` was closed, whether
      the presence steps and the mic section ran, which stretch of the broadcast log was
      queued to it, and what its WritePump has taken. */
  datatype Peer = Peer(join: JoinPc, enter: EnterPc, leave: LeavePc, conn: Conn,
                       closes: nat, added: bool, removed: bool, micLeft: bool,
                       since: nat, upto: nat, taken: seq<Frame>)

  /** What the connections share. From `log` on, history: the broadcasts fanned out, the
      presence sizes right after each mutation, the listener counts offered for broadcast, the
      mutations after which presence was cleared before its size was read, whether the idle
      re-check ever succeeded, and the number of OnShutdown calls. */
  datatype Core = Core(room: Room<Client>, chan: seq<Msg>, quit: bool, loop: LoopPc, draining: bool,
                       count: CountPc, once: OncePc, presence: set<nat>,
                       log: seq<Msg>, sizes: seq<nat>, offers: seq<Msg>, wiped: set<nat>,
                       idleCommitted: bool, shutdowns: nat)

  datatype State = State(peers: map<Client, Peer>, core: Core)

  /** The shared part and one connection, after an action of that connection. */
  datatype Local = Local(core: Core, peer: Peer)

  /** Run, working on one connection. */
  datatype LoopAction = TakeRegister | Receive | TurnAway | TakeUnregister | Drop | FanOne(raced: bool)

  /** RegisterClient, onRegister, the countMu section of either side, WritePump, sends to this
      client alone and its mic action. */
  datatype JoinAction =
    | ClaimSlot | BackOff | GiveUpSlot
    | Lock(adding: bool) | Mutate | Unlock
    | Announced | ReleaseBarrier | PanicEnter
    | Take | SendDirect(tag: nat) | MicAction(active: bool, pauseMusic: bool)

  /** unregister and onUnregister. */
  datatype LeaveAction =
    | Leave | LeaveDead | PassBarrier | LeaveMic | NeverLive | EverLive | EndRoom
    | SeeClients | SeeRoom(offline: bool) | CheckIdle
    | EnterStop | SkipStop | Notify | PanicLeave

  datatype PeerAction = Loop(l: LoopAction) | Joining(j: JoinAction) | Leaving(v: LeaveAction)

  datatype CoreAction =
    | TakeBroadcast | FanDone | TakeQuit | Exit
    | ReadSize | Offer(lost: bool)
    | MarkStop | CloseQuit
    | OfferEvent(tag: nat) | ClearListeners

  datatype Action = Of(c: Client, act: PeerAction) | Shared(step: CoreAction) | Evict

  function NewPeer(): Peer {
    Peer(Fresh, NotSpawned, Connected, Conn([], false, false), 0, false, false, false, 0, 0, [])
  }

  function NewCore(): Core {
    Core(Room({}, 0, false, false, false, None), [], false, Selecting, false,
         Unlocked, Unfired, {}, [], [], [], {}, false, 0)
  }

  /** A new hub, and the connections that will ever reach it. */
  function Init(clients: set<Client>): State {
    State(map c | c in clients :: NewPeer(), NewCore())
  }

  /** RegisterClient has returned true, so the pumps may run. */
  predicate HasPumps(pc: JoinPc) {
    pc.HandedOver? || pc.Admitted? || pc.Rejecting? || pc.Rejected?
  }

  /** A goroutine is inside updateListenerCount for this side of c. */
  predicate Holds(count: CountPc, c: Client, adding: bool) {
    !count.Unlocked? && count.c == c && count.adding == adding
  }

  /** Drops countMu when this side of c holds it (a deferred unlock). */
  function Freed(count: CountPc, c: Client, adding: bool): CountPc {
    if Holds(count, c, adding) then Unlocked else count
  }

  /** The points of onUnregister at which its I/O may panic. */
  predicate MayPanic(pc: LeavePc) {
    pc.Removing? || pc.Parting? || pc.Deciding? || pc.Ending? || pc.Counting? || pc.Querying?
  }

  predicate LoopEnabled(s: Core, c: Client, p: Peer, a: LoopAction) {
    match a
    case TakeRegister => p.join.Offering? && s.loop.Selecting? && !s.draining
    case Receive => s.loop.GotRegister? && s.loop.c == c
    case TurnAway => s.loop.Refusing? && s.loop.c == c
    case TakeUnregister => p.leave.Leaving? && s.loop.Selecting? && !s.draining
    case Drop => s.loop.GotUnregister? && s.loop.c == c
    case FanOne(_) => s.loop.Fanning? && c in s.loop.todo
  }

  predicate JoinEnabled(s: Core, c: Client, p: Peer, a: JoinAction) {
    match a
    case ClaimSlot => p.join.Fresh?
    case BackOff => p.join.Offering? && s.quit
    case GiveUpSlot => p.join.BackingOff?
    case Lock(adding) => s.count.Unlocked? && if adding then p.enter.Entering? else p.leave.Removing?
    case Mutate => s.count.Locked? && s.count.c == c
    case Unlock => s.count.Offered? && s.count.c == c
    case Announced => p.enter.Announcing?
    case ReleaseBarrier => p.enter.Releasing?
    case PanicEnter => p.enter.Entering? || p.enter.Announcing?
    case Take => HasPumps(p.join) && p.conn.send != []
    case SendDirect(_) => |p.conn.send| < SEND_BUFFER
    case MicAction(_, _) => HasPumps(p.join) && c.isDJ
  }

  predicate LeaveEnabled(s: Core, c: Client, p: Peer, a: LeaveAction) {
    match a
    case Leave => p.leave.Connected? && HasPumps(p.join)
    case LeaveDead => p.leave.Leaving? && s.quit
    case PassBarrier => p.leave.Waiting? && p.conn.registered
    case LeaveMic => p.leave.Parting?
    case NeverLive => p.leave.Deciding? && c.isDJ
    case EverLive => p.leave.Deciding?
    case EndRoom => p.leave.Ending?
    case SeeClients => p.leave.Counting?
    case SeeRoom(_) => p.leave.Querying?
    case CheckIdle => p.leave.Checking?
    case EnterStop => p.leave.Stopping? && s.once.Unfired?
    case SkipStop => p.leave.Stopping? && s.once.Fired?
    case Notify => s.once.Notifying? && s.once.c == c
    case PanicLeave => MayPanic(p.leave)
  }

  predicate PeerEnabled(s: Core, c: Client, p: Peer, a: PeerAction) {
    match a
    case Loop(l) => LoopEnabled(s, c, p, l)
    case Joining(j) => JoinEnabled(s, c, p, j)
    case Leaving(v) => LeaveEnabled(s, c, p, v)
  }

  function DoReceive(s: Core, c: Client, p: Peer): Local {
    var t := s.(room := Admit(s.room, c));
    if s.room.stopping then
      Local(t.(loop := Refusing(c)), p.(join := Rejecting))
    else
      Local(t.(loop := Selecting), p.(join := Admitted, enter := Entering, since := |s.log|, upto := |s.log|))
  }

  /** fanout's send to one client. A close that lands after the done check (`raced`) does
      not stop the frame from being buffered. */
  function SendOne(s: Core, c: Client, p: Peer, raced: bool): Local
    requires s.loop.Fanning?
  {
    if Accepts(if raced then p.conn.(done := false) else p.conn) then
      Local(s.(loop := s.loop.(todo := s.loop.todo - {c})),
       p.(conn := p.conn.(send := p.conn.send + [Broadcast(s.loop.msg)]), upto := p.upto + 1))
    else
      Local(s.(loop := s.loop.(todo := s.loop.todo - {c}, stale := s.loop.stale + {c})), p)
  }

  function Cleared(s: Core): Core {
    s.(presence := {}, wiped := if s.count.Mutated? then s.wiped + {|s.sizes|} else s.wiped)
  }

  function DoMutate(s: Core, c: Client, p: Peer, adding: bool): Local {
    var presence := if adding then s.presence + {c.session} else s.presence - {c.session};
    Local(s.(presence := presence, sizes := s.sizes + [|presence|], count := Mutated(c, adding)),
     if adding then p.(added := true) else p.(removed := true))
  }

  function DoLoop(s: Core, c: Client, p: Peer, a: LoopAction): Local
    requires LoopEnabled(s, c, p, a)
  {
    match a
    case TakeRegister => Local(s.(loop := GotRegister(c)), p.(join := HandedOver))
    case Receive => DoReceive(s, c, p)
    case TurnAway =>
      Local(s.(loop := Selecting),
       p.(join := Rejected, conn := Closed(p.conn).(registered := true), closes := p.closes + 1))
    case TakeUnregister => Local(s.(loop := GotUnregister(c)), p.(leave := HandedBack))
    case Drop =>
      Local(s.(room := Without(s.room, {c}), loop := Selecting),
       p.(leave := Waiting, conn := if c in s.room.clients then Closed(p.conn) else p.conn))
    case FanOne(raced) => SendOne(s, c, p, raced)
  }

  function DoJoin(s: Core, c: Client, p: Peer, a: JoinAction): Local
    requires JoinEnabled(s, c, p, a)
  {
    match a
    case ClaimSlot => Local(s.(room := Claim(s.room)), p.(join := if s.room.stopping then Refused else Offering))
    case BackOff => Local(s, p.(join := BackingOff))
    case GiveUpSlot => Local(s.(room := ReleaseSlot(s.room)), p.(join := Refused))
    case Lock(adding) => Local(s.(count := Locked(c, adding)), p)
    case Mutate => DoMutate(s, c, p, s.count.adding)
    case Unlock =>
      Local(s.(count := Unlocked), if s.count.adding then p.(enter := Announcing) else p.(leave := Parting))
    case Announced => Local(s, p.(enter := Releasing))
    case ReleaseBarrier =>
      Local(s, p.(enter := Entered, conn := p.conn.(registered := true), closes := p.closes + 1))
    case PanicEnter => Local(s.(count := Freed(s.count, c, true)), p.(enter := Releasing))
    case Take => Local(s, p.(conn := p.conn.(send := p.conn.send[1..]), taken := p.taken + [p.conn.send[0]]))
    case SendDirect(tag) => Local(s, p.(conn := p.conn.(send := p.conn.send + [Direct(tag)])))
    case MicAction(active, pauseMusic) => Local(s.(room := SetMic(s.room, c, active, pauseMusic)), p)
  }

  function DoLeave(s: Core, c: Client, p: Peer, a: LeaveAction): Local
    requires LeaveEnabled(s, c, p, a)
  {
    match a
    case Leave => Local(s, p.(leave := LeavePc.Leaving))
    case LeaveDead => Local(s, p.(leave := Gone, conn := Closed(p.conn)))
    case PassBarrier => Local(s, p.(leave := Removing))
    case LeaveMic =>
      Local(s.(room := if c.isDJ then ClearMic(s.room, c) else s.room), p.(leave := Deciding, micLeft := true))
    case NeverLive => Local(s, p.(leave := Ending))
    case EverLive => Local(s, p.(leave := Counting))
    case EndRoom => Local(Cleared(s), p.(leave := Stopping))
    case SeeClients => Local(s, p.(leave := if s.room.clients == {} then Querying else Left))
    case SeeRoom(offline) => Local(s, p.(leave := if offline then Checking else Left))
    case CheckIdle =>
      Local(s.(room := CommitIdle(s.room), idleCommitted := s.idleCommitted || Idle(s.room)),
       p.(leave := if Idle(s.room) then Stopping else Left))
    case EnterStop => Local(s.(once := Marking(c)), p)
    case SkipStop => Local(s, p.(leave := Left))
    case Notify => Local(s.(once := Fired, shutdowns := s.shutdowns + 1), p.(leave := Left))
    case PanicLeave => Local(s.(count := Freed(s.count, c, false)), p.(leave := Left))
  }

  /** The effect of an action on the shared part and on its own connection. */
  function DoPeer(s: Core, c: Client, p: Peer, a: PeerAction): Local
    requires PeerEnabled(s, c, p, a)
  {
    match a
    case Loop(l) => DoLoop(s, c, p, l)
    case Joining(j) => DoJoin(s, c, p, j)
    case Leaving(v) => DoLeave(s, c, p, v)
  }

  predicate CoreEnabled(s: Core, a: CoreAction) {
    match a
    case TakeBroadcast => s.loop.Selecting? && s.chan != []
    case FanDone => s.loop.Fanning? && s.loop.todo == {}
    case TakeQuit => s.loop.Selecting? && s.quit && !s.draining
    case Exit => s.loop.Selecting? && s.draining && s.chan == []
    case ReadSize => s.count.Mutated?
    case Offer(lost) =>
      s.count.Sized? && if lost then s.quit || |s.chan| >= BROADCAST_BUFFER else |s.chan| < BROADCAST_BUFFER
    case MarkStop => s.once.Marking?
    case CloseQuit => s.once.ClosingQuit?
    case OfferEvent(_) => |s.chan| < BROADCAST_BUFFER
    case ClearListeners => true
  }

  function DoCore(s: Core, a: CoreAction): Core
    requires CoreEnabled(s, a)
  {
    match a
    case TakeBroadcast =>
      s.(chan := s.chan[1..], log := s.log + [s.chan[0]], loop := Fanning(s.chan[0], s.room.clients, {}))
    case FanDone => s.(loop := if s.loop.stale == {} then Selecting else Evicting(s.loop.stale))
    case TakeQuit => s.(draining := true)
    case Exit => s.(loop := Exited)
    case ReadSize => s.(count := Sized(s.count.c, s.count.adding, |s.presence|))
    case Offer(lost) =>
      var m := ListenerCount(|s.sizes|, s.count.size);
      s.(offers := s.offers + [m], count := Offered(s.count.c, s.count.adding),
         chan := if lost then s.chan else s.chan + [m])
    case MarkStop => s.(room := MarkStopping(s.room), once := ClosingQuit(s.once.c))
    case CloseQuit => s.(quit := true, once := Notifying(s.once.c))
    case OfferEvent(tag) => s.(chan := s.chan + [Event(tag)])
    case ClearListeners => Cleared(s)
  }

  /** fanout's second phase: close and remove the clients that refused the frame. */
  function DoEvict(s: State): State
    requires s.core.loop.Evicting?
  {
    var stale := s.core.loop.stale;
    State(map c | c in s.peers ::
            if c in stale && c in s.core.room.clients then s.peers[c].(conn := Closed(s.peers[c].conn))
            else s.peers[c],
          s.core.(room := Without(s.core.room, stale), loop := Selecting))
  }

  predicate Enabled(s: State, a: Action) {
    match a
    case Of(c, act) => c in s.peers && PeerEnabled(s.core, c, s.peers[c], act)
    case Shared(step) => CoreEnabled(s.core, step)
    case Evict => s.core.loop.Evicting?
  }

  function Do(s: State, a: Action): State
    requires Enabled(s, a)
  {
    match a
    case Of(c, act) =>
      var x := DoPeer(s.core, c, s.peers[c], act);
      State(s.peers[c := x.peer], x.core)
    case Shared(step) => s.(core := DoCore(s.core, step))
    case Evict => DoEvict(s)
  }

  /** acts can be carried out one after the other from s. */
  predicate Feasible(s: State, acts: seq<Action>)
    decreases |acts|
  {
    acts == [] || (Enabled(s, acts[0]) && Feasible(Do(s, acts[0]), acts[1..]))
  }

  /** The state acts lead to. */
  function Run(s: State, acts: seq<Action>): State
    requires Feasible(s, acts)
    decreases |acts|
  {
    if acts == [] then s else Run(Do(s, acts[0]), acts[1..])
  }
}
