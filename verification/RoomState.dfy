/** What the goroutines of one room share, and what each critical section does to it.
    The classes of HubObjects and the state machine of HubProtocol are both built on
    these functions, so there is a single account of every section. */
module RoomState {
  import opened Options

  /** Capacity of a client's Send channel (sendBufferSize). */
  const SEND_BUFFER: nat := 256

  /** Capacity of the hub's Broadcast channel. */
  const BROADCAST_BUFFER: nat := 256

  /** A broadcast. Only the listener_count payload matters to the model; `no` says which
      presence mutation it reports (counting from 1), it is not part of the wire format. */
  datatype Msg = ListenerCount(no: nat, size: nat) | Event(tag: nat)

  datatype Frame = Broadcast(msg: Msg) | Direct(tag: nat)

  /** The part of a client other goroutines touch: the buffered Send channel and the
      one-shot channels `done` and `registered`. */
  datatype Conn = Conn(send: seq<Frame>, done: bool, registered: bool)

  predicate Accepts(k: Conn) {
    !k.done && |k.send| < SEND_BUFFER
  }

  function Queue(k: Conn, f: Frame): Conn {
    if Accepts(k) then k.(send := k.send + [f]) else k
  }

  function Closed(k: Conn): Conn {
    k.(done := true)
  }

  /** The hub fields guarded by its mutex. */
  datatype Room<+C> = Room(clients: set<C>, pendingRegs: int, stopping: bool,
                          micActive: bool, micPauseMusic: bool, micOwner: Option<C>)

  function Claim<C>(r: Room<C>): Room<C> {
    if r.stopping then r else r.(pendingRegs := r.pendingRegs + 1)
  }

  function ReleaseSlot<C>(r: Room<C>): Room<C> {
    r.(pendingRegs := r.pendingRegs - 1)
  }

  function Admit<C>(r: Room<C>, c: C): Room<C> {
    if r.stopping then ReleaseSlot(r) else ReleaseSlot(r).(clients := r.clients + {c})
  }

  function Without<C>(r: Room<C>, gone: set<C>): Room<C> {
    r.(clients := r.clients - gone)
  }

  function SetMic<C(==)>(r: Room<C>, c: C, active: bool, pauseMusic: bool): Room<C> {
    if c !in r.clients then r
    else r.(micActive := active, micPauseMusic := pauseMusic, micOwner := if active then Some(c) else None)
  }

  function ClearMic<C(==)>(r: Room<C>, c: C): Room<C> {
    if !r.micOwner.Some? || r.micOwner.value != c then r
    else r.(micActive := false, micPauseMusic := false, micOwner := None)
  }

  predicate Idle<C(==)>(r: Room<C>) {
    r.clients == {} && r.pendingRegs == 0
  }

  function CommitIdle<C(==)>(r: Room<C>): Room<C> {
    if Idle(r) then r.(stopping := true) else r
  }

  function MarkStopping<C>(r: Room<C>): Room<C> {
    r.(stopping := true)
  }
}
