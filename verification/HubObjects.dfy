/** The mutable objects of a room: a client with its bounded outbound buffer, and the hub.
    Each method is one critical section or one non-blocking channel operation of the
    program; what it leaves behind is given by the functions of RoomState. */
module HubObjects {
  import opened Options
  import opened RoomState

  class Client {
    const session: nat
    const isDJ: bool
    var Send: seq<Frame>
    var done: bool
    var registered: bool

    constructor (session: nat, isDJ: bool)
      ensures this.session == session && this.isDJ == isDJ
      ensures View() == Conn([], false, false)
    {
      this.session, this.isDJ := session, isDJ;
      Send, done, registered := [], false, false;
    }

    function View(): Conn
      reads this
    {
      Conn(Send, done, registered)
    }

    /** Queues one frame without blocking; false when the frame was dropped. */
    method SendFrame(f: Frame) returns (ok: bool)
      modifies this`Send
      ensures ok <==> !old(done) && |old(Send)| < 256
      ensures Send == old(Send) + if ok then [f] else []
      ensures View() == Queue(old(View()), f)
    {
      if done {
        return false;
      }
      if |Send| < SEND_BUFFER {
        Send := Send + [f];
        return true;
      }
      return false;
    }

    method Close()
      modifies this`done
      ensures done
      ensures View() == Closed(old(View()))
    {
      done := true;
    }

    /** WritePump: takes the oldest frame. */
    method Take() returns (f: Frame)
      requires Send != []
      modifies this`Send
      ensures old(Send) == [f] + Send
    {
      f := Send[0];
      Send := Send[1..];
    }
  }

  class Hub {
    var Clients: set<Client>
    var Broadcast: seq<Msg>
    var pendingRegs: int
    var stopping: bool
    var quit: bool
    var micActive: bool
    var micPauseMusic: bool
    var micOwner: Client?
    var shutdowns: nat

    constructor ()
      ensures View() == Room({}, 0, false, false, false, None)
      ensures Broadcast == [] && !quit && shutdowns == 0
    {
      Clients, Broadcast, pendingRegs := {}, [], 0;
      stopping, quit, shutdowns := false, false, 0;
      micActive, micPauseMusic, micOwner := false, false, null;
    }

    function View(): Room<Client>
      reads this
    {
      Room(Clients, pendingRegs, stopping, micActive, micPauseMusic,
           if micOwner == null then None else Some(micOwner as Client))
    }

    /** The locked check that opens RegisterClient. */
    method ClaimSlot() returns (ok: bool)
      modifies this`pendingRegs
      ensures ok == !old(stopping)
      ensures pendingRegs == old(pendingRegs) + if ok then 1 else 0
      ensures View() == Claim(old(View()))
    {
      if stopping {
        return false;
      }
      pendingRegs := pendingRegs + 1;
      return true;
    }

    /** RegisterClient gave up because quit was closed. */
    method GiveUpSlot()
      modifies this`pendingRegs
      ensures pendingRegs == old(pendingRegs) - 1
      ensures View() == ReleaseSlot(old(View()))
    {
      pendingRegs := pendingRegs - 1;
    }

    /** The Register arm of Run: add the client, or turn it away when stopping. */
    method Receive(c: Client) returns (admitted: bool)
      modifies this`Clients, this`pendingRegs, c`registered, c`done
      ensures admitted == !old(stopping)
      ensures Clients == (if admitted then old(Clients) + {c} else old(Clients))
      ensures pendingRegs == old(pendingRegs) - 1
      ensures if admitted then c.done == old(c.done) && c.registered == old(c.registered) else c.done && c.registered
      ensures View() == Admit(old(View()), c)
    {
      if stopping {
        pendingRegs := pendingRegs - 1;
        c.registered := true;
        c.Close();
        return false;
      }
      Clients := Clients + {c};
      pendingRegs := pendingRegs - 1;
      return true;
    }

    /** The Unregister arm of Run. */
    method Drop(c: Client)
      modifies this`Clients, c`done
      ensures Clients == old(Clients) - {c}
      ensures c.done == (old(c.done) || c in old(Clients))
      ensures View() == Without(old(View()), {c})
    {
      if c in Clients {
        Clients := Clients - {c};
        c.Close();
      }
    }

    /** fanout under the read lock: offers the frame to every member and collects those that
        refused it. */
    method SendToAll(m: Msg) returns (stale: set<Client>)
      modifies Clients`Send
      ensures stale == set c | c in Clients && (old(c.done) || |old(c.Send)| >= 256)
      ensures forall c <- Clients :: c.Send == old(c.Send) + if c in stale then [] else [RoomState.Broadcast(m)]
    {
      ghost var full := set c | c in Clients && (c.done || |c.Send| >= 256);
      var rest := Clients;
      stale := {};
      while rest != {}
        invariant rest <= Clients && stale == full - rest
        invariant forall c <- rest :: c.Send == old(c.Send)
        invariant forall c <- Clients - rest :: c.Send == old(c.Send) + if c in full then [] else [RoomState.Broadcast(m)]
        modifies Clients`Send
      {
        var c :| c in rest;
        var ok := c.SendFrame(RoomState.Broadcast(m));
        if !ok {
          stale := stale + {c};
        }
        rest := rest - {c};
      }
    }

    /** fanout under the write lock: closes and removes those still listed. */
    method EvictAll(stale: set<Client>)
      modifies this`Clients, stale`done
      ensures Clients == old(Clients) - stale
      ensures forall c <- stale :: c.done == (old(c.done) || c in old(Clients))
      ensures View() == Without(old(View()), stale)
    {
      var rest := stale;
      while rest != {}
        invariant rest <= stale && Clients == old(Clients) - (stale - rest)
        invariant forall c <- rest :: c.done == old(c.done)
        invariant forall c <- stale - rest :: c.done == (old(c.done) || c in old(Clients))
        modifies this`Clients, stale`done
      {
        var c :| c in rest;
        if c in Clients {
          c.Close();
          Clients := Clients - {c};
        }
        rest := rest - {c};
      }
    }

    /** Delivers one broadcast: every client with room gets the frame at the end of its
        buffer, every other client is closed and leaves the set; nobody is skipped. */
    method Fanout(m: Msg)
      modifies this`Clients, Clients`Send, Clients`done
      ensures Clients == set c | c in old(Clients) && !old(c.done) && |old(c.Send)| < 256
      ensures forall c <- old(Clients) ::
                if c in Clients then !c.done && c.Send == old(c.Send) + [RoomState.Broadcast(m)]
                else c.done && c.Send == old(c.Send)
    {
      var stale := SendToAll(m);
      if stale != {} {
        EvictAll(stale);
      }
    }

    /** The locked section of the dj_mic action. */
    method SetMicState(c: Client, active: bool, pauseMusic: bool) returns (applied: bool)
      modifies this`micActive, this`micPauseMusic, this`micOwner
      ensures applied == (c in Clients)
      ensures if applied then micActive == active && micPauseMusic == pauseMusic && micOwner == (if active then c else null)
              else micActive == old(micActive) && micPauseMusic == old(micPauseMusic) && micOwner == old(micOwner)
      ensures View() == SetMic(old(View()), c, active, pauseMusic)
    {
      if c !in Clients {
        return false;
      }
      micActive, micPauseMusic := active, pauseMusic;
      micOwner := if active then c else null;
      return true;
    }

    /** The mic section of onUnregister; `was` says whether a mic-off is to be announced. */
    method ReleaseMic(c: Client) returns (was: bool)
      modifies this`micActive, this`micPauseMusic, this`micOwner
      ensures was == old(micActive && micOwner == c)
      ensures if old(micOwner) == c then !micActive && !micPauseMusic && micOwner == null
              else micActive == old(micActive) && micPauseMusic == old(micPauseMusic) && micOwner == old(micOwner)
      ensures View() == ClearMic(old(View()), c)
    {
      var owns := micOwner == c;
      was := micActive && owns;
      if owns {
        micActive, micPauseMusic, micOwner := false, false, null;
      }
    }

    /** The idle re-check of onUnregister. */
    method DecideIdle() returns (idle: bool)
      modifies this`stopping
      ensures idle <==> Clients == {} && pendingRegs == 0
      ensures stopping == (old(stopping) || idle)
      ensures View() == CommitIdle(old(View()))
    {
      idle := Clients == {} && pendingRegs == 0;
      if idle {
        stopping := true;
      }
    }

    /** stop: at most one call has any effect. */
    method Stop()
      requires shutdowns == if quit then 1 else 0
      modifies this`stopping, this`quit, this`shutdowns
      ensures quit && shutdowns == 1 && stopping == (old(stopping) || !old(quit))
      ensures View() == if old(quit) then old(View()) else MarkStopping(old(View()))
    {
      if !quit {
        stopping := true;
        quit := true;
        shutdowns := shutdowns + 1;
      }
    }

    /** enqueueBroadcast: queues, or drops when full; a closed hub may do either. */
    method Enqueue(m: Msg, preferQuit: bool)
      modifies this`Broadcast
      ensures Broadcast == if (quit && preferQuit) || |old(Broadcast)| >= 256
                           then old(Broadcast) else old(Broadcast) + [m]
    {
      if quit && preferQuit {
        return;
      }
      if |Broadcast| < BROADCAST_BUFFER {
        Broadcast := Broadcast + [m];
      }
    }
  }
}
