/** Without interference the fan-out steps of the state machine do what the method
    HubObjects.Hub.Fanout does in one go. */
module HubFanout {
  import opened Options
  import opened RoomState
  import opened HubProtocol
  import opened HubControl

  /** What delivering m must do to one connection that is still to be sent to (`todo`), has
      refused (`stale`) or neither. */
  function Outcome(k: Conn, m: Msg, todo: bool, stale: bool): Conn {
    if stale || (todo && Deaf(k)) then Conn(k.send, true, k.registered)
    else if todo then Conn(k.send + [Broadcast(m)], k.done, k.registered)
    else k
  }

  /** Closed, or 256 frames behind. */
  predicate Deaf(k: Conn) {
    k.done || |k.send| >= 256
  }

  predicate DeliveredTo(s: State, m: Msg, todo: set<Client>, stale: set<Client>, t: State, c: Client)
    requires c in s.peers
  {
    && c in t.peers
    && t.peers[c].conn == Outcome(s.peers[c].conn, m, c in todo, c in stale)
    && (c in t.core.room.clients <==>
          c in s.core.room.clients && c !in stale && (c in todo ==> !Deaf(s.peers[c].conn)))
  }

  /** One send of a broadcast, in any state: the client is left out if and only if it was closed
      (unless the close came too late to be seen) or 256 frames behind; otherwise the frame is
      the newest in its buffer. */
  lemma LeftOutIffDeaf(s: State, c: Client, raced: bool)
    requires Enabled(s, Of(c, Loop(FanOne(raced)))) && c !in s.core.loop.stale
    ensures var t := Do(s, Of(c, Loop(FanOne(raced))));
            && t.core.loop.Fanning? && c !in t.core.loop.todo
            && (c in t.core.loop.stale <==> (s.peers[c].conn.done && !raced) || |s.peers[c].conn.send| >= 256)
            && t.peers[c].conn.send ==
                 s.peers[c].conn.send + (if c in t.core.loop.stale then [] else [Broadcast(s.core.loop.msg)])
            && t.peers[c].conn.done == s.peers[c].conn.done && t.core.room == s.core.room
  {
  }

  /** The contract of Hub.Fanout for the clients in todo, the ones in stale having refused;
      `sent` is what the log gained. */
  predicate Delivered(s: State, sent: seq<Msg>, m: Msg, todo: set<Client>, stale: set<Client>, t: State) {
    && t.core.loop.Selecting? && t.core.log == s.core.log + sent
    && t.core.room.clients <= s.peers.Keys
    && forall c <- s.peers :: DeliveredTo(s, m, todo, stale, t, c)
  }

  lemma FinishFanout(s: State) returns (acts: seq<Action>)
    requires Control(s) && s.core.loop.Fanning? && s.core.loop.todo == {}
    ensures Feasible(s, acts)
    ensures Delivered(s, [], s.core.loop.msg, {}, s.core.loop.stale, Run(s, acts))
  {
    var m, stale := s.core.loop.msg, s.core.loop.stale;
    var t := Do(s, Shared(FanDone));
    if stale == {} {
      acts := [Shared(FanDone)];
      assert Run(t, acts[1..]) == t;
    } else {
      acts := [Shared(FanDone), Evict];
      assert acts[1..] == [Evict];
      assert Feasible(Do(t, Evict), [Evict][1..]);
      assert Run(t, acts[1..]) == Do(t, Evict);
    }
  }

  lemma OneSendMoves(s: State, c: Client) returns (t: State)
    requires Control(s) && s.core.loop.Fanning? && c in s.core.loop.todo
    ensures Enabled(s, Of(c, Loop(FanOne(false)))) && t == Do(s, Of(c, Loop(FanOne(false))))
    ensures Control(t) && t.core.loop.Fanning? && t.core.loop.todo == s.core.loop.todo - {c}
    ensures t.core.loop.msg == s.core.loop.msg && t.core.log == s.core.log && t.peers.Keys == s.peers.Keys
  {
    assert c in s.peers;
    t := Do(s, Of(c, Loop(FanOne(false))));
    StepControl(s, Of(c, Loop(FanOne(false))));
    if Accepts(s.peers[c].conn) {
    } else {
    }
  }

  lemma {:induction false} FanoutRuns(s: State) returns (acts: seq<Action>)
    requires Control(s) && s.core.loop.Fanning?
    ensures Feasible(s, acts)
    ensures Delivered(s, [], s.core.loop.msg, s.core.loop.todo, s.core.loop.stale, Run(s, acts))
    decreases s.core.loop.todo
  {
    var m, todo, stale := s.core.loop.msg, s.core.loop.todo, s.core.loop.stale;
    if todo == {} {
      acts := FinishFanout(s);
    } else {
      var c :| c in todo;
      var t := OneSendMoves(s, c);
      var rest := FanoutRuns(t);
      acts := [Of(c, Loop(FanOne(false)))] + rest;
      assert acts[1..] == rest;
      forall d <- s.peers ensures DeliveredTo(s, m, todo, stale, Run(t, rest), d) {
        OneSendTo(s, c, Run(t, rest), d);
      }
    }
  }

  lemma OneSendTo(s: State, c: Client, u: State, d: Client)
    requires Control(s) && c in s.peers && d in s.peers
    requires s.core.loop.Fanning? && c in s.core.loop.todo
    requires var t := Do(s, Of(c, Loop(FanOne(false))));
             DeliveredTo(t, s.core.loop.msg, t.core.loop.todo, t.core.loop.stale, u, d)
    ensures DeliveredTo(s, s.core.loop.msg, s.core.loop.todo, s.core.loop.stale, u, d)
  {
    if Accepts(s.peers[c].conn) {
    } else {
    }
  }

  /** From any state about to broadcast there is a run that delivers the oldest broadcast to
      every member with room and evicts every other, exactly as Hub.Fanout promises. */
  lemma FanoutMatches(s: State) returns (acts: seq<Action>)
    requires Control(s) && s.core.loop.Selecting? && s.core.chan != []
    ensures Feasible(s, acts)
    ensures var t := Run(s, acts);
            Delivered(s, [s.core.chan[0]], s.core.chan[0], s.core.room.clients, {}, t)
  {
    var a := Shared(TakeBroadcast);
    StepControl(s, a);
    var rest := FanoutRuns(Do(s, a));
    acts := [a] + rest;
    assert acts[1..] == rest;
  }
}
