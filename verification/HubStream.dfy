/** What reaches a client: an unbroken stretch of the broadcasts, in order, with listener
    counts that never run backwards. */
module HubStream {
  import opened Options
  import opened RoomState
  import opened HubProtocol
  import opened HubControl

  /** The broadcasts among some frames. */
  function Casts(fs: seq<Frame>): seq<Msg> {
    if fs == [] then []
    else (if fs[0].Broadcast? then [fs[0].msg] else []) + Casts(fs[1..])
  }

  lemma {:induction false} CastsAppend(fs: seq<Frame>, f: Frame)
    ensures Casts(fs + [f]) == Casts(fs) + if f.Broadcast? then [f.msg] else []
  {
    if fs == [] {
    } else {
      CastsAppend(fs[1..], f);
      var gs := fs + [f];
      assert gs[1..] == fs[1..] + [f] && gs[0] == fs[0];
      assert Casts(gs) == (if gs[0].Broadcast? then [gs[0].msg] else []) + Casts(gs[1..]);
    }
  }

  /** Everything queued to the client so far, taken or still buffered. */
  function History(p: Peer): seq<Frame> {
    p.taken + p.conn.send
  }

  /** The broadcast being fanned out that c has not been queued (yet, or at all). */
  function Owed(l: LoopPc, c: Client): nat {
    match l
    case Fanning(_, todo, stale) => if c in todo || c in stale then 1 else 0
    case Evicting(stale) => if c in stale then 1 else 0
    case _ => 0
  }

  /** The client's broadcasts are log[since..upto], and a member is up to date except for
      the broadcast in progress. */
  predicate PeerStream(s: Core, c: Client, p: Peer) {
    && p.since <= p.upto <= |s.log|
    && Casts(History(p)) == s.log[p.since..p.upto]
    && |p.conn.send| <= SEND_BUFFER
    && (!p.join.Admitted? ==> p.since == p.upto)
    && (c in s.room.clients ==> p.upto == |s.log| - Owed(s.loop, c))
  }

  /** The size of presence right after mutation `no`, or 0 if presence was cleared before the
      size was read. */
  function Reading(sizes: seq<nat>, wiped: set<nat>, no: nat): nat
    requires 0 < no <= |sizes|
  {
    if no in wiped then 0 else sizes[no - 1]
  }

  /** Listener counts come in mutation order, each with the reading of its mutation. */
  predicate CountOrder(ms: seq<Msg>, sizes: seq<nat>, last: nat, wiped: set<nat>) {
    && (forall i | 0 <= i < |ms| && ms[i].ListenerCount? ::
          0 < ms[i].no <= last <= |sizes| && ms[i].size == Reading(sizes, wiped, ms[i].no))
    && (forall i, j | 0 <= i < j < |ms| && ms[i].ListenerCount? && ms[j].ListenerCount? :: ms[i].no < ms[j].no)
  }

  /** The last mutation whose count can already have been offered. */
  function Reported(s: Core): int {
    if s.count.Mutated? || s.count.Sized? then |s.sizes| - 1 else |s.sizes|
  }

  predicate Counts(s: Core) {
    && Reported(s) >= 0
    && (forall n <- s.wiped :: n <= |s.sizes|)
    && CountOrder(s.log + s.chan, s.sizes, Reported(s), s.wiped)
    && CountOrder(s.offers, s.sizes, Reported(s), s.wiped)
    && (s.count.Mutated? ==> |s.presence| == Reading(s.sizes, s.wiped, |s.sizes|))
    && (s.count.Sized? ==> s.count.size == Reading(s.sizes, s.wiped, |s.sizes|))
  }

  predicate Stream(s: State) {
    && Counts(s.core)
    && forall c <- s.peers :: PeerStream(s.core, c, s.peers[c])
  }

  /** Appending the newest broadcast extends the stretch by one. */
  lemma {:induction false} CastsExtend(fs: seq<Frame>, log: seq<Msg>, since: nat)
    requires since < |log| && Casts(fs) == log[since..|log|-1]
    ensures Casts(fs + [Broadcast(log[|log|-1])]) == log[since..]
  {
    CastsAppend(fs, Broadcast(log[|log|-1]));
  }

  lemma Refused(s: Core, c: Client, p: Peer, l: LoopPc)
    requires PeerStream(s, c, p) && s.loop.Fanning? && c in s.loop.todo
    requires l.Fanning? && c in l.stale
    ensures PeerStream(s.(loop := l), c, p)
  {
  }

  lemma Accepted(s: Core, c: Client, p: Peer, l: LoopPc, q: Peer)
    requires PeerStream(s, c, p) && s.loop.Fanning? && c in s.loop.todo && c in s.room.clients
    requires l.Fanning? && c !in l.todo && c !in l.stale
    requires q.since == p.since && q.upto == p.upto + 1 && q.join.Admitted? && |q.conn.send| <= SEND_BUFFER
    requires q.taken == p.taken && q.conn.send == p.conn.send + [Broadcast(s.log[|s.log|-1])]
    ensures PeerStream(s.(loop := l), c, q)
  {
    CastsExtend(History(p), s.log, p.since);
    assert History(q) == History(p) + [Broadcast(s.log[p.upto])];
    assert s.log[p.since..] == s.log[p.since..p.upto + 1];
  }

  lemma FanStream(s: Core, c: Client, p: Peer, raced: bool)
    requires LoopControl(s) && PeerStream(s, c, p) && s.loop.Fanning? && c in s.loop.todo
    requires p.join.Admitted?
    ensures PeerStream(SendOne(s, c, p, raced).core, c, SendOne(s, c, p, raced).peer)
  {
    var x := SendOne(s, c, p, raced);
    if Accepts(if raced then p.conn.(done := false) else p.conn) {
      Accepted(s, c, p, x.core.loop, x.peer);
    } else {
      Refused(s, c, p, x.core.loop);
    }
  }

  lemma LoopStream(s: Core, c: Client, p: Peer, a: LoopAction)
    requires LoopControl(s) && PeerControl(s, c, p) && PeerStream(s, c, p) && LoopEnabled(s, c, p, a)
    ensures PeerStream(DoLoop(s, c, p, a).core, c, DoLoop(s, c, p, a).peer)
  {
    if a.Receive? && s.room.stopping {
    } else if a.FanOne? {
      FanStream(s, c, p, a.raced);
    } else {
    }
  }

  lemma JoinStream(s: Core, c: Client, p: Peer, a: JoinAction)
    requires PeerControl(s, c, p) && PeerStream(s, c, p) && JoinEnabled(s, c, p, a)
    ensures PeerStream(DoJoin(s, c, p, a).core, c, DoJoin(s, c, p, a).peer)
  {
    if a.Take? {
      TakeStream(s, c, p);
    } else if a.SendDirect? {
      DirectStream(s, c, p, a.tag);
    } else {
      var x := DoJoin(s, c, p, a);
      assert History(x.peer) == History(p) && x.core.log == s.log && x.core.loop == s.loop;
    }
  }

  lemma TakeStream(s: Core, c: Client, p: Peer)
    requires PeerStream(s, c, p) && JoinEnabled(s, c, p, Take)
    ensures PeerStream(DoJoin(s, c, p, Take).core, c, DoJoin(s, c, p, Take).peer)
  {
    assert (p.taken + [p.conn.send[0]]) + p.conn.send[1..] == History(p);
  }

  lemma DirectStream(s: Core, c: Client, p: Peer, tag: nat)
    requires PeerStream(s, c, p) && JoinEnabled(s, c, p, SendDirect(tag))
    ensures PeerStream(DoJoin(s, c, p, SendDirect(tag)).core, c, DoJoin(s, c, p, SendDirect(tag)).peer)
  {
    assert p.taken + (p.conn.send + [Direct(tag)]) == History(p) + [Direct(tag)];
    CastsAppend(History(p), Direct(tag));
  }

  lemma LeaveStream(s: Core, c: Client, p: Peer, a: LeaveAction)
    requires PeerStream(s, c, p) && LeaveEnabled(s, c, p, a)
    ensures PeerStream(DoLeave(s, c, p, a).core, c, DoLeave(s, c, p, a).peer)
  {
  }

  lemma LoopStreamOther(s: Core, c: Client, p: Peer, a: LoopAction, d: Client, q: Peer)
    requires LoopEnabled(s, c, p, a) && d != c && PeerStream(s, d, q)
    ensures PeerStream(DoLoop(s, c, p, a).core, d, q)
  {
    if a.Receive? && s.room.stopping {
    } else if a.FanOne? {
    } else {
    }
  }

  lemma JoinStreamOther(s: Core, c: Client, p: Peer, a: JoinAction, d: Client, q: Peer)
    requires JoinEnabled(s, c, p, a) && PeerStream(s, d, q)
    ensures PeerStream(DoJoin(s, c, p, a).core, d, q)
  {
  }

  lemma LeaveStreamOther(s: Core, c: Client, p: Peer, a: LeaveAction, d: Client, q: Peer)
    requires LeaveEnabled(s, c, p, a) && PeerStream(s, d, q)
    ensures PeerStream(DoLeave(s, c, p, a).core, d, q)
  {
  }

  lemma SharedStream(s: Core, a: CoreAction, d: Client, q: Peer)
    requires PeerStream(s, d, q) && CoreEnabled(s, a)
    ensures PeerStream(DoCore(s, a), d, q)
  {
    if a.TakeBroadcast? {
      assert (s.log + [s.chan[0]])[q.since..q.upto] == s.log[q.since..q.upto];
    } else if a.FanDone? {
    }
  }

  /** One more mutation, or one more wipe of the mutation being counted, leaves the earlier
      reports as they were. */
  lemma MoreSizes(ms: seq<Msg>, sizes: seq<nat>, last: nat, wiped: set<nat>, more: seq<nat>, later: set<nat>)
    requires CountOrder(ms, sizes, last, wiped) && last <= |sizes|
    requires sizes <= more && forall n | 0 < n <= last :: n in later <==> n in wiped
    ensures CountOrder(ms, more, last, later)
  {
  }

  lemma MoreReports(ms: seq<Msg>, m: Msg, sizes: seq<nat>, last: nat, wiped: set<nat>)
    requires CountOrder(ms, sizes, last, wiped) && last < |sizes|
    requires m.ListenerCount? && m.no == last + 1 && m.size == Reading(sizes, wiped, last + 1)
    ensures CountOrder(ms + [m], sizes, last + 1, wiped)
  {
  }

  lemma OtherReports(ms: seq<Msg>, m: Msg, sizes: seq<nat>, last: nat, wiped: set<nat>)
    requires CountOrder(ms, sizes, last, wiped) && m.Event?
    ensures CountOrder(ms + [m], sizes, last, wiped)
  {
  }

  /** Nothing the counts depend on moved, except that a holder of countMu may have let go. */
  predicate CountsUntouched(s: Core, t: Core) {
    && t.log + t.chan == s.log + s.chan && t.sizes == s.sizes && t.offers == s.offers && t.wiped == s.wiped
    && ((t.count == s.count && t.presence == s.presence) || !(t.count.Mutated? || t.count.Sized?))
  }

  lemma UntouchedCounts(s: Core, t: Core)
    requires Counts(s) && CountsUntouched(s, t)
    ensures Counts(t)
  {
    var last := if Reported(s) < 0 then 0 else Reported(s);
    MoreReported(s.log + s.chan, s.sizes, last, s.wiped);
    MoreReported(s.offers, s.sizes, last, s.wiped);
  }

  lemma MoreReported(ms: seq<Msg>, sizes: seq<nat>, last: nat, wiped: set<nat>)
    requires CountOrder(ms, sizes, last, wiped) && last <= |sizes|
    ensures CountOrder(ms, sizes, |sizes|, wiped)
  {
  }

  lemma ClearedCounts(s: Core)
    requires Counts(s)
    ensures Counts(Cleared(s))
  {
    var t := Cleared(s);
    if s.count.Mutated? {
      MoreSizes(s.log + s.chan, s.sizes, |s.sizes| - 1, s.wiped, s.sizes, t.wiped);
      MoreSizes(s.offers, s.sizes, |s.sizes| - 1, s.wiped, s.sizes, t.wiped);
    }
  }

  lemma LoopUntouched(s: Core, c: Client, p: Peer, a: LoopAction)
    requires LoopEnabled(s, c, p, a)
    ensures CountsUntouched(s, DoLoop(s, c, p, a).core)
  {
  }

  lemma JoinUntouched(s: Core, c: Client, p: Peer, a: JoinAction)
    requires JoinEnabled(s, c, p, a) && !a.Mutate?
    ensures CountsUntouched(s, DoJoin(s, c, p, a).core)
  {
  }

  lemma LeaveUntouched(s: Core, c: Client, p: Peer, a: LeaveAction)
    requires LeaveEnabled(s, c, p, a) && !a.EndRoom?
    ensures CountsUntouched(s, DoLeave(s, c, p, a).core)
  {
  }

  lemma MutateCounts(s: Core, c: Client, p: Peer, adding: bool)
    requires Counts(s) && s.count.Locked?
    ensures Counts(DoMutate(s, c, p, adding).core)
  {
    var t := DoMutate(s, c, p, adding).core;
    MoreSizes(s.log + s.chan, s.sizes, |s.sizes|, s.wiped, t.sizes, s.wiped);
    MoreSizes(s.offers, s.sizes, |s.sizes|, s.wiped, t.sizes, s.wiped);
  }

  lemma PeerCounts(s: Core, c: Client, p: Peer, a: PeerAction)
    requires Counts(s) && PeerEnabled(s, c, p, a)
    ensures Counts(DoPeer(s, c, p, a).core)
  {
    match a
    case Loop(l) =>
      LoopUntouched(s, c, p, l);
      UntouchedCounts(s, DoLoop(s, c, p, l).core);
    case Joining(j) =>
      if j.Mutate? {
        MutateCounts(s, c, p, s.count.adding);
      } else {
        JoinUntouched(s, c, p, j);
        UntouchedCounts(s, DoJoin(s, c, p, j).core);
      }
    case Leaving(v) =>
      if v.EndRoom? {
        ClearedCounts(s);
      } else {
        LeaveUntouched(s, c, p, v);
        UntouchedCounts(s, DoLeave(s, c, p, v).core);
      }
  }

  lemma TakeCounts(s: Core)
    requires Counts(s) && CoreEnabled(s, TakeBroadcast)
    ensures Counts(DoCore(s, TakeBroadcast))
  {
    assert (s.log + [s.chan[0]]) + s.chan[1..] == s.log + s.chan;
    UntouchedCounts(s, DoCore(s, TakeBroadcast));
  }

  lemma SizeCounts(s: Core)
    requires Counts(s) && CoreEnabled(s, ReadSize)
    ensures Counts(DoCore(s, ReadSize))
  {
  }

  lemma OfferCounts(s: Core, lost: bool)
    requires Counts(s) && CoreEnabled(s, Offer(lost))
    ensures Counts(DoCore(s, Offer(lost)))
  {
    var m, last := ListenerCount(|s.sizes|, s.count.size), |s.sizes| - 1;
    MoreReports(s.offers, m, s.sizes, last, s.wiped);
    if lost {
      MoreReported(s.log + s.chan, s.sizes, last, s.wiped);
    } else {
      MoreReports(s.log + s.chan, m, s.sizes, last, s.wiped);
      assert s.log + (s.chan + [m]) == (s.log + s.chan) + [m];
    }
  }

  lemma EventCounts(s: Core, tag: nat)
    requires Counts(s) && CoreEnabled(s, OfferEvent(tag))
    ensures Counts(DoCore(s, OfferEvent(tag)))
  {
    OtherReports(s.log + s.chan, Event(tag), s.sizes, Reported(s), s.wiped);
    assert s.log + (s.chan + [Event(tag)]) == (s.log + s.chan) + [Event(tag)];
  }

  lemma SharedCounts(s: Core, a: CoreAction)
    requires Counts(s) && CoreEnabled(s, a)
    ensures Counts(DoCore(s, a))
  {
    match a
    case TakeBroadcast => TakeCounts(s);
    case ReadSize => SizeCounts(s);
    case Offer(lost) => OfferCounts(s, lost);
    case OfferEvent(tag) => EventCounts(s, tag);
    case ClearListeners => ClearedCounts(s);
    case _ => UntouchedCounts(s, DoCore(s, a));
  }

  lemma StepStream(s: State, a: Action)
    requires Control(s) && Stream(s) && Enabled(s, a)
    ensures Stream(Do(s, a))
  {
    match a
    case Of(c, act) =>
      PeerCounts(s.core, c, s.peers[c], act);
      StepPeerStreams(s, c, act);
    case Shared(step) =>
      SharedCounts(s.core, step);
      forall d <- s.peers ensures PeerStream(Do(s, a).core, d, s.peers[d]) {
        SharedStream(s.core, step, d, s.peers[d]);
      }
    case Evict =>
  }

  lemma StepPeerStreams(s: State, c: Client, a: PeerAction)
    requires Control(s) && Stream(s) && Enabled(s, Of(c, a))
    ensures forall d <- s.peers :: PeerStream(Do(s, Of(c, a)).core, d, Do(s, Of(c, a)).peers[d])
  {
    var p := s.peers[c];
    forall d <- s.peers ensures PeerStream(Do(s, Of(c, a)).core, d, Do(s, Of(c, a)).peers[d]) {
      match a
      case Loop(l) => if d == c { LoopStream(s.core, c, p, l); } else { LoopStreamOther(s.core, c, p, l, d, s.peers[d]); }
      case Joining(j) => if d == c { JoinStream(s.core, c, p, j); } else { JoinStreamOther(s.core, c, p, j, d, s.peers[d]); }
      case Leaving(v) => if d == c { LeaveStream(s.core, c, p, v); } else { LeaveStreamOther(s.core, c, p, v, d, s.peers[d]); }
    }
  }
}
