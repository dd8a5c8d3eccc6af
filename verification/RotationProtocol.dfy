/** Concurrent refreshes, logins and revocations as a state machine: every database statement
    of every request is a step, and the steps of different requests interleave freely. */
module RotationProtocol {
  import opened Options
  import opened RefreshTokens

  type ReqId = nat

  /** A refresh request. */
  datatype Req =
    | Presented(t: TokenId)              // before the lookup
    | LookedUp(t: TokenId, row: Row)     // holds the row it read
    | Wiping(t: TokenId, user: UserId)   // reuse of t detected, before the family revoke
    | Revoking(t: TokenId, user: UserId) // before the conditional revoke
    | Won(t: TokenId, user: UserId)      // revoked t itself, before the insert
    | Answered(issued: bool)

  /** History of a token: its user, the token it replaced, the login it descends from, when
      rotation consumed it, and whether the request that did is still to insert a successor. */
  datatype Token = Token(user: UserId, parent: Option<TokenId>, root: TokenId, consumedAt: Option<int>, pending: bool)

  datatype State = State(rows: Rows, reqs: map<ReqId, Req>, now: int, tokens: map<TokenId, Token>)

  datatype Action =
    | Tick(ms: nat)
    | Lookup(r: ReqId) | Check(r: ReqId) | Wipe(r: ReqId) | TryRevoke(r: ReqId)
    | Reissue(r: ReqId, next: TokenId) | Abandon(r: ReqId, issued: bool)
    | Issue(user: UserId, next: TokenId)    // signup, login, the end of a password change
    | RevokeAll(user: UserId)               // logout, password reset or change, account deletion
    | Cleanup

  function Init(reqs: map<ReqId, TokenId>): State {
    State(map[], map r | r in reqs :: Presented(reqs[r]), 0, map[])
  }

  /** Fresh tokens are random, so never seen before. Abandon covers every way a request can
      end early: a database error, a missing or banned user, a failed insert (the handler
      ignores that error and answers with a token that was never stored). */
  predicate Enabled(s: State, a: Action) {
    match a
    case Tick(_) => true
    case Lookup(r) => r in s.reqs && s.reqs[r].Presented?
    case Check(r) => r in s.reqs && s.reqs[r].LookedUp?
    case Wipe(r) => r in s.reqs && s.reqs[r].Wiping?
    case TryRevoke(r) => r in s.reqs && s.reqs[r].Revoking?
    case Reissue(r, next) => r in s.reqs && s.reqs[r].Won? && next !in s.tokens
    case Abandon(r, issued) => r in s.reqs && !s.reqs[r].Answered? && (issued ==> s.reqs[r].Won?)
    case Issue(_, next) => next !in s.tokens
    case RevokeAll(_) => true
    case Cleanup => true
  }

  function Put(s: State, r: ReqId, q: Req): State {
    s.(reqs := s.reqs[r := q])
  }

  function DoCheck(q: Req, now: int): Req
    requires q.LookedUp?
  {
    match Judge(q.row, now)
    case Theft => Wiping(q.t, q.row.user)
    case Usable => Revoking(q.t, q.row.user)
    case _ => Answered(false)
  }

  function Mark(tokens: map<TokenId, Token>, t: TokenId, consumedAt: Option<int>, pending: bool): map<TokenId, Token> {
    if t in tokens then tokens[t := tokens[t].(consumedAt := consumedAt, pending := pending)] else tokens
  }

  function DoRevoke(s: State, r: ReqId, t: TokenId, user: UserId): State {
    if Active(s.rows, t) then
      Put(s, r, Won(t, user)).(rows := Revoke(s.rows, t, s.now), tokens := Mark(s.tokens, t, Some(s.now), true))
    else Put(s, r, Answered(false))
  }

  /** The winner of q.t is done with it, one way or the other. */
  function Finish(s: State, r: ReqId, q: Req, issued: bool): State {
    var t := Put(s, r, Answered(issued));
    if q.Won? && q.t in s.tokens then t.(tokens := Mark(s.tokens, q.t, s.tokens[q.t].consumedAt, false)) else t
  }

  function Add(s: State, next: TokenId, k: Token): State {
    s.(rows := Insert(s.rows, next, NewRow(k.user, s.now)), tokens := s.tokens[next := k])
  }

  function Do(s: State, a: Action): State
    requires Enabled(s, a)
  {
    match a
    case Tick(ms) => s.(now := s.now + ms)
    case Lookup(r) =>
      var t := s.reqs[r].t;
      Put(s, r, if t in s.rows then LookedUp(t, s.rows[t]) else Answered(false))
    case Check(r) => Put(s, r, DoCheck(s.reqs[r], s.now))
    case Wipe(r) => Put(s, r, Answered(false)).(rows := DeleteUser(s.rows, s.reqs[r].user))
    case TryRevoke(r) => DoRevoke(s, r, s.reqs[r].t, s.reqs[r].user)
    case Reissue(r, next) =>
      var t := s.reqs[r].t;
      Add(Finish(s, r, s.reqs[r], true), next,
          Token(s.reqs[r].user, Some(t), if t in s.tokens then s.tokens[t].root else t, None, false))
    case Abandon(r, issued) => Finish(s, r, s.reqs[r], issued)
    case Issue(user, next) => Add(s, next, Token(user, None, next, None, false))
    case RevokeAll(user) => s.(rows := DeleteUser(s.rows, user))
    case Cleanup => s.(rows := DeleteExpired(s.rows, s.now))
  }

  predicate Feasible(s: State, acts: seq<Action>)
    decreases |acts|
  {
    acts == [] || (Enabled(s, acts[0]) && Feasible(Do(s, acts[0]), acts[1..]))
  }

  function Run(s: State, acts: seq<Action>): State
    requires Feasible(s, acts)
    decreases |acts|
  {
    if acts == [] then s else Run(Do(s, acts[0]), acts[1..])
  }
}
