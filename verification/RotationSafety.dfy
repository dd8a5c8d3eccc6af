/** What interleaved refreshes can and cannot do to a user's tokens. */
module RotationSafety {
  import opened Options
  import opened Counting
  import opened RefreshTokens
  import opened RotationProtocol

  /** t can still lead to a usable session: it is active, or its winner is in flight. */
  predicate Live(s: State, t: TokenId) {
    Active(s.rows, t) || (t in s.tokens && s.tokens[t].pending)
  }

  /** A token of the user that rotation consumed more than the grace period ago. */
  predicate StaleReplay(s: State, t: TokenId, user: UserId) {
    t in s.tokens && s.tokens[t].user == user && s.tokens[t].consumedAt.Some?
    && s.now - s.tokens[t].consumedAt.value > ROTATION_GRACE
  }

  predicate Honest(s: State, q: Req) {
    match q
    case LookedUp(t, row) =>
      t in s.tokens && s.tokens[t].user == row.user
      && (row.revokedAt.Some? ==> s.tokens[t].consumedAt == row.revokedAt)
    case Revoking(t, user) => t in s.tokens && s.tokens[t].user == user
    case Won(t, user) => t in s.tokens && s.tokens[t].user == user && s.tokens[t].pending
    case Wiping(t, user) => StaleReplay(s, t, user)
    case _ => true
  }

  /** Rows and requests speak of real tokens, and rotation is the only writer of revoked_at. */
  predicate Grounded(s: State) {
    && (forall t <- s.rows :: t in s.tokens && s.tokens[t].user == s.rows[t].user
                              && s.tokens[t].consumedAt == s.rows[t].revokedAt)
    && (forall t <- s.tokens :: s.tokens[t].pending ==> s.tokens[t].consumedAt.Some?)
    && (forall r <- s.reqs :: Honest(s, s.reqs[r]))
  }

  /** A consumed token has one winner. */
  predicate OneWinner(s: State) {
    forall q, r | q in s.reqs && r in s.reqs && s.reqs[q].Won? && s.reqs[r].Won? && s.reqs[q].t == s.reqs[r].t :: q == r
  }

  /** A token's predecessor and login, both of its user; the predecessor is over and done with. */
  predicate Descends(tokens: map<TokenId, Token>, k: Token) {
    && k.root in tokens && tokens[k.root].parent.None? && tokens[k.root].user == k.user
    && (k.parent.Some? ==>
          var p := k.parent.value;
          p in tokens && tokens[p].root == k.root && tokens[p].consumedAt.Some? && !tokens[p].pending)
  }

  predicate Lineage(tokens: map<TokenId, Token>, c: TokenId) {
    c in tokens ==> Descends(tokens, tokens[c])
  }

  /** Chains: every token descends from a login, and none has two successors. */
  ghost predicate Chained(s: State) {
    && (forall c: TokenId {:trigger Lineage(s.tokens, c)} :: Lineage(s.tokens, c))
    && (forall c, d | c in s.tokens && d in s.tokens && s.tokens[c].parent.Some? && s.tokens[c].parent == s.tokens[d].parent :: c == d)
  }

  predicate OnePerRoot(s: State) {
    forall a, b | a in s.tokens && b in s.tokens && Live(s, a) && Live(s, b) && s.tokens[a].root == s.tokens[b].root :: a == b
  }

  predicate IsWinner(s: State, r: ReqId, t: TokenId) {
    r in s.reqs && s.reqs[r].Won? && s.reqs[r].t == t
  }

  /** A pending token has its winner in flight. */
  ghost predicate Attended(s: State) {
    forall t <- s.tokens :: s.tokens[t].pending ==> exists r :: IsWinner(s, r, t)
  }

  ghost predicate Inv(s: State) {
    Grounded(s) && OneWinner(s) && Attended(s) && Chained(s) && OnePerRoot(s)
  }

  lemma StepHonest(s: State, a: Action, r: ReqId)
    requires Grounded(s) && OneWinner(s) && Enabled(s, a) && r in s.reqs
    ensures Honest(Do(s, a), Do(s, a).reqs[r])
  {
    assert Honest(s, s.reqs[r]);
    if a.TryRevoke? {
      assert Honest(s, s.reqs[a.r]);
    } else if a.Reissue? || a.Issue? {
    } else if a.Abandon? {
    } else if a.Lookup? || a.Check? {
    } else {
    }
  }

  lemma StepGrounded(s: State, a: Action)
    requires Grounded(s) && OneWinner(s) && Enabled(s, a)
    ensures Grounded(Do(s, a))
  {
    var t := Do(s, a);
    assert t.reqs.Keys == s.reqs.Keys;
    forall r <- t.reqs ensures Honest(t, t.reqs[r]) {
      StepHonest(s, a, r);
    }
    if a.TryRevoke? {
    } else if a.Reissue? || a.Issue? {
    } else if a.Abandon? {
    } else {
    }
  }

  lemma StepOneWinner(s: State, a: Action)
    requires Grounded(s) && OneWinner(s) && Enabled(s, a)
    ensures OneWinner(Do(s, a))
  {
  }

  lemma StepAttended(s: State, a: Action)
    requires Grounded(s) && Attended(s) && Enabled(s, a)
    ensures Attended(Do(s, a))
  {
    var t := Do(s, a);
    forall x <- t.tokens | t.tokens[x].pending ensures exists r :: IsWinner(t, r, x) {
      if x in s.tokens && s.tokens[x].pending {
        var r :| IsWinner(s, r, x);
        assert IsWinner(t, r, x);
      } else {
        assert a.TryRevoke? && IsWinner(t, a.r, x);
      }
    }
  }

  /** Tokens keep their lineage; once over and done with, they stay so. */
  predicate Evolves(before: map<TokenId, Token>, after: map<TokenId, Token>) {
    forall c <- before ::
      && c in after && after[c].user == before[c].user
      && after[c].parent == before[c].parent && after[c].root == before[c].root
      && (before[c].consumedAt.Some? && !before[c].pending ==> after[c].consumedAt.Some? && !after[c].pending)
  }

  lemma MarkEvolves(tokens: map<TokenId, Token>, t: TokenId, at: Option<int>, pending: bool)
    requires t in tokens ==> at.Some? && (tokens[t].consumedAt.Some? && !tokens[t].pending ==> !pending)
    ensures Evolves(tokens, Mark(tokens, t, at, pending)) && Mark(tokens, t, at, pending).Keys == tokens.Keys
  {
  }

  lemma EvolvedChain(s: State, t: State)
    requires Chained(s) && Evolves(s.tokens, t.tokens) && t.tokens.Keys == s.tokens.Keys
    ensures Chained(t)
  {
    forall c: TokenId ensures Lineage(t.tokens, c) {
      assert Lineage(s.tokens, c);
    }
  }

  /** A new token keeps the chains if it starts one or continues one nobody else continued. */
  lemma AddChained(s: State, next: TokenId, k: Token)
    requires Chained(s) && next !in s.tokens
    requires if k.parent.Some? then Descends(s.tokens, k) && forall c <- s.tokens :: s.tokens[c].parent != k.parent
             else k.root == next
    ensures Chained(Add(s, next, k))
  {
    var t := Add(s, next, k);
    forall c: TokenId ensures Lineage(t.tokens, c) {
      assert Lineage(s.tokens, c);
    }
  }

  /** A pending token has no successor yet. */
  lemma PendingIsLast(s: State, p: TokenId)
    requires Chained(s) && p in s.tokens && s.tokens[p].pending
    ensures forall c <- s.tokens :: s.tokens[c].parent != Some(p)
  {
    forall c <- s.tokens ensures s.tokens[c].parent != Some(p) {
      assert Lineage(s.tokens, c);
    }
  }

  lemma FinishEvolves(s: State, r: ReqId, issued: bool)
    requires Grounded(s) && r in s.reqs
    ensures var t := Finish(s, r, s.reqs[r], issued); Evolves(s.tokens, t.tokens) && t.tokens.Keys == s.tokens.Keys
  {
    var q := s.reqs[r];
    assert Honest(s, q);
    if q.Won? {
      MarkEvolves(s.tokens, q.t, s.tokens[q.t].consumedAt, false);
    }
  }

  /** What Reissue does before the new row exists, and the token it then adds. */
  lemma ReissueParts(s: State, r: ReqId, next: TokenId) returns (t: State, k: Token)
    requires Grounded(s) && Chained(s) && Enabled(s, Reissue(r, next))
    ensures t == Finish(s, r, s.reqs[r], true) && Do(s, Reissue(r, next)) == Add(t, next, k)
    ensures Chained(t) && next !in t.tokens
    ensures k == Token(s.reqs[r].user, Some(s.reqs[r].t), s.tokens[s.reqs[r].t].root, None, false)
    ensures Descends(t.tokens, k) && forall c <- t.tokens :: t.tokens[c].parent != k.parent
  {
    var q := s.reqs[r];
    assert Honest(s, q);
    t, k := Finish(s, r, q, true), Token(q.user, Some(q.t), s.tokens[q.t].root, None, false);
    FinishEvolves(s, r, true);
    EvolvedChain(s, t);
    PendingIsLast(s, q.t);
    assert Lineage(s.tokens, q.t);
  }

  lemma RevokeEvolves(s: State, r: ReqId)
    requires Grounded(s) && Enabled(s, TryRevoke(r))
    ensures var t := Do(s, TryRevoke(r)); Evolves(s.tokens, t.tokens) && t.tokens.Keys == s.tokens.Keys
  {
    if Active(s.rows, s.reqs[r].t) {
      MarkEvolves(s.tokens, s.reqs[r].t, Some(s.now), true);
    }
  }

  lemma StepChained(s: State, a: Action)
    requires Grounded(s) && Chained(s) && Enabled(s, a)
    ensures Chained(Do(s, a))
  {
    match a
    case TryRevoke(r) =>
      RevokeEvolves(s, r);
      EvolvedChain(s, Do(s, a));
    case Reissue(r, next) =>
      var t, k := ReissueParts(s, r, next);
      AddChained(t, next, k);
    case Abandon(r, issued) =>
      FinishEvolves(s, r, issued);
      EvolvedChain(s, Do(s, a));
    case Issue(user, next) => AddChained(s, next, Token(user, None, next, None, false));
    case _ =>
  }

  /** No token came alive, and lineage is as it was. */
  predicate OnlyDies(s: State, t: State) {
    t.tokens.Keys == s.tokens.Keys
    && forall x <- s.tokens :: t.tokens[x].root == s.tokens[x].root && t.tokens[x].user == s.tokens[x].user
                               && (Live(t, x) ==> Live(s, x))
  }

  lemma DyingKeepsOne(s: State, t: State)
    requires OnePerRoot(s) && OnlyDies(s, t)
    ensures OnePerRoot(t)
  {
  }

  lemma MostOnlyKill(s: State, a: Action)
    requires Grounded(s) && Enabled(s, a) && !a.Reissue? && !a.Issue?
    ensures OnlyDies(s, Do(s, a))
  {
    match a
    case Abandon(r, issued) => FinishKills(s, r, issued);
    case _ =>
  }

  lemma FinishKills(s: State, r: ReqId, issued: bool)
    requires Grounded(s) && r in s.reqs
    ensures OnlyDies(s, Finish(s, r, s.reqs[r], issued))
    ensures s.reqs[r].Won? ==> s.reqs[r].t in s.tokens && !Live(Finish(s, r, s.reqs[r], issued), s.reqs[r].t)
  {
    assert Honest(s, s.reqs[r]);
  }

  lemma AddKeepsOne(s: State, next: TokenId, k: Token)
    requires Grounded(s) && OnePerRoot(s) && next !in s.tokens && !k.pending
    requires forall x <- s.tokens :: Live(s, x) ==> s.tokens[x].root != k.root
    ensures OnePerRoot(Add(s, next, k))
  {
    var t := Add(s, next, k);
    forall x <- s.tokens ensures Live(t, x) == Live(s, x) && t.tokens[x] == s.tokens[x] {
    }
  }

  lemma StepOnePerRoot(s: State, a: Action)
    requires Inv(s) && Enabled(s, a)
    ensures OnePerRoot(Do(s, a))
  {
    match a
    case Reissue(r, next) =>
      var t, k := ReissueParts(s, r, next);
      FinishKills(s, r, true);
      DyingKeepsOne(s, t);
      StepGrounded(s, Abandon(r, true));
      assert Honest(s, s.reqs[r]);
      var p := s.reqs[r].t;
      forall x <- t.tokens | Live(t, x) ensures t.tokens[x].root != k.root {
        assert Live(s, x) && Live(s, p) && x != p;
      }
      AddKeepsOne(t, next, k);
    case Issue(user, next) =>
      forall x <- s.tokens ensures s.tokens[x].root != next {
        assert Lineage(s.tokens, x);
      }
      AddKeepsOne(s, next, Token(user, None, next, None, false));
    case _ =>
      MostOnlyKill(s, a);
      DyingKeepsOne(s, Do(s, a));
  }

  lemma StepInv(s: State, a: Action)
    requires Inv(s) && Enabled(s, a)
    ensures Inv(Do(s, a))
  {
    StepGrounded(s, a);
    StepOneWinner(s, a);
    StepAttended(s, a);
    StepChained(s, a);
    StepOnePerRoot(s, a);
  }

  lemma {:induction false} RunInv(s: State, acts: seq<Action>)
    requires Inv(s) && Feasible(s, acts)
    ensures Inv(Run(s, acts))
    decreases |acts|
  {
    if acts == [] {
    } else {
      StepInv(s, acts[0]);
      RunInv(Do(s, acts[0]), acts[1..]);
    }
  }

  /** However requests interleave, no token has two successors, and no login has two live
      descendants. */
  lemma {:induction false} OneSuccessor(reqs: map<ReqId, TokenId>, acts: seq<Action>, c: TokenId, d: TokenId)
    requires Feasible(Init(reqs), acts)
    requires var s := Run(Init(reqs), acts); c in s.tokens && d in s.tokens
    ensures var s := Run(Init(reqs), acts);
            && (s.tokens[c].parent.Some? && s.tokens[c].parent == s.tokens[d].parent ==> c == d)
            && (Live(s, c) && Live(s, d) && s.tokens[c].root == s.tokens[d].root ==> c == d)
  {
    RunInv(Init(reqs), acts);
  }

  function ActiveOf(s: State, user: UserId): set<TokenId> {
    set t | t in s.rows && s.rows[t].user == user && s.rows[t].revokedAt.None?
  }

  function PendingOf(s: State, user: UserId): set<TokenId> {
    set t | t in s.tokens && s.tokens[t].user == user && s.tokens[t].pending
  }

  /** Refreshes of the user that revoked their token and have not inserted the next one. */
  function WinnersOf(s: State, user: UserId): set<ReqId> {
    set r | r in s.reqs && s.reqs[r].Won? && s.reqs[r].user == user
  }

  /** The tokens that signup, login and password change issued to the user. */
  function LoginsOf(s: State, user: UserId): set<TokenId> {
    set t | t in s.tokens && s.tokens[t].user == user && s.tokens[t].parent.None?
  }

  lemma WinnersArePending(s: State, user: UserId)
    requires Grounded(s) && OneWinner(s)
    ensures |WinnersOf(s, user)| <= |PendingOf(s, user)|
  {
    var f := map r | r in s.reqs && s.reqs[r].Won? :: s.reqs[r].t;
    forall r <- WinnersOf(s, user) ensures r in f && f[r] in PendingOf(s, user) {
      assert Honest(s, s.reqs[r]);
    }
    Injection(WinnersOf(s, user), PendingOf(s, user), f);
  }

  /** The user's live tokens. */
  function LiveOf(s: State, user: UserId): set<TokenId> {
    set t | t in s.tokens && s.tokens[t].user == user && Live(s, t)
  }

  lemma LiveSplits(s: State, user: UserId)
    requires Grounded(s)
    ensures |LiveOf(s, user)| == |ActiveOf(s, user)| + |PendingOf(s, user)|
  {
    assert ActiveOf(s, user) !! PendingOf(s, user);
    assert LiveOf(s, user) == ActiveOf(s, user) + PendingOf(s, user);
  }

  lemma LiveWithinLogins(s: State, user: UserId)
    requires Chained(s) && OnePerRoot(s)
    ensures |LiveOf(s, user)| <= |LoginsOf(s, user)|
  {
    var f := map t | t in s.tokens :: s.tokens[t].root;
    forall t <- LiveOf(s, user) ensures t in f && f[t] in LoginsOf(s, user) {
      assert Lineage(s.tokens, t);
    }
    Injection(LiveOf(s, user), LoginsOf(s, user), f);
  }

  /** A user's active tokens and the refreshes about to insert one never outnumber the tokens
      issued by signup, login and password change. */
  lemma {:induction false} TokensNeverMultiply(reqs: map<ReqId, TokenId>, acts: seq<Action>, user: UserId)
    requires Feasible(Init(reqs), acts)
    ensures var s := Run(Init(reqs), acts);
            |ActiveOf(s, user)| + |WinnersOf(s, user)| <= |LoginsOf(s, user)|
  {
    RunInv(Init(reqs), acts);
    var s := Run(Init(reqs), acts);
    WinnersArePending(s, user);
    LiveSplits(s, user);
    LiveWithinLogins(s, user);
  }

  /** The family is revoked only over a token of that user which rotation consumed more than
      15 s before, and the revoke leaves the user without rows. */
  lemma {:induction false} WipeIsEarned(reqs: map<ReqId, TokenId>, acts: seq<Action>, r: ReqId)
    requires Feasible(Init(reqs), acts) && Enabled(Run(Init(reqs), acts), Wipe(r))
    ensures var s := Run(Init(reqs), acts);
            && StaleReplay(s, s.reqs[r].t, s.reqs[r].user)
            && forall t <- Do(s, Wipe(r)).rows :: Do(s, Wipe(r)).rows[t].user != s.reqs[r].user
  {
    RunInv(Init(reqs), acts);
    var s := Run(Init(reqs), acts);
    assert Honest(s, s.reqs[r]);
  }

  /** A replay is judged by when rotation consumed the token: up to 15 s after that it ends the
      request and touches no row, later it leads to the family revoke. */
  lemma {:induction false} ReplayInGraceIsHarmless(reqs: map<ReqId, TokenId>, acts: seq<Action>, r: ReqId)
    requires Feasible(Init(reqs), acts) && Enabled(Run(Init(reqs), acts), Check(r))
    requires Run(Init(reqs), acts).reqs[r].row.revokedAt.Some?
    ensures var s := Run(Init(reqs), acts);
            var t := s.reqs[r].t;
            && t in s.tokens && s.tokens[t].consumedAt.Some? && Do(s, Check(r)).rows == s.rows
            && Do(s, Check(r)).reqs[r] ==
                 if s.now - s.tokens[t].consumedAt.value <= ROTATION_GRACE then Answered(false)
                 else Wiping(t, s.tokens[t].user)
  {
    RunInv(Init(reqs), acts);
    var s := Run(Init(reqs), acts);
    assert Honest(s, s.reqs[r]);
  }

  /** The request holds a token that is no longer stored, and has not won it. */
  predicate Stranded(s: State, r: ReqId) {
    r in s.reqs &&
    match s.reqs[r]
    case LookedUp(t, _) => t in s.tokens && t !in s.rows
    case Revoking(t, _) => t in s.tokens && t !in s.rows
    case Wiping(_, _) => true
    case Answered(issued) => !issued
    case _ => false
  }

  /** A request that looked its token up before a bulk revocation and reaches the conditional
      revoke after it issues nothing, whatever else happens in between. */
  lemma {:induction false} StaleLookupIssuesNothing(s: State, acts: seq<Action>, r: ReqId)
    requires Inv(s) && Feasible(s, acts) && Stranded(s, r)
    ensures Stranded(Run(s, acts), r)
    decreases |acts|
  {
    if acts == [] {
    } else {
      StepInv(s, acts[0]);
      StepStranded(s, acts[0], r);
      StaleLookupIssuesNothing(Do(s, acts[0]), acts[1..], r);
    }
  }

  lemma StepStranded(s: State, a: Action, r: ReqId)
    requires Inv(s) && Enabled(s, a) && Stranded(s, r)
    ensures Stranded(Do(s, a), r)
  {
  }

  lemma RevokeAllStrands(s: State, user: UserId, r: ReqId)
    requires Inv(s) && r in s.reqs
    requires (s.reqs[r].LookedUp? && s.reqs[r].row.user == user) || (s.reqs[r].Revoking? && s.reqs[r].user == user)
    ensures Stranded(Do(s, RevokeAll(user)), r)
  {
    assert Honest(s, s.reqs[r]);
  }

  /** Nothing of the user is live. */
  predicate Dead(s: State, user: UserId) {
    forall t <- s.tokens :: s.tokens[t].user == user ==> !Live(s, t)
  }

  /** After a bulk revocation the user's live tokens are exactly those of refreshes in flight. */
  lemma RevokeAllLeavesWinners(s: State, user: UserId, t: TokenId)
    requires Inv(s) && t in s.tokens && s.tokens[t].user == user
    ensures Live(Do(s, RevokeAll(user)), t) <==> s.tokens[t].pending
  {
  }

  /** If none was in flight the user stays without a session until the next login. */
  lemma {:induction false} DeadStaysDead(s: State, acts: seq<Action>, user: UserId)
    requires Inv(s) && Feasible(s, acts) && Dead(s, user)
    requires forall a <- acts :: !(a.Issue? && a.user == user)
    ensures Dead(Run(s, acts), user)
    decreases |acts|
  {
    if acts == [] {
    } else {
      StepInv(s, acts[0]);
      StepDead(s, acts[0], user);
      DeadStaysDead(Do(s, acts[0]), acts[1..], user);
    }
  }

  lemma StepDead(s: State, a: Action, user: UserId)
    requires Inv(s) && Enabled(s, a) && Dead(s, user) && !(a.Issue? && a.user == user)
    ensures Dead(Do(s, a), user)
  {
    match a
    case Reissue(r, next) =>
      var t, k := ReissueParts(s, r, next);
      FinishKills(s, r, true);
      assert Honest(s, s.reqs[r]) && Live(s, s.reqs[r].t);
    case Issue(_, _) =>
    case _ => MostOnlyKill(s, a);
  }

  lemma WinnersMeanPending(s: State, user: UserId)
    requires Inv(s)
    ensures WinnersOf(s, user) == {} <==> PendingOf(s, user) == {}
  {
    if r :| r in WinnersOf(s, user) {
      assert Honest(s, s.reqs[r]);
      assert s.reqs[r].t in PendingOf(s, user);
    }
    if t :| t in PendingOf(s, user) {
      var r :| IsWinner(s, r, t);
      assert Honest(s, s.reqs[r]);
      assert r in WinnersOf(s, user);
    }
  }

  /** If one was in flight it can still insert: a bulk revocation ends every session exactly
      when no refresh of the user is between its revoke and its insert. */
  lemma RevokeAllIsFinalIffNoWinner(s: State, user: UserId)
    requires Inv(s)
    ensures Dead(Do(s, RevokeAll(user)), user) <==> WinnersOf(s, user) == {}
  {
    WinnersMeanPending(s, user);
    forall t <- s.tokens | s.tokens[t].user == user ensures Live(Do(s, RevokeAll(user)), t) <==> t in PendingOf(s, user) {
      RevokeAllLeavesWinners(s, user, t);
    }
  }

  /** Such a winner, run to its end after the revocation, leaves the user with an active token. */
  lemma WinnerOutlivesTheWipe(s: State, r: ReqId, next: TokenId)
    requires Inv(s) && r in s.reqs && s.reqs[r].Won? && next !in s.tokens
    ensures var a := RevokeAll(s.reqs[r].user);
            var b := Reissue(r, next);
            && Enabled(s, a) && Enabled(Do(s, a), b)
            && Active(Do(Do(s, a), b).rows, next) && Do(Do(s, a), b).rows[next].user == s.reqs[r].user
  {
    var t := Do(s, RevokeAll(s.reqs[r].user));
    assert next !in t.rows;
  }

  /** The verdict on a token rotation has not consumed: it goes on to the conditional revoke exactly
      while it has not expired. */
  lemma UnconsumedIsUsableIffUnexpired(s: State, r: ReqId)
    requires Enabled(s, Check(r)) && s.reqs[r].row.revokedAt.None?
    ensures var q := s.reqs[r];
            Do(s, Check(r)) == s.(reqs := s.reqs[r := if s.now <= q.row.expires then Revoking(q.t, q.row.user) else Answered(false)])
  {
  }

  lemma {:induction false} RunOne(s: State, a: Action, rest: seq<Action>)
    requires Enabled(s, a) && Feasible(Do(s, a), rest)
    ensures Feasible(s, [a] + rest) && Run(s, [a] + rest) == Run(Do(s, a), rest)
  {
    assert ([a] + rest)[1..] == rest;
  }

  lemma {:induction false} RunTwo(s: State, a: Action, b: Action)
    requires Enabled(s, a) && Enabled(Do(s, a), b)
    ensures Feasible(s, [a, b]) && Run(s, [a, b]) == Do(Do(s, a), b)
  {
    var t := Do(s, a);
    RunOne(t, b, []);
    assert [b] + [] == [b];
    RunOne(s, a, [b]);
    assert [a] + [b] == [a, b];
  }

  /** A request that presents an active, unexpired token, with nothing in between, is let through
      to the conditional revoke; an expired one is refused. */
  lemma {:induction false} LiveTokenIsLetThrough(s: State, r: ReqId)
    requires r in s.reqs && s.reqs[r].Presented?
    requires s.reqs[r].t in s.rows && s.rows[s.reqs[r].t].revokedAt.None?
    ensures var t := s.reqs[r].t;
            && Feasible(s, [Lookup(r), Check(r)])
            && Run(s, [Lookup(r), Check(r)])
               == s.(reqs := s.reqs[r := if s.now <= s.rows[t].expires then Revoking(t, s.rows[t].user) else Answered(false)])
  {
    RunTwo(s, Lookup(r), Check(r));
    var t := s.reqs[r].t;
    assert s.reqs[r := LookedUp(t, s.rows[t])][r := Revoking(t, s.rows[t].user)] == s.reqs[r := Revoking(t, s.rows[t].user)];
    assert s.reqs[r := LookedUp(t, s.rows[t])][r := Answered(false)] == s.reqs[r := Answered(false)];
  }

  /** In any reachable state a request that has been let through, and finds its token still active,
      consumes it and leaves the user a new one for 30 days. */
  lemma LetThroughRotates(s: State, r: ReqId, next: TokenId) returns (u: State)
    requires Inv(s) && r in s.reqs && s.reqs[r].Revoking? && next !in s.tokens
    requires s.reqs[r].t in s.rows && s.rows[s.reqs[r].t].revokedAt.None?
    ensures Feasible(s, [TryRevoke(r), Reissue(r, next)]) && u == Run(s, [TryRevoke(r), Reissue(r, next)])
    ensures r in u.reqs && u.reqs[r] == Answered(true)
    ensures var t, user := s.reqs[r].t, s.reqs[r].user;
            u.rows == s.rows[t := Row(s.rows[t].user, s.rows[t].expires, Some(s.now))]
                            [next := Row(user, s.now + 2_592_000_000, None)]
  {
    RevokeWins(s, r);
    var t := Do(s, TryRevoke(r));
    assert t.reqs[r].Won?;
    InsertFollows(t, r, next);
    u := Do(t, Reissue(r, next));
    RunTwo(s, TryRevoke(r), Reissue(r, next));
  }

  lemma RevokeWins(s: State, r: ReqId)
    requires Inv(s) && r in s.reqs && s.reqs[r].Revoking?
    requires s.reqs[r].t in s.rows && s.rows[s.reqs[r].t].revokedAt.None?
    ensures var t := Do(s, TryRevoke(r));
            && Inv(t) && t.now == s.now && t.tokens.Keys == s.tokens.Keys
            && t.reqs == s.reqs[r := Won(s.reqs[r].t, s.reqs[r].user)]
            && t.rows == s.rows[s.reqs[r].t := s.rows[s.reqs[r].t].(revokedAt := Some(s.now))]
  {
    StepInv(s, TryRevoke(r));
  }

  lemma InsertFollows(s: State, r: ReqId, next: TokenId)
    requires Inv(s) && Enabled(s, Reissue(r, next))
    ensures var t := Do(s, Reissue(r, next));
            && r in t.reqs && t.reqs[r] == Answered(true)
            && t.rows == s.rows[next := Row(s.reqs[r].user, s.now + 2_592_000_000, None)]
  {
    StatementEffects(s, Reissue(r, next));
  }

  /** What each database statement does to the rows: the look-up, the revoke that lost and the
      expired clean-up touch no live row, the others exactly the rows they are for. */
  lemma StatementEffects(s: State, a: Action)
    requires Inv(s) && Enabled(s, a)
    ensures a.Lookup? ==>
              var t := s.reqs[a.r].t;
              && Do(s, a).rows == s.rows
              && Do(s, a).reqs[a.r] == if t in s.rows then LookedUp(t, s.rows[t]) else Answered(false)
    ensures a.TryRevoke? ==>
              var t := s.reqs[a.r].t;
              if t in s.rows && s.rows[t].revokedAt.None?
              then && Do(s, a).rows == s.rows[t := Row(s.rows[t].user, s.rows[t].expires, Some(s.now))]
                   && Do(s, a).reqs[a.r] == Won(t, s.reqs[a.r].user)
              else Do(s, a).rows == s.rows && Do(s, a).reqs[a.r] == Answered(false)
    ensures a.Reissue? ==> Do(s, a).rows == s.rows[a.next := Row(s.reqs[a.r].user, s.now + 2_592_000_000, None)]
                           && Do(s, a).reqs[a.r] == Answered(true)
    ensures a.Issue? ==> Do(s, a).rows == s.rows[a.next := Row(a.user, s.now + 2_592_000_000, None)]
    ensures a.Abandon? ==> Do(s, a).rows == s.rows && Do(s, a).reqs[a.r] == Answered(a.issued)
    ensures a.RevokeAll? ==> Do(s, a).rows == map t | t in s.rows && s.rows[t].user != a.user :: s.rows[t]
    ensures a.Wipe? ==> Do(s, a).rows == map t | t in s.rows && s.rows[t].user != s.reqs[a.r].user :: s.rows[t]
    ensures a.Cleanup? ==> Do(s, a).rows == map t | t in s.rows && s.rows[t].expires >= s.now :: s.rows[t]
  {
    if a.Reissue? || a.Issue? {
      assert a.next !in s.rows;
    }
  }

  /** The clock, logins, revocations and clean-up can always go on, and a request that has no answer
      can make its next step whatever the others did. */
  lemma NothingBlocks(s: State, r: ReqId, user: UserId, next: TokenId, ms: nat)
    requires next !in s.tokens
    ensures Enabled(s, Tick(ms)) && Do(s, Tick(ms)) == s.(now := s.now + ms)
    ensures Enabled(s, Issue(user, next)) && Enabled(s, RevokeAll(user)) && Enabled(s, Cleanup)
    ensures r in s.reqs ==>
              match s.reqs[r]
              case Presented(_) => Enabled(s, Lookup(r))
              case LookedUp(_, _) => Enabled(s, Check(r))
              case Wiping(_, _) => Enabled(s, Wipe(r))
              case Revoking(_, _) => Enabled(s, TryRevoke(r))
              case Won(_, _) => Enabled(s, Reissue(r, next))
              case Answered(_) => true
  {
  }
}
