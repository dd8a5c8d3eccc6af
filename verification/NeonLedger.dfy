/** The Neon economy: purchases credit balances, gifts move balance into room tubes. */
module NeonLedger {
  import opened Options
  import opened NeonTube

  type UserId = nat
  type RoomId = nat

  datatype Purchase = Purchase(user: UserId, amount: nat)
  datatype Gift = Gift(from: UserId, room: RoomId, amount: nat)

  /** The rows: balances of the users, the creator of each room, purchase and gift history,
      and the tubes of the rooms that ever received a gift. */
  datatype Books = Books(balances: map<UserId, int>, creators: map<RoomId, Option<UserId>>,
                         purchases: seq<Purchase>, gifts: seq<Gift>, tubes: map<RoomId, Tube>)

  datatype SpendResult = Spent | Insufficient | Failed
  datatype SendResult = BadAmount | NoRoom | OwnRoom | NotSent(why: SpendResult) | Sent(tube: Tube, poweredUp: bool)

  function TubeOf(b: Books, room: RoomId): Tube {
    if room in b.tubes then b.tubes[room] else EMPTY_TUBE
  }

  /** An unknown user breaks the purchase's foreign key, a balance past INT is out of range;
      both roll the transaction back. */
  function Credit(b: Books, user: UserId, amount: nat): Books {
    if user !in b.balances || b.balances[user] + amount > MAX_INT then b
    else b.(balances := b.balances[user := b.balances[user] + amount],
            purchases := b.purchases + [Purchase(user, amount)])
  }

  function SpendOutcome(b: Books, from: UserId, room: RoomId, amount: nat): SpendResult {
    if from !in b.balances || b.balances[from] < amount then Insufficient
    else if room !in b.creators then Failed
    else if TubeOf(b, room).fillAmount + amount > MAX_INT || TubeOf(b, room).totalNeon + amount > MAX_BIGINT then Failed
    else Spent
  }

  function Spend(b: Books, from: UserId, room: RoomId, amount: nat): Books {
    if SpendOutcome(b, from, room, amount).Spent? then
      b.(balances := b.balances[from := b.balances[from] - amount],
         gifts := b.gifts + [Gift(from, room, amount)],
         tubes := b.tubes[room := Tip(TubeOf(b, room), amount)])
    else b
  }

  function Settled(b: Books, room: RoomId): Books {
    if room in b.tubes then b.(tubes := b.tubes[room := Settle(b.tubes[room], TUBE_LEVELS, MAX_LEVEL)]) else b
  }

  class NeonStore {
    var balances: map<UserId, int>
    var creators: map<RoomId, Option<UserId>>
    var purchases: seq<Purchase>
    var gifts: seq<Gift>
    var tubes: map<RoomId, Tube>

    constructor (users: set<UserId>, creators: map<RoomId, Option<UserId>>)
      ensures View() == Opening(users, creators)
    {
      this.balances, this.creators := map u | u in users :: 0, creators;
      this.purchases, this.gifts, this.tubes := [], [], map[];
    }

    function View(): Books
      reads this
    {
      Books(balances, creators, purchases, gifts, tubes)
    }

    method CreditNeon(user: UserId, amount: nat) returns (ok: bool)
      modifies this
      ensures ok <==> user in old(balances) && old(balances)[user] + amount <= 0x7fff_ffff
      ensures ok ==> balances == old(balances)[user := old(balances)[user] + amount]
                     && purchases == old(purchases) + [Purchase(user, amount)]
      ensures !ok ==> balances == old(balances) && purchases == old(purchases)
      ensures creators == old(creators) && gifts == old(gifts) && tubes == old(tubes)
      ensures View() == Credit(old(View()), user, amount)
    {
      if user !in balances || balances[user] + amount > MAX_INT {
        return false;
      }
      balances := balances[user := balances[user] + amount];
      purchases := purchases + [Purchase(user, amount)];
      return true;
    }

    method SpendNeon(from: UserId, room: RoomId, amount: nat) returns (r: SpendResult)
      modifies this
      ensures r == Insufficient <==> from !in old(balances) || old(balances)[from] < amount
      ensures r == Spent <==>
                && from in old(balances) && old(balances)[from] >= amount && room in old(creators)
                && (if room in old(tubes) then old(tubes)[room].fillAmount else 0) + amount <= 0x7fff_ffff
                && (if room in old(tubes) then old(tubes)[room].totalNeon else 0) + amount <= 0x7fff_ffff_ffff_ffff
      ensures r == Spent ==>
                && balances == old(balances)[from := old(balances)[from] - amount]
                && gifts == old(gifts) + [Gift(from, room, amount)]
                && tubes == old(tubes)[room :=
                     if room in old(tubes) then
                       var t := old(tubes)[room];
                       Tube(t.level, t.fillAmount + amount, t.fillTarget, t.totalNeon + amount)
                     else Tube(1, amount, 100, amount)]
      ensures r != Spent ==> balances == old(balances) && gifts == old(gifts) && tubes == old(tubes)
      ensures creators == old(creators) && purchases == old(purchases)
      ensures r == SpendOutcome(old(View()), from, room, amount)
      ensures View() == Spend(old(View()), from, room, amount)
    {
      // UPDATE users ... AND neon_balance >= amount
      if from !in balances || balances[from] < amount {
        return Insufficient;
      }
      var balance := balances[from] - amount;
      // both inserts refer to the room
      if room !in creators {
        return Failed;
      }
      // insert the tube or add to it
      var tube := if room in tubes then tubes[room] else EMPTY_TUBE;
      var fill, total := tube.fillAmount + amount, tube.totalNeon + amount;
      if fill > MAX_INT || total > MAX_BIGINT {
        return Failed;
      }
      balances := balances[from := balance];
      gifts := gifts + [Gift(from, room, amount)];
      tubes := tubes[room := tube.(fillAmount := fill, totalNeon := total)];
      return Spent;
    }

    method ResolveTubeOverflow(room: RoomId) returns (tube: Tube, leveled: bool)
      modifies this
      ensures room !in old(tubes) ==> tube == Tube(1, 0, 100, 0) && !leveled && tubes == old(tubes)
      ensures room in old(tubes) ==>
                && tubes == old(tubes)[room := tube]
                && tube.totalNeon == old(tubes)[room].totalNeon
                && (tube.fillTarget <= 0 || tube.fillAmount < tube.fillTarget)
                && (leveled <==> old(tubes)[room].fillTarget > 0 && old(tubes)[room].fillAmount >= old(tubes)[room].fillTarget)
                && (!leveled ==> tube == old(tubes)[room])
      ensures View() == Settled(old(View()), room)
      ensures tube == Settle(TubeOf(old(View()), room), TUBE_LEVELS, MAX_LEVEL)
      ensures leveled == Overfull(TubeOf(old(View()), room))
    {
      if room !in tubes {
        return EMPTY_TUBE, false;
      }
      tube, leveled := Resolve(tubes[room], TUBE_LEVELS, MAX_LEVEL);
      tubes := tubes[room := tube];
    }

    /** The handler: checks, the spend, then the settlement. `settles` says whether the second
        transaction goes through; if not, the gift stands and the tube is shown as it is. */
    method SendNeon(user: UserId, room: RoomId, amount: int, settles: bool) returns (r: SendResult)
      modifies this
      ensures r.Sent? <==> 1 <= amount <= 10000 && room in old(creators) && old(creators)[room] != Some(user)
                           && SpendOutcome(old(View()), user, room, amount).Spent?
      ensures r.Sent? ==> View() == (if settles then Settled(Spend(old(View()), user, room, amount), room)
                                     else Spend(old(View()), user, room, amount))
                          && room in View().tubes && r.tube == View().tubes[room]
                          && r.poweredUp == (settles && Overfull(Tip(TubeOf(old(View()), room), amount)))
      ensures !r.Sent? ==> View() == old(View())
    {
      if amount < 1 || amount > 10000 {
        return BadAmount;
      }
      if room !in creators {
        return NoRoom;
      }
      if creators[room] == Some(user) {
        return OwnRoom;
      }
      var spent := SpendNeon(user, room, amount);
      if spent != Spent {
        return NotSent(spent);
      }
      if !settles {
        return Sent(tubes[room], false);
      }
      var tube, leveled := ResolveTubeOverflow(room);
      return Sent(tube, leveled);
    }
  }

  function Opening(users: set<UserId>, creators: map<RoomId, Option<UserId>>): Books {
    Books(map u | u in users :: 0, creators, [], [], map[])
  }

  /** One committed or rolled back transaction. */
  datatype Tx = Credited(user: UserId, amount: nat) | Gave(from: UserId, room: RoomId, amount: nat) | Resolved(room: RoomId)

  function Commit(b: Books, tx: Tx): Books {
    match tx
    case Credited(user, amount) => Credit(b, user, amount)
    case Gave(from, room, amount) => Spend(b, from, room, amount)
    case Resolved(room) => Settled(b, room)
  }

  function CommitAll(b: Books, txs: seq<Tx>): Books
    decreases |txs|
  {
    if txs == [] then b else CommitAll(Commit(b, txs[0]), txs[1..])
  }

  function Bought(ps: seq<Purchase>, user: UserId): int {
    if ps == [] then 0
    else Bought(ps[..|ps|-1], user) + if ps[|ps|-1].user == user then ps[|ps|-1].amount else 0
  }

  function Given(gs: seq<Gift>, user: UserId): int {
    if gs == [] then 0
    else Given(gs[..|gs|-1], user) + if gs[|gs|-1].from == user then gs[|gs|-1].amount else 0
  }

  function Received(gs: seq<Gift>, room: RoomId): int {
    if gs == [] then 0
    else Received(gs[..|gs|-1], room) + if gs[|gs|-1].room == room then gs[|gs|-1].amount else 0
  }

  function Issued(ps: seq<Purchase>): int {
    if ps == [] then 0 else Issued(ps[..|ps|-1]) + ps[|ps|-1].amount
  }

  /** The sum over some keys of a map. */
  ghost function Sum(m: map<nat, int>, keys: set<nat>): int
    requires keys <= m.Keys
    decreases keys
  {
    if keys == {} then 0 else var k :| k in keys; m[k] + Sum(m, keys - {k})
  }

  lemma {:induction false} SumSplit(m: map<nat, int>, keys: set<nat>, k: nat)
    requires keys <= m.Keys && k in keys
    ensures Sum(m, keys) == m[k] + Sum(m, keys - {k})
    decreases keys
  {
    var pick :| pick in keys && Sum(m, keys) == m[pick] + Sum(m, keys - {pick});
    if pick != k {
      SumSplit(m, keys - {pick}, k);
      SumSplit(m, keys - {k}, pick);
      assert keys - {pick} - {k} == keys - {k} - {pick};
    }
  }

  lemma {:induction false} SumAgrees(m: map<nat, int>, n: map<nat, int>, keys: set<nat>)
    requires keys <= m.Keys && keys <= n.Keys && forall k <- keys :: m[k] == n[k]
    ensures Sum(m, keys) == Sum(n, keys)
    decreases keys
  {
    if keys != {} {
      var k :| k in keys;
      SumSplit(m, keys, k);
      SumSplit(n, keys, k);
      SumAgrees(m, n, keys - {k});
    }
  }

  /** Changing or adding one entry changes the sum by that much. */
  lemma SumUpdate(m: map<nat, int>, k: nat, v: int)
    ensures Sum(m[k := v], m[k := v].Keys) == Sum(m, m.Keys) - (if k in m then m[k] else 0) + v
  {
    var n := m[k := v];
    SumSplit(n, n.Keys, k);
    assert n.Keys - {k} == m.Keys - {k};
    SumAgrees(m, n, m.Keys - {k});
    if k in m {
      SumSplit(m, m.Keys, k);
    } else {
      assert m.Keys - {k} == m.Keys;
    }
  }

  function Totals(tubes: map<RoomId, Tube>): map<RoomId, int> {
    map r | r in tubes :: tubes[r].totalNeon
  }

  predicate UsersAgree(b: Books) {
    forall u <- b.balances ::
      0 <= b.balances[u] <= MAX_INT && b.balances[u] == Bought(b.purchases, u) - Given(b.gifts, u)
  }

  ghost predicate RoomsAgree(b: Books) {
    forall r: RoomId :: TubeOf(b, r).totalNeon == Received(b.gifts, r)
  }

  ghost predicate TubesAgree(b: Books) {
    forall r <- b.tubes :: exists laps :: Accounts(b.tubes[r], TUBE_LEVELS, MAX_LEVEL, laps)
  }

  ghost predicate WholeAgrees(b: Books) {
    Wealth(b) == Issued(b.purchases)
  }

  ghost predicate Balanced(b: Books) {
    UsersAgree(b) && RoomsAgree(b) && TubesAgree(b) && WholeAgrees(b)
  }

  lemma CreditUsers(b: Books, user: UserId, amount: nat)
    requires UsersAgree(b)
    ensures UsersAgree(Credit(b, user, amount))
  {
    var c := Credit(b, user, amount);
    if c != b {
      assert c.purchases[..|c.purchases|-1] == b.purchases;
    }
  }

  lemma CreditWhole(b: Books, user: UserId, amount: nat)
    requires WholeAgrees(b)
    ensures WholeAgrees(Credit(b, user, amount))
  {
    CreditWealth(b, user, amount);
    IssuedOneMore(b.purchases, Purchase(user, amount));
    assert Credit(b, user, amount).purchases == if Fits(b, user, amount) then b.purchases + [Purchase(user, amount)] else b.purchases;
  }

  lemma {:induction false} IssuedOneMore(ps: seq<Purchase>, p: Purchase)
    ensures Issued(ps + [p]) == Issued(ps) + p.amount
  {
    assert (ps + [p])[..|ps|] == ps;
  }

  lemma SameRooms(b: Books, c: Books)
    requires RoomsAgree(b) && c.tubes == b.tubes && c.gifts == b.gifts
    ensures RoomsAgree(c)
  {
    forall r: RoomId ensures TubeOf(c, r).totalNeon == Received(c.gifts, r) {
      assert TubeOf(b, r).totalNeon == Received(b.gifts, r);
    }
  }

  lemma SameTubes(b: Books, c: Books)
    requires TubesAgree(b) && c.tubes == b.tubes
    ensures TubesAgree(c)
  {
  }

  lemma CreditBalanced(b: Books, user: UserId, amount: nat)
    requires Balanced(b)
    ensures Balanced(Credit(b, user, amount))
  {
    CreditUsers(b, user, amount);
    CreditWhole(b, user, amount);
    SameRooms(b, Credit(b, user, amount));
    SameTubes(b, Credit(b, user, amount));
  }

  lemma SpendUsers(b: Books, from: UserId, room: RoomId, amount: nat)
    requires UsersAgree(b) && SpendOutcome(b, from, room, amount).Spent?
    ensures UsersAgree(Spend(b, from, room, amount))
  {
    var c := Spend(b, from, room, amount);
    assert c.gifts[..|c.gifts|-1] == b.gifts;
  }

  lemma SpendRooms(b: Books, from: UserId, room: RoomId, amount: nat)
    requires RoomsAgree(b) && SpendOutcome(b, from, room, amount).Spent?
    ensures RoomsAgree(Spend(b, from, room, amount))
  {
    var c := Spend(b, from, room, amount);
    assert c.gifts[..|c.gifts|-1] == b.gifts;
    forall r: RoomId ensures TubeOf(c, r).totalNeon == Received(c.gifts, r) {
      assert TubeOf(b, r).totalNeon == Received(b.gifts, r);
    }
  }

  lemma SpendTubes(b: Books, from: UserId, room: RoomId, amount: nat)
    requires TubesAgree(b) && SpendOutcome(b, from, room, amount).Spent?
    ensures TubesAgree(Spend(b, from, room, amount))
  {
    var laps: nat := 0;
    if room in b.tubes {
      laps :| Accounts(b.tubes[room], TUBE_LEVELS, MAX_LEVEL, laps);
    }
    assert Accounts(Tip(TubeOf(b, room), amount), TUBE_LEVELS, MAX_LEVEL, laps);
  }

  lemma SpendWhole(b: Books, from: UserId, room: RoomId, amount: nat)
    requires WholeAgrees(b) && SpendOutcome(b, from, room, amount).Spent?
    ensures WholeAgrees(Spend(b, from, room, amount))
  {
    SpendWealth(b, from, room, amount);
  }

  lemma SpendBalanced(b: Books, from: UserId, room: RoomId, amount: nat)
    requires Balanced(b)
    ensures Balanced(Spend(b, from, room, amount))
  {
    if SpendOutcome(b, from, room, amount).Spent? {
      SpendUsers(b, from, room, amount);
      SpendRooms(b, from, room, amount);
      SpendTubes(b, from, room, amount);
      SpendWhole(b, from, room, amount);
    }
  }

  lemma SettledTubes(b: Books, room: RoomId)
    requires TubesAgree(b) && room in b.tubes
    ensures TubesAgree(Settled(b, room)) && TubeOf(Settled(b, room), room).totalNeon == b.tubes[room].totalNeon
  {
    var laps :| Accounts(b.tubes[room], TUBE_LEVELS, MAX_LEVEL, laps);
    var later := SettleAccounts(b.tubes[room], TUBE_LEVELS, MAX_LEVEL, laps);
  }

  lemma SettledBalanced(b: Books, room: RoomId)
    requires Balanced(b)
    ensures Balanced(Settled(b, room))
  {
    if room in b.tubes {
      var c := Settled(b, room);
      SettledTubes(b, room);
      SettledRooms(b, room);
      SettledWealth(b, room);
      assert UsersAgree(c) && WholeAgrees(c);
    }
  }

  lemma SettledRooms(b: Books, room: RoomId)
    requires RoomsAgree(b) && room in b.tubes
    requires TubeOf(Settled(b, room), room).totalNeon == b.tubes[room].totalNeon
    ensures RoomsAgree(Settled(b, room))
  {
    var c := Settled(b, room);
    forall r: RoomId ensures TubeOf(c, r).totalNeon == Received(c.gifts, r) {
      assert TubeOf(b, r).totalNeon == Received(b.gifts, r);
    }
  }

  /** After any interleaving of transactions: no balance is negative, each balance is what its
      user bought minus what they gave, each tube's total is what the room was given, and
      balances plus tube totals are exactly the Neon ever issued. */
  lemma {:induction false} NeonIsConserved(b: Books, txs: seq<Tx>)
    requires Balanced(b)
    ensures Balanced(CommitAll(b, txs))
    decreases |txs|
  {
    if txs == [] {
    } else {
      match txs[0] {
        case Credited(user, amount) => CreditBalanced(b, user, amount);
        case Gave(from, room, amount) => SpendBalanced(b, from, room, amount);
        case Resolved(room) => SettledBalanced(b, room);
      }
      NeonIsConserved(Commit(b, txs[0]), txs[1..]);
    }
  }

  /** What the purchases among some transactions issue, judged by the books each one meets: all of
      it to a known user whose balance stays within an INT column, nothing otherwise. */
  function Minted(b: Books, txs: seq<Tx>): int
    decreases |txs|
  {
    if txs == [] then 0
    else (if txs[0].Credited? && Fits(b, txs[0].user, txs[0].amount) then txs[0].amount else 0)
         + Minted(Commit(b, txs[0]), txs[1..])
  }

  /** Everything users hold and rooms have received. */
  ghost function Wealth(b: Books): int {
    Sum(b.balances, b.balances.Keys) + Sum(Totals(b.tubes), Totals(b.tubes).Keys)
  }

  /** A purchase goes through for a known user whose balance stays within an INT column. */
  predicate Fits(b: Books, user: UserId, amount: nat) {
    user in b.balances && b.balances[user] + amount <= 0x7fff_ffff
  }

  lemma CreditWealth(b: Books, user: UserId, amount: nat)
    ensures Wealth(Credit(b, user, amount)) == Wealth(b) + if Fits(b, user, amount) then amount else 0
    ensures Credit(b, user, amount).purchases == b.purchases + if Fits(b, user, amount) then [Purchase(user, amount)] else []
  {
    if Fits(b, user, amount) {
      SumUpdate(b.balances, user, b.balances[user] + amount);
    }
  }

  lemma SpendWealth(b: Books, from: UserId, room: RoomId, amount: nat)
    ensures Wealth(Spend(b, from, room, amount)) == Wealth(b)
  {
    if SpendOutcome(b, from, room, amount).Spent? {
      var c := Spend(b, from, room, amount);
      SumUpdate(b.balances, from, b.balances[from] - amount);
      SumUpdate(Totals(b.tubes), room, TubeOf(b, room).totalNeon + amount);
      assert Totals(c.tubes) == Totals(b.tubes)[room := TubeOf(b, room).totalNeon + amount];
    }
  }

  lemma {:induction false} SettleKeepsTotal(t: Tube, targets: map<int, int>, maxLevel: int)
    ensures Settle(t, targets, maxLevel).totalNeon == t.totalNeon
    decreases t.fillAmount
  {
    if Overfull(t) {
      SettleKeepsTotal(LevelUp(t, targets, maxLevel), targets, maxLevel);
    }
  }

  lemma SettledWealth(b: Books, room: RoomId)
    ensures Wealth(Settled(b, room)) == Wealth(b)
  {
    if room in b.tubes {
      SettleKeepsTotal(b.tubes[room], TUBE_LEVELS, MAX_LEVEL);
      assert Totals(Settled(b, room).tubes) == Totals(b.tubes);
    }
  }

  /** From any books and over any history the wealth grows by exactly what the purchases that
      could go through issued: gifts and settlements neither make nor destroy Neon. */
  lemma {:induction false} OnlyPurchasesIssue(b: Books, txs: seq<Tx>)
    ensures Wealth(CommitAll(b, txs)) == Wealth(b) + Minted(b, txs)
    decreases |txs|
  {
    if txs != [] {
      match txs[0] {
        case Credited(user, amount) => CreditWealth(b, user, amount);
        case Gave(from, room, amount) => SpendWealth(b, from, room, amount);
        case Resolved(room) => SettledWealth(b, room);
      }
      OnlyPurchasesIssue(Commit(b, txs[0]), txs[1..]);
    }
  }

  lemma OpeningBalanced(users: set<UserId>, creators: map<RoomId, Option<UserId>>)
    ensures Balanced(Opening(users, creators))
  {
    var b := Opening(users, creators);
    ZeroSum(b.balances, b.balances.Keys);
  }

  lemma {:induction false} ZeroSum(m: map<nat, int>, keys: set<nat>)
    requires keys <= m.Keys && forall k <- keys :: m[k] == 0
    ensures Sum(m, keys) == 0
    decreases keys
  {
    if keys != {} {
      var k :| k in keys;
      SumSplit(m, keys, k);
      ZeroSum(m, keys - {k});
    }
  }
}
