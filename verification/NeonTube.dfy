/** A room's neon tube: tips fill it, overflow levels it up and wraps around. Whatever the
    order of tips and settlements, a settled tube is a function of the lifetime total. */
module NeonTube {

  /** Largest value of the INT columns and of the BIGINT column total_neon. */
  const MAX_INT: int := 0x7fff_ffff
  const MAX_BIGINT: int := 0x7fff_ffff_ffff_ffff

  datatype Tube = Tube(level: int, fillAmount: int, fillTarget: int, totalNeon: int)

  /** The row the first tip inserts, before the tip is added. */
  const EMPTY_TUBE := Tube(1, 0, 100, 0)

  /** The level table as the handler passes it to the store. */
  const TUBE_LEVELS: map<int, int> := map[1 := 100, 2 := 250, 3 := 500, 4 := 1000, 5 := 2000]
  const MAX_LEVEL: int := 5

  function LevelTarget(targets: map<int, int>, level: int): (target: int)
    ensures target > 0
    ensures level in targets && targets[level] > 0 ==> target == targets[level]
    ensures level !in targets || targets[level] <= 0 ==> target == 100
  {
    if level in targets && targets[level] > 0 then targets[level] else 100
  }

  predicate Overfull(t: Tube) {
    t.fillTarget > 0 && t.fillAmount >= t.fillTarget
  }

  function LevelUp(t: Tube, targets: map<int, int>, maxLevel: int): Tube {
    var next := if t.level + 1 > maxLevel then 1 else t.level + 1;
    t.(level := next, fillAmount := t.fillAmount - t.fillTarget, fillTarget := LevelTarget(targets, next))
  }

  function Settle(t: Tube, targets: map<int, int>, maxLevel: int): Tube
    decreases t.fillAmount
  {
    if Overfull(t) then Settle(LevelUp(t, targets, maxLevel), targets, maxLevel) else t
  }

  /** The settlement loop. */
  method Resolve(tube: Tube, levelTargets: map<int, int>, maxLevel: int) returns (settled: Tube, leveled: bool)
    ensures settled == Settle(tube, levelTargets, maxLevel)
    ensures leveled <==> tube.fillTarget > 0 && tube.fillAmount >= tube.fillTarget
    ensures settled.fillTarget <= 0 || settled.fillAmount < settled.fillTarget
    ensures settled.totalNeon == tube.totalNeon && (!leveled ==> settled == tube)
  {
    settled, leveled := tube, false;
    while settled.fillTarget > 0 && settled.fillAmount >= settled.fillTarget
      invariant Settle(settled, levelTargets, maxLevel) == Settle(tube, levelTargets, maxLevel)
      invariant settled.totalNeon == tube.totalNeon && (leveled || settled == tube)
      invariant leveled ==> Overfull(tube)
      decreases settled.fillAmount
    {
      var overflow := settled.fillAmount - settled.fillTarget;
      var next := settled.level + 1;
      if next > maxLevel {
        next := 1;
      }
      var target := if next in levelTargets then levelTargets[next] else 0;
      if next !in levelTargets || target <= 0 {
        target := 100;
      }
      settled := settled.(level := next, fillAmount := overflow, fillTarget := target);
      leveled := true;
    }
  }

  /** A tip's effect on the row; out of range columns abort the transaction. */
  function Tip(t: Tube, amount: int): Tube {
    if t.fillAmount + amount > MAX_INT || t.totalNeon + amount > MAX_BIGINT then t
    else t.(fillAmount := t.fillAmount + amount, totalNeon := t.totalNeon + amount)
  }

  /** A tip that keeps both columns in range is added to both, any other changes nothing. */
  lemma TipIsAllOrNothing(t: Tube, amount: int)
    ensures if t.fillAmount + amount <= 0x7fff_ffff && t.totalNeon + amount <= 0x7fff_ffff_ffff_ffff
            then Tip(t, amount) == Tube(t.level, t.fillAmount + amount, t.fillTarget, t.totalNeon + amount)
            else Tip(t, amount) == t
  {
  }

  /** Neon needed to climb from level 1 to `level`, and around once. */
  function Below(targets: map<int, int>, level: int): int
    decreases level
  {
    if level <= 1 then 0 else Below(targets, level - 1) + LevelTarget(targets, level - 1)
  }

  function Lap(targets: map<int, int>, maxLevel: int): int {
    Below(targets, maxLevel + 1)
  }

  /** `laps` full laps, the levels below the current one, and the fill make up the total. */
  predicate Accounts(t: Tube, targets: map<int, int>, maxLevel: int, laps: nat) {
    && 1 <= t.level <= maxLevel
    && t.fillAmount >= 0
    && t.fillTarget == LevelTarget(targets, t.level)
    && t.totalNeon == Lap(targets, maxLevel) * laps + Below(targets, t.level) + t.fillAmount
  }

  lemma LevelUpAccounts(t: Tube, targets: map<int, int>, maxLevel: int, laps: nat) returns (later: nat)
    requires Accounts(t, targets, maxLevel, laps) && Overfull(t)
    ensures Accounts(LevelUp(t, targets, maxLevel), targets, maxLevel, later)
  {
    later := if t.level + 1 > maxLevel then laps + 1 else laps;
    assert Below(targets, t.level + 1) == Below(targets, t.level) + LevelTarget(targets, t.level);
    OneMoreLap(Lap(targets, maxLevel), laps);
  }

  lemma OneMoreLap(lap: int, laps: nat)
    ensures lap * (laps + 1) == lap * laps + lap
  {
  }

  lemma {:induction false} SettleAccounts(t: Tube, targets: map<int, int>, maxLevel: int, laps: nat) returns (later: nat)
    requires Accounts(t, targets, maxLevel, laps)
    ensures Accounts(Settle(t, targets, maxLevel), targets, maxLevel, later)
    ensures 0 <= Settle(t, targets, maxLevel).fillAmount < Settle(t, targets, maxLevel).fillTarget
    ensures Settle(t, targets, maxLevel).totalNeon == t.totalNeon
    decreases t.fillAmount
  {
    if Overfull(t) {
      later := LevelUpAccounts(t, targets, maxLevel, laps);
      later := SettleAccounts(LevelUp(t, targets, maxLevel), targets, maxLevel, later);
    } else {
      later := laps;
    }
  }

  /** What happens to one tube: a tip of any size, or a settlement. */
  datatype Event = Tipped(amount: nat) | Resolved

  function Apply(t: Tube, e: Event, targets: map<int, int>, maxLevel: int): Tube {
    match e
    case Tipped(amount) => Tip(t, amount)
    case Resolved => Settle(t, targets, maxLevel)
  }

  function ApplyAll(t: Tube, events: seq<Event>, targets: map<int, int>, maxLevel: int): Tube
    decreases |events|
  {
    if events == [] then t else ApplyAll(Apply(t, events[0], targets, maxLevel), events[1..], targets, maxLevel)
  }

  lemma {:induction false} HistoryAccounts(t: Tube, events: seq<Event>, targets: map<int, int>, maxLevel: int, laps: nat)
    returns (later: nat)
    requires Accounts(t, targets, maxLevel, laps)
    ensures Accounts(ApplyAll(t, events, targets, maxLevel), targets, maxLevel, later)
    decreases |events|
  {
    if events == [] {
      later := laps;
    } else {
      later := laps;
      if events[0].Resolved? {
        later := SettleAccounts(t, targets, maxLevel, laps);
      }
      later := HistoryAccounts(Apply(t, events[0], targets, maxLevel), events[1..], targets, maxLevel, later);
    }
  }

  lemma {:induction false} BelowGrows(targets: map<int, int>, low: int, high: int)
    requires 1 <= low < high
    ensures Below(targets, low) + LevelTarget(targets, low) <= Below(targets, high)
    decreases high
  {
    if low + 1 < high {
      BelowGrows(targets, low, high - 1);
    }
  }

  lemma {:induction false} AtLeastOneLap(lap: nat, a: nat, b: nat)
    requires a < b
    ensures lap * b >= lap * a + lap
    decreases b
  {
    if a + 1 < b {
      AtLeastOneLap(lap, a, b - 1);
    }
    assert lap * b == lap * (b - 1) + lap;
  }

  /** The lap count of a settled tube is fixed by its total. */
  lemma SameLaps(lap: nat, a: nat, x: int, b: nat, y: int)
    requires 0 <= x < lap && 0 <= y < lap
    requires lap * a + x == lap * b + y
    ensures a == b && x == y
  {
    if a < b {
      AtLeastOneLap(lap, a, b);
    } else if b < a {
      AtLeastOneLap(lap, b, a);
    }
  }

  /** Settled tubes with the same total are the same tube. */
  lemma SettledIsUnique(t: Tube, u: Tube, targets: map<int, int>, maxLevel: int, a: nat, b: nat)
    requires Accounts(t, targets, maxLevel, a) && Accounts(u, targets, maxLevel, b)
    requires !Overfull(t) && !Overfull(u) && t.totalNeon == u.totalNeon
    ensures t == u
  {
    BelowGrows(targets, t.level, maxLevel + 1);
    BelowGrows(targets, u.level, maxLevel + 1);
    BelowAtLeast(targets, t.level);
    BelowAtLeast(targets, u.level);
    SameLaps(Lap(targets, maxLevel), a, Below(targets, t.level) + t.fillAmount, b, Below(targets, u.level) + u.fillAmount);
    if t.level < u.level {
      BelowGrows(targets, t.level, u.level);
    } else if u.level < t.level {
      BelowGrows(targets, u.level, t.level);
    }
  }

  lemma {:induction false} BelowAtLeast(targets: map<int, int>, level: int)
    ensures Below(targets, level) >= 0
    decreases level
  {
    if level > 1 {
      BelowAtLeast(targets, level - 1);
    }
  }

  /** For every level table whose first target is the 100 the insert hard-codes: however the
      lifetime total was split into tips, and wherever settlements fell between them,
      settling gives the same level and fill. */
  lemma {:induction false} SplitDoesNotMatter(xs: seq<Event>, ys: seq<Event>, targets: map<int, int>, maxLevel: int)
    requires maxLevel >= 1 && LevelTarget(targets, 1) == 100
    requires ApplyAll(EMPTY_TUBE, xs, targets, maxLevel).totalNeon == ApplyAll(EMPTY_TUBE, ys, targets, maxLevel).totalNeon
    ensures Settle(ApplyAll(EMPTY_TUBE, xs, targets, maxLevel), targets, maxLevel)
         == Settle(ApplyAll(EMPTY_TUBE, ys, targets, maxLevel), targets, maxLevel)
  {
    var a := HistoryAccounts(EMPTY_TUBE, xs, targets, maxLevel, 0);
    var b := HistoryAccounts(EMPTY_TUBE, ys, targets, maxLevel, 0);
    var t, u := ApplyAll(EMPTY_TUBE, xs, targets, maxLevel), ApplyAll(EMPTY_TUBE, ys, targets, maxLevel);
    a := SettleAccounts(t, targets, maxLevel, a);
    b := SettleAccounts(u, targets, maxLevel, b);
    SettledIsUnique(Settle(t, targets, maxLevel), Settle(u, targets, maxLevel), targets, maxLevel, a, b);
  }

  /** Neon below each level of the program's own table. */
  function Climbed(level: int): int {
    if level <= 1 then 0 else if level == 2 then 100 else if level == 3 then 350 else if level == 4 then 850 else 1850
  }

  lemma {:induction false} TableSums(level: int)
    requires 1 <= level <= MAX_LEVEL
    ensures Below(TUBE_LEVELS, level) == Climbed(level) && Lap(TUBE_LEVELS, MAX_LEVEL) == 3850
  {
    assert Below(TUBE_LEVELS, 1) == 0;
    assert Below(TUBE_LEVELS, 2) == 100;
    assert Below(TUBE_LEVELS, 3) == 350;
    assert Below(TUBE_LEVELS, 4) == 850;
    assert Below(TUBE_LEVELS, 5) == 1850;
    assert Below(TUBE_LEVELS, 6) == 3850;
  }

  /** With the program's table: at every moment the total is whole laps of 3850, the levels
      below, and the fill; and a settled tube reads off total modulo 3850. */
  lemma {:induction false} TubeReadsTotal(events: seq<Event>)
    ensures var t := ApplyAll(EMPTY_TUBE, events, TUBE_LEVELS, MAX_LEVEL);
            && 1 <= t.level <= MAX_LEVEL && t.fillTarget == TUBE_LEVELS[t.level]
            && (exists laps: nat :: t.totalNeon == 3850 * laps + Climbed(t.level) + t.fillAmount)
    ensures var t := ApplyAll(EMPTY_TUBE, events, TUBE_LEVELS, MAX_LEVEL);
            var s := Settle(t, TUBE_LEVELS, MAX_LEVEL);
            && s.totalNeon == t.totalNeon && 0 <= s.fillAmount < s.fillTarget
            && s.totalNeon % 3850 == Climbed(s.level) + s.fillAmount
  {
    var t := ApplyAll(EMPTY_TUBE, events, TUBE_LEVELS, MAX_LEVEL);
    var laps := HistoryAccounts(EMPTY_TUBE, events, TUBE_LEVELS, MAX_LEVEL, 0);
    TableSums(t.level);
    assert t.totalNeon == 3850 * laps + Climbed(t.level) + t.fillAmount;
    var s := Settle(t, TUBE_LEVELS, MAX_LEVEL);
    laps := SettleAccounts(t, TUBE_LEVELS, MAX_LEVEL, laps);
    TableSums(s.level);
    Remainder(s.totalNeon, laps, Climbed(s.level) + s.fillAmount);
  }

  lemma Remainder(total: int, laps: nat, rest: int)
    requires total == 3850 * laps + rest && 0 <= rest < 3850
    ensures total % 3850 == rest
  {
  }
}
