/** 2d6 dice rules (utils/dice.ts): critical detection, the exact probability
    table of the sum of two six-sided dice, the chance of meeting a target with
    a modifier, the description ladders for probabilities and difficulty
    classes, and advantage/disadvantage. The dice themselves are drawn by the
    caller and passed in; probabilities are exact rationals over 36. */
module Dice {
  import opened Common

  datatype DiceRoll = DiceRoll(die1: int, die2: int, natural: int)

  datatype CriticalType = NoCritical | CriticalSuccess | CriticalFailure

  /** `roll2d6` once its two dice have been drawn. */
  function Roll2d6(die1: int, die2: int): DiceRoll {
    DiceRoll(die1, die2, die1 + die2)
  }

  /** `rollDie` on its cryptographic path: a 32-bit word mapped to a face. */
  function DieFromRandomWord(w: nat): (face: int)
    requires w < 0x1_0000_0000
    ensures 1 <= face <= 6
  {
    w % 6 + 1
  }

  /** `rollDie` on its fallback path: `Math.floor(x * 6) + 1` for `x` in [0, 1). */
  function DieFromUnitInterval(x: real): (face: int)
    requires 0.0 <= x < 1.0
    ensures 1 <= face <= 6
  {
    (x * 6.0).Floor + 1
  }

  function GetCriticalType(roll: DiceRoll): (c: CriticalType)
    ensures c == CriticalSuccess <==> roll.natural == 12
    ensures c == CriticalFailure <==> roll.natural == 2
  {
    if roll.natural == 12 then CriticalSuccess
    else if roll.natural == 2 then CriticalFailure
    else NoCritical
  }

  predicate IsSnakeEyes(roll: DiceRoll) {
    roll.die1 == 1 && roll.die2 == 1
  }

  predicate IsBoxcars(roll: DiceRoll) {
    roll.die1 == 6 && roll.die2 == 6
  }

  /** For real dice, a critical failure is exactly snake eyes and a critical
      success exactly boxcars. */
  lemma CriticalMatchesDoubles(roll: DiceRoll)
    requires 1 <= roll.die1 <= 6 && 1 <= roll.die2 <= 6
    requires roll.natural == roll.die1 + roll.die2
    ensures GetCriticalType(roll) == CriticalFailure <==> IsSnakeEyes(roll)
    ensures GetCriticalType(roll) == CriticalSuccess <==> IsBoxcars(roll)
  {
  }

  // ------------------------------------------------------------------
  // The probability table
  // ------------------------------------------------------------------

  /** Ways out of 36 of rolling each sum 2..12; any other sum has none
      (the source's `probabilityTable[roll] || 0`). */
  const WaysTable: seq<nat> := [1, 2, 3, 4, 5, 6, 5, 4, 3, 2, 1]

  function Ways(sum: int): nat {
    if 2 <= sum <= 12 then WaysTable[sum - 2] else 0
  }

  function ProbabilityOf(sum: int): real {
    Ways(sum) as real / 36.0
  }

  /** 1 when a die can show `x`, else 0. */
  function Face(x: int): nat {
    if 1 <= x <= 6 then 1 else 0
  }

  /** Independent count of the ordered pairs of faces that add up to `sum`:
      the first die shows d, the second `sum - d`. */
  function PairsSumming(sum: int): nat {
    Face(sum - 1) + Face(sum - 2) + Face(sum - 3) + Face(sum - 4) + Face(sum - 5) + Face(sum - 6)
  }

  /** The table counts exactly the pairs of faces with each sum. */
  lemma WaysCountsPairs(sum: int)
    ensures Ways(sum) == PairsSumming(sum)
  {
  }

  /** Ways of rolling `target` or more. */
  function TailWays(target: int): nat
    decreases 13 - target
  {
    if target > 12 then 0 else Ways(target) + TailWays(target + 1)
  }

  /** The table's probabilities add up to 1. */
  lemma TableSumsToOne()
    ensures TailWays(2) == 36
    ensures TailWays(2) as real / 36.0 == 1.0
  {
  }

  /** `successProbability(dc, modifier)`, as a value. */
  function SuccessChance(dc: int, modifier: int): real {
    var target := dc - modifier;
    if target <= 2 then 35.0 / 36.0
    else if target > 12 then 0.0
    else TailWays(target) as real / 36.0
  }

  /** The source's loop: sum the table from the target up to 12. */
  method SuccessProbability(dc: int, modifier: int) returns (p: real)
    ensures p == SuccessChance(dc, modifier)
  {
    var target := dc - modifier;
    if target <= 2 {
      return 35.0 / 36.0;
    }
    if target > 12 {
      return 0.0;
    }
    p := 0.0;
    var roll := target;
    while roll <= 12
      invariant target <= roll <= 13
      invariant p == (TailWays(target) - TailWays(roll)) as real / 36.0
      decreases 13 - roll
    {
      p := p + ProbabilityOf(roll);
      roll := roll + 1;
    }
  }

  lemma {:induction false} TailWaysMonotone(a: int, b: int)
    requires a <= b
    ensures TailWays(b) <= TailWays(a)
    decreases b - a
  {
    if a < b {
      TailWaysMonotone(a + 1, b);
    }
  }

  /** The chance depends only on `dc - modifier`. */
  lemma SuccessChanceDependsOnDifference(dc: int, modifier: int, k: int)
    ensures SuccessChance(dc + k, modifier + k) == SuccessChance(dc, modifier)
  {
  }

  lemma SuccessChanceBounds(dc: int, modifier: int)
    ensures 0.0 <= SuccessChance(dc, modifier) <= 35.0 / 36.0
  {
    var target := dc - modifier;
    if 2 < target <= 12 {
      TailWaysMonotone(3, target);
      assert TailWays(3) == 35;
    }
  }

  /** A harder check is never more likely to succeed. */
  lemma SuccessChanceMonotoneInDc(dc1: int, dc2: int, modifier: int)
    requires dc1 <= dc2
    ensures SuccessChance(dc2, modifier) <= SuccessChance(dc1, modifier)
  {
    var t1, t2 := dc1 - modifier, dc2 - modifier;
    SuccessChanceBounds(dc2, modifier);
    if 2 < t1 && t2 <= 12 {
      TailWaysMonotone(t1, t2);
    }
  }

  /** A larger modifier never lowers the chance. */
  lemma SuccessChanceMonotoneInModifier(dc: int, m1: int, m2: int)
    requires m1 <= m2
    ensures SuccessChance(dc, m1) <= SuccessChance(dc, m2)
  {
    SuccessChanceDependsOnDifference(dc - m2 + m1, m1, m2 - m1);
    SuccessChanceMonotoneInDc(dc - m2 + m1, dc, m1);
  }

  /** The success rule of a rolled skill check, stated on the natural roll and the
      target `dc - modifier`: boxcars always wins, snake eyes always loses,
      otherwise the natural must reach the target. */
  predicate WinsWith(natural: int, target: int) {
    natural == 12 || (natural != 2 && natural >= target)
  }

  /** Ways out of 36, over the sums `n`..12, of winning against `target`. */
  function WinningWays(target: int, n: int): nat
    decreases 13 - n
  {
    if n > 12 then 0 else (if WinsWith(n, target) then Ways(n) else 0) + WinningWays(target, n + 1)
  }

  lemma {:induction false} WinningWaysTail(target: int, n: int)
    requires 3 <= n
    ensures WinningWays(target, n) ==
      if target <= 12 then TailWays(Max(n, target)) else if n <= 12 then 1 else 0
    decreases 13 - n
  {
    if n <= 12 {
      WinningWaysTail(target, n + 1);
    }
  }

  /** `successProbability` is the exact chance that a rolled check wins whenever
      the target is at most 12; above 12 it says 0 although boxcars still wins
      1 time in 36. */
  lemma SuccessChanceVersusWinningRolls(dc: int, modifier: int)
    ensures var target := dc - modifier;
      WinningWays(target, 2) as real / 36.0 ==
        if target > 12 then 1.0 / 36.0 else SuccessChance(dc, modifier)
  {
    var target := dc - modifier;
    WinningWaysTail(target, 3);
    assert TailWays(3) == 35;
  }

  // ------------------------------------------------------------------
  // Description ladders
  // ------------------------------------------------------------------

  function GetProbabilityDescription(p: real): string {
    if p >= 0.95 then "Almost Certain"
    else if p >= 0.85 then "Very Likely"
    else if p >= 0.70 then "Likely"
    else if p >= 0.50 then "Even Odds"
    else if p >= 0.35 then "Unlikely"
    else if p >= 0.15 then "Very Unlikely"
    else if p > 0.0 then "Nearly Impossible"
    else "Impossible"
  }

  /** Position of a probability description on the ladder, 0 for 'Impossible'. */
  function ProbabilityRank(description: string): int {
    if description == "Almost Certain" then 7
    else if description == "Very Likely" then 6
    else if description == "Likely" then 5
    else if description == "Even Odds" then 4
    else if description == "Unlikely" then 3
    else if description == "Very Unlikely" then 2
    else if description == "Nearly Impossible" then 1
    else 0
  }

  lemma ProbabilityDescriptionLadder(p: real, q: real)
    requires p <= q
    ensures ProbabilityRank(GetProbabilityDescription(p)) <= ProbabilityRank(GetProbabilityDescription(q))
    ensures GetProbabilityDescription(p) == "Impossible" <==> p <= 0.0
  {
  }

  function GetProbabilityColor(p: real): (color: string)
    ensures color == "text-green-400" <==> ProbabilityRank(GetProbabilityDescription(p)) >= 5
  {
    if p >= 0.70 then "text-green-400"
    else if p >= 0.40 then "text-yellow-400"
    else "text-red-400"
  }

  const DcTrivial := 6
  const DcEasy := 8
  const DcModerate := 10
  const DcHard := 12
  const DcVeryHard := 14
  const DcExtreme := 16
  const DcLegendary := 18

  function GetDCDescription(dc: int): string {
    if dc <= 6 then "Trivial"
    else if dc <= 8 then "Easy"
    else if dc <= 10 then "Moderate"
    else if dc <= 12 then "Hard"
    else if dc <= 14 then "Very Hard"
    else if dc <= 16 then "Extreme"
    else "Legendary"
  }

  function DcRank(description: string): int {
    if description == "Trivial" then 0
    else if description == "Easy" then 1
    else if description == "Moderate" then 2
    else if description == "Hard" then 3
    else if description == "Very Hard" then 4
    else if description == "Extreme" then 5
    else 6
  }

  /** Each named constant gets its own name, and the description never gets
      easier as the DC rises. */
  lemma DCDescriptionLadder(dc1: int, dc2: int)
    requires dc1 <= dc2
    ensures DcRank(GetDCDescription(dc1)) <= DcRank(GetDCDescription(dc2))
    ensures GetDCDescription(DcTrivial) == "Trivial" && GetDCDescription(DcEasy) == "Easy"
    ensures GetDCDescription(DcModerate) == "Moderate" && GetDCDescription(DcHard) == "Hard"
    ensures GetDCDescription(DcVeryHard) == "Very Hard" && GetDCDescription(DcExtreme) == "Extreme"
    ensures GetDCDescription(DcLegendary) == "Legendary"
  {
  }

  // ------------------------------------------------------------------
  // Advantage and disadvantage
  // ------------------------------------------------------------------

  /** Of two rolls, the higher natural; the first on a tie. */
  function WithAdvantage(roll1: DiceRoll, roll2: DiceRoll): (r: DiceRoll)
    ensures r == roll1 || r == roll2
    ensures r.natural >= roll1.natural && r.natural >= roll2.natural
    ensures roll1.natural == roll2.natural ==> r == roll1
  {
    if roll1.natural >= roll2.natural then roll1 else roll2
  }

  /** Of two rolls, the lower natural; the first on a tie. */
  function WithDisadvantage(roll1: DiceRoll, roll2: DiceRoll): (r: DiceRoll)
    ensures r == roll1 || r == roll2
    ensures r.natural <= roll1.natural && r.natural <= roll2.natural
    ensures roll1.natural == roll2.natural ==> r == roll1
  {
    if roll1.natural <= roll2.natural then roll1 else roll2
  }
}
