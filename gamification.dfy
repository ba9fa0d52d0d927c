/**
 * The `progressPercentage` of the two UserGamificationBar components
 * (app/communities/components/gamification/UserGamificationBar.tsx and
 * components/communities/gamification/UserGamificationBar.tsx, which use
 * the same expression): the share of the next rank's experience already
 * reached, as a whole percentage capped at 100, in exact arithmetic.
 */
module Gamification {

  /**
   * Zero unless the next rank needs a positive amount of experience;
   * otherwise `floor(currentXp / nextRankXp * 100)`, capped at 100. Dafny's
   * division by a positive divisor rounds down, as `Math.floor` does.
   */
  function ProgressPercentage(currentXp: int, nextRankXp: int): int
  {
    if nextRankXp > 0 then
      var ratio := (100 * currentXp) / nextRankXp;
      if ratio < 100 then ratio else 100
    else 0
  }

  /** No positive requirement for the next rank: the bar is empty. */
  lemma ZeroWithoutNextRank(currentXp: int, nextRankXp: int)
    requires nextRankXp <= 0
    ensures ProgressPercentage(currentXp, nextRankXp) == 0
  {
  }

  /** The percentage never exceeds 100. */
  lemma AtMostHundred(currentXp: int, nextRankXp: int)
    ensures ProgressPercentage(currentXp, nextRankXp) <= 100
  {
  }

  /** Reaching the next rank's requirement fills the bar. */
  lemma FullAtThreshold(currentXp: int, nextRankXp: int)
    requires 0 < nextRankXp <= currentXp
    ensures ProgressPercentage(currentXp, nextRankXp) == 100
  {
    assert 100 * currentXp >= 100 * nextRankXp;
    assert (100 * nextRankXp) / nextRankXp == 100;
    DivMonotone(100 * nextRankXp, 100 * currentXp, nextRankXp);
  }

  /**
   * Below the requirement the percentage is the floor of the exact ratio:
   * the largest whole `p` with `p * nextRankXp <= 100 * currentXp`.
   */
  lemma FloorBelowThreshold(currentXp: int, nextRankXp: int)
    requires 0 < nextRankXp && currentXp < nextRankXp
    ensures var p := ProgressPercentage(currentXp, nextRankXp);
      p * nextRankXp <= 100 * currentXp < (p + 1) * nextRankXp
  {
    var q := (100 * currentXp) / nextRankXp;
    var m := (100 * currentXp) % nextRankXp;
    assert 100 * currentXp == q * nextRankXp + m && 0 <= m < nextRankXp;
    if q >= 100 {
      assert false;
    }
    assert (q + 1) * nextRankXp == q * nextRankXp + nextRankXp;
  }

  /** More experience never shrinks the bar. */
  lemma MonotoneInXp(lowXp: int, highXp: int, nextRankXp: int)
    requires lowXp <= highXp
    ensures ProgressPercentage(lowXp, nextRankXp) <= ProgressPercentage(highXp, nextRankXp)
  {
    if nextRankXp > 0 {
      DivMonotone(100 * lowXp, 100 * highXp, nextRankXp);
    }
  }

  /** There is no lower cap: negative experience gives a negative percentage. */
  lemma NegativeXpNegative(currentXp: int, nextRankXp: int)
    requires nextRankXp > 0 && currentXp < 0
    ensures ProgressPercentage(currentXp, nextRankXp) < 0
  {
    var q := (100 * currentXp) / nextRankXp;
    var m := (100 * currentXp) % nextRankXp;
    assert 100 * currentXp == q * nextRankXp + m && 0 <= m < nextRankXp;
    if q >= 0 {
      assert false;
    }
  }

  /** Division by a positive divisor preserves order. */
  lemma DivMonotone(a: int, b: int, d: int)
    requires a <= b && d > 0
    ensures a / d <= b / d
  {
    var qa, qb := a / d, b / d;
    assert qa * d <= a && b < (qb + 1) * d;
    MulOrder(qa, qb + 1, d);
  }

  /** With a non-negative factor, products keep the order of the other factors. */
  lemma MulOrder(x: int, y: int, d: int)
    requires d >= 0
    ensures x >= y ==> x * d >= y * d
  {
    assert x * d - y * d == (x - y) * d;
  }
}
