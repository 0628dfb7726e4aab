/**
 * An independent reference for the scale of weighing-balls/Strategy.js: a
 * balance that compares the total mass on each pan, with every genuine ball
 * of mass 10 and the outlier of mass 11 (heavy) or 9 (light). The contract's
 * rule agrees with it on pans of equal size, which are the only ones the
 * reference decision tree proposes; on pans of unequal size the contract's
 * rule ignores the sizes, because its size test compares the right pan's
 * length with itself.
 */
module Balance {
  import opened Strategy

  const GENUINE_MASS: int := 10

  /** How much heavier than a genuine ball the outlier is. */
  function Offset(weight: OutlierWeightType): int {
    if weight == Heavy then 1 else -1
  }

  function BallMass<T(==)>(b: T, outlier: T, weight: OutlierWeightType): int {
    if b == outlier then GENUINE_MASS + Offset(weight) else GENUINE_MASS
  }

  /** Total mass of the balls on one pan. */
  function Mass<T(==)>(pan: seq<T>, outlier: T, weight: OutlierWeightType): int {
    if pan == [] then 0 else BallMass(pan[0], outlier, weight) + Mass(pan[1..], outlier, weight)
  }

  /** Which way a balance with these pan masses tips. */
  function Tilt(leftMass: int, rightMass: int): ScaleRunResult {
    if leftMass > rightMass then TipToLeft
    else if leftMass < rightMass then TipToRight
    else Balanced
  }

  function PhysicalResult<T(==)>(rightSide: seq<T>, leftSide: seq<T>, outlier: T, weight: OutlierWeightType)
    : ScaleRunResult
  {
    Tilt(Mass(leftSide, outlier, weight), Mass(rightSide, outlier, weight))
  }

  /** A pan weighs ten per ball, plus the offset once for each copy of the outlier on it. */
  lemma {:induction false} MassByCount<T>(pan: seq<T>, outlier: T, weight: OutlierWeightType)
    ensures Mass(pan, outlier, weight) == GENUINE_MASS * |pan| + Offset(weight) * multiset(pan)[outlier]
  {
    if pan != [] {
      MassByCount(pan[1..], outlier, weight);
      assert pan == [pan[0]] + pan[1..];
      assert multiset(pan) == multiset{pan[0]} + multiset(pan[1..]);
    }
  }

  /**
   * On pans of equal size that do not both hold the outlier, the contract's
   * answer is the physical one.
   */
  lemma ScaleResultIsPhysical<T>(rightSide: seq<T>, leftSide: seq<T>, outlier: T, weight: OutlierWeightType)
    requires |rightSide| == |leftSide|
    requires !(outlier in rightSide && outlier in leftSide)
    ensures ScaleResult(rightSide, leftSide, outlier, weight) == PhysicalResult(rightSide, leftSide, outlier, weight)
  {
    MassByCount(rightSide, outlier, weight);
    MassByCount(leftSide, outlier, weight);
  }

  /**
   * The rule the comment above the size test describes: the pan with more
   * balls goes down; pans of equal size are decided by the outlier.
   */
  function IntendedScaleResult<T(==)>(rightSide: seq<T>, leftSide: seq<T>, outlier: T, weight: OutlierWeightType)
    : ScaleRunResult
  {
    if |rightSide| != |leftSide| then
      (if |rightSide| > |leftSide| then TipToRight else TipToLeft)
    else ScaleResult(rightSide, leftSide, outlier, weight)
  }

  /**
   * The intended rule is the physical one on every pair of pans that holds
   * the outlier at most once.
   */
  lemma IntendedScaleResultIsPhysical<T>(rightSide: seq<T>, leftSide: seq<T>, outlier: T, weight: OutlierWeightType)
    requires multiset(rightSide)[outlier] + multiset(leftSide)[outlier] <= 1
    ensures IntendedScaleResult(rightSide, leftSide, outlier, weight) == PhysicalResult(rightSide, leftSide, outlier, weight)
  {
    MassByCount(rightSide, outlier, weight);
    MassByCount(leftSide, outlier, weight);
    if |rightSide| == |leftSide| {
      ScaleResultIsPhysical(rightSide, leftSide, outlier, weight);
    }
  }

  /**
   * The contract's rule as written: two genuine balls against one balance,
   * although the pan with two balls is the heavier one.
   */
  lemma SizeTestIsDead()
    ensures ScaleResult(["1", "2"], ["3"], "4", Heavy) == Balanced
    ensures PhysicalResult(["1", "2"], ["3"], "4", Heavy) == TipToRight
    ensures IntendedScaleResult(["1", "2"], ["3"], "4", Heavy) == TipToRight
  {
    assert "4" !in ["1", "2"] + ["3"];
    MassByCount(["1", "2"], "4", Heavy);
    MassByCount(["3"], "4", Heavy);
  }
}
