/**
 * The fixed ternary decision tree of weighing-balls/OptimalStrategy.js.
 * The tree names balls only by their position in the list of twelve: a
 * weighing puts the balls at some positions on each pan, a verdict names
 * the ball at one position. A `null` child ("this should never happen")
 * is the explicit `Unreachable` case.
 */
module DecisionTrees {
  import opened Wrappers
  import opened Strategy

  datatype Tree =
    | Verdict(position: nat)
    | Weighing(leftSide: seq<nat>, rightSide: seq<nat>, onBalanced: Tree, onTipToLeft: Tree, onTipToRight: Tree)
    | Unreachable

  function Size(t: Tree): nat {
    match t
    case Weighing(_, _, b, l, r) => 1 + Size(b) + Size(l) + Size(r)
    case _ => 1
  }

  /** The child a weighing's answer leads to (`node.next[result]`). */
  function Next(t: Tree, result: ScaleRunResult): (child: Tree)
    requires t.Weighing?
    ensures Size(child) < Size(t)
  {
    match result
    case Balanced => t.onBalanced
    case TipToLeft => t.onTipToLeft
    case TipToRight => t.onTipToRight
  }

  /** The root weighing: balls 0 to 3 against balls 4 to 7. */
  function FirstWeighing(onBalanced: Tree, onTipToLeft: Tree, onTipToRight: Tree): Tree {
    Weighing([0, 1, 2, 3], [4, 5, 6, 7], onBalanced, onTipToLeft, onTipToRight)
  }

  /** DECISION_TREE as the source writes it. */
  const DecisionTree: Tree := FirstWeighing(BalancedBranch, LeftDownBranch, RightDownBranch)

  /** After 0..3 balanced 4..7: the outlier is one of 8 to 11. */
  const BalancedBranch: Tree :=
    Weighing([8], [9],
      Weighing([9], [10], Verdict(11), Verdict(10), Verdict(10)),
      Weighing([8], [10], Verdict(9), Verdict(8), Unreachable),
      Weighing([8], [10], Verdict(9), Unreachable, Verdict(8)))

  /** After the left pan went down, as written. */
  const LeftDownBranch: Tree :=
    Weighing([0, 1, 6], [2, 3, 7],
      Weighing([6], [0], Verdict(7), Verdict(4), Unreachable),
      Weighing([0], [1], Verdict(5), Verdict(0), Verdict(1)),
      Weighing([2], [3], Verdict(4), Verdict(2), Verdict(3)))

  /** After the right pan went down, as written. */
  const RightDownBranch: Tree :=
    Weighing([0, 1, 4], [2, 3, 5],
      Weighing([0], [6], Verdict(7), Unreachable, Verdict(6)),
      Weighing([2], [3], Verdict(4), Verdict(3), Verdict(2)),
      Weighing([0], [1], Verdict(4), Verdict(1), Verdict(0)))

  /**
   * The tree its comments describe. After the left pan went down, weigh
   * 0, 1, 4 against 2, 3, 5; if that balances, 6 against 0 tips right
   * exactly when 6 is light. After the right pan went down and 0, 1, 4
   * rose, a balanced 0 against 1 leaves 5 heavy.
   */
  const CorrectedTree: Tree := FirstWeighing(BalancedBranch, CorrectedLeftDownBranch, CorrectedRightDownBranch)

  const CorrectedLeftDownBranch: Tree :=
    Weighing([0, 1, 4], [2, 3, 5],
      Weighing([6], [0], Verdict(7), Unreachable, Verdict(6)),
      Weighing([0], [1], Verdict(5), Verdict(0), Verdict(1)),
      Weighing([2], [3], Verdict(4), Verdict(2), Verdict(3)))

  const CorrectedRightDownBranch: Tree :=
    Weighing([0, 1, 4], [2, 3, 5],
      Weighing([0], [6], Verdict(7), Unreachable, Verdict(6)),
      Weighing([2], [3], Verdict(4), Verdict(3), Verdict(2)),
      Weighing([0], [1], Verdict(5), Verdict(1), Verdict(0)))

  /** Every position a weighing or a verdict names is below `n`. */
  predicate PositionsBelow(t: Tree, n: nat) {
    match t
    case Verdict(p) => p < n
    case Weighing(l, r, b, tl, tr) =>
      AllBelow(l, n) && AllBelow(r, n) &&
      PositionsBelow(b, n) && PositionsBelow(tl, n) && PositionsBelow(tr, n)
    case Unreachable => true
  }

  predicate AllBelow(ps: seq<nat>, n: nat) {
    forall i :: 0 <= i < |ps| ==> ps[i] < n
  }

  /**
   * Every weighing puts as many balls on the left as on the right, and no
   * position twice, so the two pans never share a ball.
   */
  predicate PansBalanced(t: Tree) {
    match t
    case Weighing(l, r, b, tl, tr) =>
      |l| == |r| && Distinct(l + r) &&
      PansBalanced(b) && PansBalanced(tl) && PansBalanced(tr)
    case _ => true
  }

  /**
   * Every verdict and every null child is exactly `depth` answers below `t`,
   * so the weighings (where `getOutlierBall` gives no verdict) are the nodes
   * above that depth.
   */
  predicate LeavesAtDepth(t: Tree, depth: nat) {
    match t
    case Weighing(_, _, b, tl, tr) =>
      depth > 0 && LeavesAtDepth(b, depth - 1) && LeavesAtDepth(tl, depth - 1) && LeavesAtDepth(tr, depth - 1)
    case _ => depth == 0
  }

  function CountWeighings(t: Tree): nat {
    match t
    case Weighing(_, _, b, tl, tr) => 1 + CountWeighings(b) + CountWeighings(tl) + CountWeighings(tr)
    case _ => 0
  }

  function CountVerdicts(t: Tree): nat {
    match t
    case Verdict(_) => 1
    case Weighing(_, _, b, tl, tr) => CountVerdicts(b) + CountVerdicts(tl) + CountVerdicts(tr)
    case Unreachable => 0
  }

  function CountUnreachable(t: Tree): nat {
    match t
    case Unreachable => 1
    case Weighing(_, _, b, tl, tr) => CountUnreachable(b) + CountUnreachable(tl) + CountUnreachable(tr)
    case Verdict(_) => 0
  }

  /** Where a walk down the tree stops, and after how many weighings. */
  datatype Stop = Stop(node: Tree, weighings: nat)

  /** One more weighing on the way to the same stop. */
  function After(s: Stop): Stop {
    Stop(s.node, s.weighings + 1)
  }

  /**
   * The walk `runStrategy` makes when the outlier is the ball at position
   * `p` with the given weight: every weighing is answered by the contract's
   * rule, read on positions.
   */
  function Trace(t: Tree, p: nat, weight: OutlierWeightType): (s: Stop)
    ensures !s.node.Weighing?
  {
    match t
    case Weighing(l, r, b, tl, tr) =>
      (match ScaleResult(r, l, p, weight)
       case Balanced => After(Trace(b, p, weight))
       case TipToLeft => After(Trace(tl, p, weight))
       case TipToRight => After(Trace(tr, p, weight)))
    case _ => Stop(t, 0)
  }

  /** The five ground truths for which DecisionTree names the wrong ball. */
  predicate Misidentified(p: nat, weight: OutlierWeightType) {
    (weight == Light && 4 <= p <= 7) || (weight == Heavy && p == 5)
  }

  /** The position DecisionTree names for each ground truth. */
  function AsWrittenVerdict(p: nat, weight: OutlierWeightType): (v: nat)
    ensures v == p <==> !Misidentified(p, weight)
  {
    if weight == Light && (p == 4 || p == 5) then 7
    else if weight == Light && p == 6 then 4
    else if weight == Light && p == 7 then 5
    else if weight == Heavy && p == 5 then 4
    else p
  }

  /** The ground truths for which 0..3 against 4..7 tips left. */
  predicate LeftGoesDown(p: nat, weight: OutlierWeightType) {
    (p < 4 && weight == Heavy) || (4 <= p < 8 && weight == Light)
  }

  /** The ground truths for which 0..3 against 4..7 tips right. */
  predicate RightGoesDown(p: nat, weight: OutlierWeightType) {
    (p < 4 && weight == Light) || (4 <= p < 8 && weight == Heavy)
  }

  /** The first weighing sends each ground truth to the branch for its answer. */
  lemma FirstWeighingTrace(b: Tree, l: Tree, r: Tree, p: nat, weight: OutlierWeightType)
    requires p < NUMBER_OF_BALLS
    ensures var s := Trace(FirstWeighing(b, l, r), p, weight);
      && (8 <= p ==> s == After(Trace(b, p, weight)))
      && (LeftGoesDown(p, weight) ==> s == After(Trace(l, p, weight)))
      && (RightGoesDown(p, weight) ==> s == After(Trace(r, p, weight)))
  {
  }

  lemma BalancedBranchTrace(p: nat, weight: OutlierWeightType)
    requires 8 <= p < NUMBER_OF_BALLS
    ensures Trace(BalancedBranch, p, weight) == Stop(Verdict(p), 2)
  {
  }

  lemma LeftDownBranchTrace(p: nat, weight: OutlierWeightType)
    requires LeftGoesDown(p, weight)
    ensures Trace(LeftDownBranch, p, weight) == Stop(Verdict(AsWrittenVerdict(p, weight)), 2)
  {
  }

  lemma RightDownBranchTrace(p: nat, weight: OutlierWeightType)
    requires RightGoesDown(p, weight)
    ensures Trace(RightDownBranch, p, weight) == Stop(Verdict(AsWrittenVerdict(p, weight)), 2)
  {
  }

  lemma CorrectedLeftDownBranchTrace(p: nat, weight: OutlierWeightType)
    requires LeftGoesDown(p, weight)
    ensures Trace(CorrectedLeftDownBranch, p, weight) == Stop(Verdict(p), 2)
  {
  }

  lemma CorrectedRightDownBranchTrace(p: nat, weight: OutlierWeightType)
    requires RightGoesDown(p, weight)
    ensures Trace(CorrectedRightDownBranch, p, weight) == Stop(Verdict(p), 2)
  {
  }

  /**
   * For every ground truth the as-written tree makes exactly three
   * weighings, never reaches a null child, and names the ball at
   * AsWrittenVerdict(p, weight).
   */
  lemma DecisionTreeTrace(p: nat, weight: OutlierWeightType)
    requires p < NUMBER_OF_BALLS
    ensures Trace(DecisionTree, p, weight) == Stop(Verdict(AsWrittenVerdict(p, weight)), 3)
  {
    FirstWeighingTrace(BalancedBranch, LeftDownBranch, RightDownBranch, p, weight);
    if 8 <= p {
      BalancedBranchTrace(p, weight);
    } else if LeftGoesDown(p, weight) {
      LeftDownBranchTrace(p, weight);
    } else {
      RightDownBranchTrace(p, weight);
    }
  }

  /** The as-written tree names the outlier for the nineteen other ground truths. */
  lemma DecisionTreeFindsOutlier(p: nat, weight: OutlierWeightType)
    requires p < NUMBER_OF_BALLS && !Misidentified(p, weight)
    ensures Trace(DecisionTree, p, weight).node == Verdict(p)
  {
    DecisionTreeTrace(p, weight);
  }

  /** The as-written tree names another ball for the five misidentified ground truths. */
  lemma DecisionTreeMisidentifies(p: nat, weight: OutlierWeightType)
    requires Misidentified(p, weight)
    ensures Trace(DecisionTree, p, weight).node != Verdict(p)
  {
    DecisionTreeTrace(p, weight);
  }

  /** The corrected tree names the outlier in three weighings for all 24 ground truths. */
  lemma CorrectedTreeTrace(p: nat, weight: OutlierWeightType)
    requires p < NUMBER_OF_BALLS
    ensures Trace(CorrectedTree, p, weight) == Stop(Verdict(p), 3)
  {
    FirstWeighingTrace(BalancedBranch, CorrectedLeftDownBranch, CorrectedRightDownBranch, p, weight);
    if 8 <= p {
      BalancedBranchTrace(p, weight);
    } else if LeftGoesDown(p, weight) {
      CorrectedLeftDownBranchTrace(p, weight);
    } else {
      CorrectedRightDownBranchTrace(p, weight);
    }
  }

  /**
   * The as-written tree has 13 weighings, 23 verdicts and 4 null children,
   * and every verdict and null child is three answers below the root.
   */
  lemma DecisionTreeShape()
    ensures LeavesAtDepth(DecisionTree, 3)
    ensures CountWeighings(DecisionTree) == 13
    ensures CountVerdicts(DecisionTree) == 23
    ensures CountUnreachable(DecisionTree) == 4
  {
    BalancedBranchShape();
    LeftDownBranchShape();
    RightDownBranchShape();
  }

  lemma BalancedBranchShape()
    ensures LeavesAtDepth(BalancedBranch, 2)
    ensures CountWeighings(BalancedBranch) == 4 && CountVerdicts(BalancedBranch) == 7
    ensures CountUnreachable(BalancedBranch) == 2
  {
  }

  lemma LeftDownBranchShape()
    ensures LeavesAtDepth(LeftDownBranch, 2)
    ensures CountWeighings(LeftDownBranch) == 4 && CountVerdicts(LeftDownBranch) == 8
    ensures CountUnreachable(LeftDownBranch) == 1
  {
  }

  lemma RightDownBranchShape()
    ensures LeavesAtDepth(RightDownBranch, 2)
    ensures CountWeighings(RightDownBranch) == 4 && CountVerdicts(RightDownBranch) == 8
    ensures CountUnreachable(RightDownBranch) == 1
  {
  }

  /** A tree whose weighings all use positions 0 to 11, on balanced pans. */
  predicate WellFormed(t: Tree) {
    PositionsBelow(t, NUMBER_OF_BALLS) && PansBalanced(t)
  }

  lemma FirstWeighingWellFormed(b: Tree, l: Tree, r: Tree)
    requires WellFormed(b) && WellFormed(l) && WellFormed(r)
    ensures WellFormed(FirstWeighing(b, l, r))
  {
    var left, right := [0, 1, 2, 3], [4, 5, 6, 7];
    assert AllBelow(left, NUMBER_OF_BALLS) && AllBelow(right, NUMBER_OF_BALLS);
    assert Distinct(left + right);
  }

  lemma BalancedBranchWellFormed()
    ensures WellFormed(BalancedBranch)
  {
  }

  lemma LeftDownBranchWellFormed()
    ensures WellFormed(LeftDownBranch)
  {
  }

  lemma RightDownBranchWellFormed()
    ensures WellFormed(RightDownBranch)
  {
  }

  lemma CorrectedLeftDownBranchWellFormed()
    ensures WellFormed(CorrectedLeftDownBranch)
  {
  }

  lemma CorrectedRightDownBranchWellFormed()
    ensures WellFormed(CorrectedRightDownBranch)
  {
  }

  /**
   * Every weighing of the as-written tree uses positions 0 to 11, with
   * pans of equal size that share no position.
   */
  lemma DecisionTreeWeighings()
    ensures PositionsBelow(DecisionTree, NUMBER_OF_BALLS)
    ensures PansBalanced(DecisionTree)
  {
    BalancedBranchWellFormed();
    LeftDownBranchWellFormed();
    RightDownBranchWellFormed();
    FirstWeighingWellFormed(BalancedBranch, LeftDownBranch, RightDownBranch);
  }

  lemma CorrectedTreeWeighings()
    ensures PositionsBelow(CorrectedTree, NUMBER_OF_BALLS)
    ensures PansBalanced(CorrectedTree)
  {
    BalancedBranchWellFormed();
    CorrectedLeftDownBranchWellFormed();
    CorrectedRightDownBranchWellFormed();
    FirstWeighingWellFormed(BalancedBranch, CorrectedLeftDownBranch, CorrectedRightDownBranch);
  }
}
