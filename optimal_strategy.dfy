/**
 * `OptimalStrategy.runStrategy` of weighing-balls/OptimalStrategy.js: walk
 * a decision tree from its root, weighing through the contract object until
 * a node gives a verdict, then submit that verdict.
 */
module OptimalStrategy {
  import opened Wrappers
  import opened Strategy
  import opened DecisionTrees

  /** Why a run stopped without submitting a ball. */
  datatype RunError =
    | ScaleRefused(error: Error)  // `__useScale` raised
    | NullChild                   // `nullthrows` raised on a "should never happen" child

  /**
   * The balls at the given positions: one pan of `getRun(balls)`. On
   * distinct balls, a ball is on the pan exactly when its position is.
   */
  function Pick(balls: seq<BallId>, positions: seq<nat>): (pan: seq<BallId>)
    requires AllBelow(positions, |balls|)
    ensures |pan| == |positions|
    ensures forall i :: 0 <= i < |pan| ==> pan[i] == balls[positions[i]]
    ensures Distinct(balls) ==> forall p :: 0 <= p < |balls| ==> (balls[p] in pan <==> p in positions)
  {
    var pan := seq(|positions|, i requires 0 <= i < |positions| => balls[positions[i]]);
    assert Distinct(balls) ==> forall p :: 0 <= p < |balls| ==> (balls[p] in pan <==> p in positions) by {
      if Distinct(balls) {
        forall p | 0 <= p < |balls| ensures balls[p] in pan <==> p in positions {
          if balls[p] in pan {
            var i :| 0 <= i < |pan| && pan[i] == balls[p];
            assert positions[i] == p;
          }
          if p in positions {
            var i :| 0 <= i < |positions| && positions[i] == p;
            assert pan[i] == balls[p];
          }
        }
      }
    }
    pan
  }

  /** `node.getOutlierBall(balls)`: no verdict at a weighing. */
  function GetOutlierBall(node: Tree, balls: seq<BallId>): Option<BallId>
    requires !node.Unreachable? && PositionsBelow(node, |balls|)
  {
    if node.Verdict? then Some(balls[node.position]) else None
  }

  /**
   * `node.getRun(balls)`. On distinct balls, a node whose positions do not
   * repeat yields pans that pass every check of `__useScale`.
   */
  function GetRun(node: Tree, balls: seq<BallId>): (run: ScaleRun)
    requires node.Weighing? && PositionsBelow(node, |balls|)
    ensures |run.leftSide| == |node.leftSide| && |run.rightSide| == |node.rightSide|
    ensures Distinct(balls) && Distinct(node.leftSide + node.rightSide) ==>
      LegalWeighing(balls, run.rightSide, run.leftSide)
  {
    var run := ScaleRun(Pick(balls, node.leftSide), Pick(balls, node.rightSide));
    assert Distinct(balls) && Distinct(node.leftSide + node.rightSide) ==>
      LegalWeighing(balls, run.rightSide, run.leftSide) by {
      if Distinct(balls) && Distinct(node.leftSide + node.rightSide) {
        PickedPansLegal(balls, node.leftSide, node.rightSide);
      }
    }
    run
  }

  /** How a run ends, and the weighings it recorded on the way. */
  datatype Run = Run(result: Result<BallId, RunError>, scaleRuns: seq<ScaleRun>)

  /**
   * The run from `node` on against a contract in status `status` whose
   * balls are `known` and whose hidden truth is `outlier` with `weight`.
   */
  function Walk(node: Tree, balls: seq<BallId>, status: StrategyStatus, known: seq<BallId>,
                outlier: BallId, weight: OutlierWeightType): (w: Run)
    requires PositionsBelow(node, |balls|)
    ensures w.result.Ok? ==> w.result.value in balls
    ensures forall i :: 0 <= i < |w.scaleRuns| ==> LegalWeighing(known, w.scaleRuns[i].rightSide, w.scaleRuns[i].leftSide)
    ensures status != RunningStrategy ==>
      w.scaleRuns == [] && (node.Weighing? ==> w.result == Err(ScaleRefused(NotRunning)))
  {
    match node
    case Unreachable => Run(Err(NullChild), [])
    case Verdict(p) => Run(Ok(balls[p]), [])
    case Weighing(_, _, b, tl, tr) =>
      var run := GetRun(node, balls);
      match CheckScale(status, known, run.rightSide, run.leftSide)
      case Fail(e) => Run(Err(ScaleRefused(e)), [])
      case Pass =>
        var rest := match ScaleResult(run.rightSide, run.leftSide, outlier, weight)
          case Balanced => Walk(b, balls, status, known, outlier, weight)
          case TipToLeft => Walk(tl, balls, status, known, outlier, weight)
          case TipToRight => Walk(tr, balls, status, known, outlier, weight);
        assert forall i :: 1 <= i < 1 + |rest.scaleRuns| ==> ([run] + rest.scaleRuns)[i] == rest.scaleRuns[i - 1];
        Run(rest.result, [run] + rest.scaleRuns)
  }

  /**
   * The loop of `runStrategy`, for any tree: the run it makes and the state
   * it leaves are the ones Walk describes; a successful run is submitted.
   */
  method RunTree(s: Strategy, tree: Tree, balls: seq<BallId>) returns (r: Result<BallId, RunError>)
    requires s.Valid()
    requires PositionsBelow(tree, |balls|)
    modifies s
    ensures s.Valid()
    ensures var w := Walk(tree, balls, old(s.strategyStatus), old(s.balls), old(s.outlierBall), old(s.outlierWeightType));
      r == w.result && s.scaleRuns == old(s.scaleRuns) + w.scaleRuns
    ensures s.strategyStatus == if r.Ok? then RunComplete else old(s.strategyStatus)
    ensures s.balls == old(s.balls) && s.outlierBall == old(s.outlierBall)
    ensures s.outlierWeightType == old(s.outlierWeightType)
  {
    ghost var status, known, outlier, weight := s.strategyStatus, s.balls, s.outlierBall, s.outlierWeightType;
    ghost var whole := Walk(tree, balls, status, known, outlier, weight);
    if tree.Unreachable? {
      return Err(NullChild);
    }
    var node := tree;
    var outlierBall := GetOutlierBall(node, balls);
    while outlierBall.None?
      invariant !node.Unreachable? && PositionsBelow(node, |balls|)
      invariant outlierBall == GetOutlierBall(node, balls)
      invariant s.Valid()
      invariant s.balls == known && s.outlierBall == outlier
      invariant s.outlierWeightType == weight && s.strategyStatus == status
      invariant var rest := Walk(node, balls, status, known, outlier, weight);
        whole.result == rest.result && old(s.scaleRuns) + whole.scaleRuns == s.scaleRuns + rest.scaleRuns
      decreases Size(node)
    {
      var run := GetRun(node, balls);
      var result := s.UseScale(run.rightSide, run.leftSide);
      if result.Err? {
        return Err(ScaleRefused(result.error));
      }
      WalkStep(node, balls, status, known, outlier, weight);
      var child := Next(node, result.value);
      if child.Unreachable? {
        return Err(NullChild);
      }
      node := child;
      outlierBall := GetOutlierBall(node, balls);
    }
    s.SubmitOutlierBall(outlierBall.value);
    r := Ok(outlierBall.value);
  }

  /** One accepted weighing: the walk records it and goes on from the child the answer picks. */
  lemma WalkStep(node: Tree, balls: seq<BallId>, status: StrategyStatus, known: seq<BallId>,
                 outlier: BallId, weight: OutlierWeightType)
    requires node.Weighing? && PositionsBelow(node, |balls|)
    requires CheckScale(status, known, GetRun(node, balls).rightSide, GetRun(node, balls).leftSide).Pass?
    ensures var run := GetRun(node, balls);
      var child := Next(node, ScaleResult(run.rightSide, run.leftSide, outlier, weight));
      && PositionsBelow(child, |balls|)
      && var rest := Walk(child, balls, status, known, outlier, weight);
      Walk(node, balls, status, known, outlier, weight) == Run(rest.result, [run] + rest.scaleRuns)
  {
  }

  /** Position of a ball in the list. */
  function IndexOf(balls: seq<BallId>, b: BallId): (i: nat)
    requires b in balls
    ensures i < |balls| && balls[i] == b
    ensures forall j :: 0 <= j < i ==> balls[j] != b
  {
    if balls[0] == b then 0 else 1 + IndexOf(balls[1..], b)
  }

  /** In a list of distinct balls, a ball's position is where it is found. */
  lemma IndexOfDistinct(balls: seq<BallId>, p: nat)
    requires Distinct(balls) && p < |balls|
    ensures IndexOf(balls, balls[p]) == p
  {
  }

  /**
   * `OptimalStrategy.runStrategy`: the walk of DecisionTree. When the run
   * was started by `initialize` on the same balls, it weighs exactly three
   * times, completes, and submits the ball AsWrittenVerdict picks for the
   * outlier's position and weight.
   */
  method RunStrategy(s: Strategy, balls: seq<BallId>) returns (r: Result<BallId, RunError>)
    requires s.Valid()
    requires |balls| == NUMBER_OF_BALLS
    modifies s
    ensures s.Valid()
    ensures var w := Walk(DecisionTree, balls, old(s.strategyStatus), old(s.balls), old(s.outlierBall), old(s.outlierWeightType));
      r == w.result && s.scaleRuns == old(s.scaleRuns) + w.scaleRuns
    ensures old(s.strategyStatus) == RunningStrategy && balls == old(s.balls) ==>
      && old(s.outlierBall) in balls
      && r == Ok(balls[AsWrittenVerdict(IndexOf(balls, old(s.outlierBall)), old(s.outlierWeightType))])
      && s.strategyStatus == RunComplete
      && |s.scaleRuns| == |old(s.scaleRuns)| + 3
    ensures s.strategyStatus == if r.Ok? then RunComplete else old(s.strategyStatus)
    ensures s.balls == old(s.balls) && s.outlierBall == old(s.outlierBall)
    ensures s.outlierWeightType == old(s.outlierWeightType)
  {
    assert NUMBER_OF_BALLS == 12;
    DecisionTreeWeighings();
    ghost var started := s.strategyStatus == RunningStrategy && balls == s.balls;
    if started {
      DecisionTreeRun(balls, IndexOf(balls, s.outlierBall), s.outlierWeightType);
    }
    r := RunTree(s, DecisionTree, balls);
  }

  /** A weighing of the tree, applied to distinct balls, passes the contract's checks. */
  lemma PickedPansLegal(balls: seq<BallId>, l: seq<nat>, r: seq<nat>)
    requires Distinct(balls) && AllBelow(l, |balls|) && AllBelow(r, |balls|) && Distinct(l + r)
    ensures LegalWeighing(balls, Pick(balls, r), Pick(balls, l))
  {
    var right, left := Pick(balls, r), Pick(balls, l);
    forall b | b in Elements(right) + Elements(left) ensures b in Elements(balls) {
      if b in right {
        var i :| 0 <= i < |right| && right[i] == b;
        assert balls[r[i]] == b;
      } else {
        var i :| 0 <= i < |left| && left[i] == b;
        assert balls[l[i]] == b;
      }
    }
    forall x, y | x in right && y in left ensures x != y {
      var i :| 0 <= i < |right| && right[i] == x;
      var j :| 0 <= j < |left| && left[j] == y;
      assert (l + r)[j] == l[j] && (l + r)[|l| + i] == r[i];
    }
  }

  /**
   * On twelve distinct balls in a running contract, walking a tree whose
   * weighings are balanced depends only on the position of the outlier: the
   * run records one weighing per step of Trace and ends where Trace ends.
   */
  lemma {:induction false} WalkByPosition(t: Tree, balls: seq<BallId>, p: nat, weight: OutlierWeightType)
    requires Distinct(balls) && p < |balls|
    requires PositionsBelow(t, |balls|) && PansBalanced(t)
    ensures var w := Walk(t, balls, RunningStrategy, balls, balls[p], weight);
      var stop := Trace(t, p, weight);
      && |w.scaleRuns| == stop.weighings
      && (stop.node.Unreachable? ==> w.result == Err(NullChild))
      && (stop.node.Verdict? ==> stop.node.position < |balls| && w.result == Ok(balls[stop.node.position]))
  {
    match t
    case Unreachable =>
    case Verdict(_) =>
    case Weighing(l, r, b, tl, tr) =>
      var run := GetRun(t, balls);
      PickedPansLegal(balls, l, r);
      assert ScaleResult(run.rightSide, run.leftSide, balls[p], weight) == ScaleResult(r, l, p, weight);
      WalkByPosition(b, balls, p, weight);
      WalkByPosition(tl, balls, p, weight);
      WalkByPosition(tr, balls, p, weight);
  }

  /** The run of DecisionTree against a contract just initialized with these balls and this truth. */
  function ReferenceRun(balls: seq<BallId>, outlier: BallId, weight: OutlierWeightType): Run
    requires |balls| == NUMBER_OF_BALLS
  {
    DecisionTreeWeighings();
    Walk(DecisionTree, balls, RunningStrategy, balls, outlier, weight)
  }

  /**
   * The as-written tree on any twelve distinct balls: three weighings, no
   * null child, and the ball at AsWrittenVerdict(p, weight) submitted.
   */
  lemma DecisionTreeRun(balls: seq<BallId>, p: nat, weight: OutlierWeightType)
    requires |balls| == NUMBER_OF_BALLS && Distinct(balls) && p < |balls|
    ensures var w := ReferenceRun(balls, balls[p], weight);
      w.result == Ok(balls[AsWrittenVerdict(p, weight)]) && |w.scaleRuns| == 3
  {
    DecisionTreeWeighings();
    DecisionTreeTrace(p, weight);
    WalkByPosition(DecisionTree, balls, p, weight);
  }

  /** The corrected tree submits the outlier itself, after three weighings. */
  lemma CorrectedTreeRun(balls: seq<BallId>, p: nat, weight: OutlierWeightType)
    requires |balls| == NUMBER_OF_BALLS && Distinct(balls) && p < |balls|
    ensures var w := Walk(CorrectedTree, balls, RunningStrategy, balls, balls[p], weight);
      w.result == Ok(balls[p]) && |w.scaleRuns| == 3
  {
    CorrectedTreeWeighings();
    CorrectedTreeTrace(p, weight);
    WalkByPosition(CorrectedTree, balls, p, weight);
  }
}
