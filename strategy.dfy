/**
 * The balance-scale contract every weighing strategy runs against
 * (weighing-balls/Strategy.js): a hidden ground truth (which ball is the
 * outlier and whether it is heavy or light), a status that says whether a
 * run is in progress, and the history of the weighings made in the run.
 */
module Strategy {
  import opened Wrappers

  type BallId = string

  datatype OutlierWeightType = Heavy | Light
  datatype ScaleRunResult = Balanced | TipToLeft | TipToRight
  datatype StrategyStatus = NotInitialized | RunningStrategy | RunComplete

  /** One recorded use of the scale. */
  datatype ScaleRun = ScaleRun(leftSide: seq<BallId>, rightSide: seq<BallId>)

  /** The failed `invariant(...)` checks, in the order the source makes them. */
  datatype Error =
    // initialize
    | WrongNumberOfBalls
    | DuplicateBall
    | OutlierNotAmongBalls
    // __useScale
    | NotRunning
    | UnknownBallOnRight
    | UnknownBallOnLeft
    | BallOnBothSides

  const NUMBER_OF_BALLS: nat := 12

  /** The set of balls a list mentions. */
  function Elements(s: seq<BallId>): set<BallId> {
    set b | b in s
  }

  /** No element occurs twice: ball identifiers in a list, positions in a weighing. */
  predicate Distinct<T(==)>(s: seq<T>) {
    forall i, j :: 0 <= i < j < |s| ==> s[i] != s[j]
  }

  /**
   * The duplicate check as `initialize` writes it: every ball differs from
   * each ball in the slice after it.
   */
  predicate NoLaterDuplicate(balls: seq<BallId>) {
    forall index :: 0 <= index < |balls| ==> balls[index] !in balls[index + 1..]
  }

  lemma NoLaterDuplicateIsDistinct(balls: seq<BallId>)
    ensures NoLaterDuplicate(balls) <==> Distinct(balls)
  {
    if NoLaterDuplicate(balls) {
      forall i, j | 0 <= i < j < |balls| ensures balls[i] != balls[j] {
        assert balls[i + 1..][j - i - 1] == balls[j];
      }
    }
  }

  /** What `initialize` accepts: exactly twelve distinct balls, the outlier among them. */
  predicate SetupAccepted(balls: seq<BallId>, outlierBall: BallId) {
    |balls| == NUMBER_OF_BALLS && Distinct(balls) && outlierBall in balls
  }

  /** The checks of `initialize`, first failure first. */
  function CheckSetup(balls: seq<BallId>, outlierBall: BallId): (r: Outcome<Error>)
    ensures r.Pass? <==> SetupAccepted(balls, outlierBall)
    ensures |balls| != NUMBER_OF_BALLS ==> r == Fail(WrongNumberOfBalls)
    ensures |balls| == NUMBER_OF_BALLS && !Distinct(balls) ==> r == Fail(DuplicateBall)
  {
    NoLaterDuplicateIsDistinct(balls);
    if |balls| != NUMBER_OF_BALLS then Fail(WrongNumberOfBalls)
    else if !NoLaterDuplicate(balls) then Fail(DuplicateBall)
    else if outlierBall !in balls then Fail(OutlierNotAmongBalls)
    else Pass
  }

  /** `side.every(b => balls.includes(b))` */
  predicate AllKnown(balls: seq<BallId>, side: seq<BallId>) {
    forall b :: b in side ==> b in balls
  }

  /** `rightSide.every(b => !leftSide.includes(b))` */
  predicate NoneShared(rightSide: seq<BallId>, leftSide: seq<BallId>) {
    forall b :: b in rightSide ==> b !in leftSide
  }

  /**
   * A weighing the contract accepts: both sides drawn from the balls of the
   * run and no ball on both sides. Neither side has to be non-empty, and the
   * sides need not have the same size.
   */
  predicate LegalWeighing(balls: seq<BallId>, rightSide: seq<BallId>, leftSide: seq<BallId>) {
    Elements(rightSide) + Elements(leftSide) <= Elements(balls) &&
    Elements(rightSide) !! Elements(leftSide)
  }

  /** The checks of `__useScale`, first failure first. */
  function CheckScale(status: StrategyStatus, balls: seq<BallId>, rightSide: seq<BallId>, leftSide: seq<BallId>)
    : (r: Outcome<Error>)
    ensures r.Pass? <==> status == RunningStrategy && LegalWeighing(balls, rightSide, leftSide)
    ensures status != RunningStrategy ==> r == Fail(NotRunning)
  {
    if status != RunningStrategy then Fail(NotRunning)
    else if !AllKnown(balls, rightSide) then
      assert !(Elements(rightSide) <= Elements(balls)) by {
        var b :| b in rightSide && b !in balls;
        assert b in Elements(rightSide);
      }
      Fail(UnknownBallOnRight)
    else if !AllKnown(balls, leftSide) then
      assert !(Elements(leftSide) <= Elements(balls)) by {
        var b :| b in leftSide && b !in balls;
        assert b in Elements(leftSide);
      }
      Fail(UnknownBallOnLeft)
    else if !NoneShared(rightSide, leftSide) then
      assert !(Elements(rightSide) !! Elements(leftSide)) by {
        var b :| b in rightSide && b in leftSide;
        assert b in Elements(rightSide) * Elements(leftSide);
      }
      Fail(BallOnBothSides)
    else Pass
  }

  /**
   * The scale's answer. The size comparison that comes first in the source
   * compares the right side's length with itself, so it never applies: only
   * the side that holds the outlier, and its weight, decide the answer.
   */
  function ScaleResult<T(==)>(rightSide: seq<T>, leftSide: seq<T>, outlier: T, weight: OutlierWeightType)
    : (r: ScaleRunResult)
    ensures r == Balanced <==> outlier !in rightSide + leftSide
  {
    if outlier in rightSide then
      (if weight == Heavy then TipToRight else TipToLeft)
    else if outlier in leftSide then
      (if weight == Heavy then TipToLeft else TipToRight)
    else Balanced
  }

  /** The answer seen from the other side of the scale. */
  function Mirror(r: ScaleRunResult): ScaleRunResult {
    match r
    case Balanced => Balanced
    case TipToLeft => TipToRight
    case TipToRight => TipToLeft
  }

  /** Exchanging the two pans exchanges the two tipping answers. */
  lemma ScaleResultSwap<T>(rightSide: seq<T>, leftSide: seq<T>, outlier: T, weight: OutlierWeightType)
    requires !(outlier in rightSide && outlier in leftSide)
    ensures ScaleResult(leftSide, rightSide, outlier, weight) == Mirror(ScaleResult(rightSide, leftSide, outlier, weight))
  {
  }

  /**
   * The contract object. The ground truth lives in ordinary fields: a
   * strategy is trusted not to read them.
   */
  class Strategy {
    var balls: seq<BallId>
    var outlierBall: BallId
    var outlierWeightType: OutlierWeightType
    var scaleRuns: seq<ScaleRun>
    var strategyStatus: StrategyStatus

    /**
     * While a run is in progress the ground truth is one `initialize`
     * accepted, and the history holds only weighings the contract accepted.
     */
    ghost predicate Valid()
      reads this
    {
      (strategyStatus == RunningStrategy ==> SetupAccepted(balls, outlierBall)) &&
      forall i :: 0 <= i < |scaleRuns| ==> LegalWeighing(balls, scaleRuns[i].rightSide, scaleRuns[i].leftSide)
    }

    constructor ()
      ensures Valid()
      ensures strategyStatus == NotInitialized && scaleRuns == [] && balls == []
    {
      balls := [];
      outlierBall := "";
      outlierWeightType := Heavy;
      scaleRuns := [];
      strategyStatus := NotInitialized;
    }

    /** Starts a run with the given hidden truth, whatever the current status. */
    method Initialize(balls: seq<BallId>, outlierBall: BallId, outlierWeightType: OutlierWeightType)
      returns (r: Outcome<Error>)
      requires Valid()
      modifies this
      ensures Valid()
      ensures r == CheckSetup(balls, outlierBall)
      ensures r.Pass? ==>
        && this.balls == balls && this.outlierBall == outlierBall
        && this.outlierWeightType == outlierWeightType
        && scaleRuns == [] && strategyStatus == RunningStrategy
      ensures r.Fail? ==> unchanged(this)
    {
      if |balls| != NUMBER_OF_BALLS {
        return Fail(WrongNumberOfBalls);
      }
      if !NoLaterDuplicate(balls) {
        return Fail(DuplicateBall);
      }
      if outlierBall !in balls {
        return Fail(OutlierNotAmongBalls);
      }
      NoLaterDuplicateIsDistinct(balls);
      this.balls := balls;
      this.outlierBall := outlierBall;
      this.outlierWeightType := outlierWeightType;
      scaleRuns := [];
      strategyStatus := RunningStrategy;
      r := Pass;
    }

    /**
     * One use of the scale. Note the parameter order: right side first.
     * A refused weighing changes nothing; an accepted one is appended to the
     * history and answered from the hidden truth.
     */
    method UseScale(rightSide: seq<BallId>, leftSide: seq<BallId>) returns (r: Result<ScaleRunResult, Error>)
      requires Valid()
      modifies this`scaleRuns
      ensures Valid()
      ensures CheckScale(strategyStatus, balls, rightSide, leftSide).Fail? ==>
        r == Err(CheckScale(strategyStatus, balls, rightSide, leftSide).error) && scaleRuns == old(scaleRuns)
      ensures CheckScale(strategyStatus, balls, rightSide, leftSide).Pass? ==>
        r == Ok(ScaleResult(rightSide, leftSide, outlierBall, outlierWeightType)) &&
        scaleRuns == old(scaleRuns) + [ScaleRun(leftSide, rightSide)]
    {
      if strategyStatus != RunningStrategy {
        return Err(NotRunning);
      }
      if !AllKnown(balls, rightSide) {
        return Err(UnknownBallOnRight);
      }
      if !AllKnown(balls, leftSide) {
        return Err(UnknownBallOnLeft);
      }
      if !NoneShared(rightSide, leftSide) {
        return Err(BallOnBothSides);
      }
      scaleRuns := scaleRuns + [ScaleRun(leftSide, rightSide)];
      if outlierBall in rightSide {
        r := Ok(if outlierWeightType == Heavy then TipToRight else TipToLeft);
      } else if outlierBall in leftSide {
        r := Ok(if outlierWeightType == Heavy then TipToLeft else TipToRight);
      } else {
        r := Ok(Balanced);
      }
    }

    /**
     * Ends the run. The status is not checked first: a submission before
     * `initialize`, or a second one, also sets RunComplete.
     */
    method SubmitOutlierBall(ball: BallId)
      requires Valid()
      modifies this`strategyStatus
      ensures Valid()
      ensures strategyStatus == RunComplete
    {
      strategyStatus := RunComplete;
    }
  }

  /** Once a run is submitted, the scale refuses every weighing and records nothing. */
  method SubmitClosesRun(s: Strategy, ball: BallId, rightSide: seq<BallId>, leftSide: seq<BallId>)
    returns (r: Result<ScaleRunResult, Error>)
    requires s.Valid()
    modifies s
    ensures s.Valid()
    ensures r == Err(NotRunning)
    ensures s.strategyStatus == RunComplete && s.scaleRuns == old(s.scaleRuns)
  {
    s.SubmitOutlierBall(ball);
    r := s.UseScale(rightSide, leftSide);
  }
}
