/**
 * The ground truths weighing-balls/testGenerator.js runs the reference
 * strategy on: the balls "1" to "12", and for trial i the ball at position
 * i / 2, heavy on even trials and light on odd ones.
 */
module Trials {
  import opened Wrappers
  import opened Strategy
  import opened DecisionTrees
  import opened OptimalStrategy

  const BALLS: seq<BallId> := ["1", "2", "3", "4", "5", "6", "7", "8", "9", "10", "11", "12"]

  const NUMBER_OF_TRIALS: nat := 24

  function TrialPosition(i: nat): nat {
    i / 2
  }

  function TrialWeight(i: nat): OutlierWeightType {
    if i % 2 == 0 then Heavy else Light
  }

  /** The 24 trials are exactly the 24 ground truths: each position with each weight. */
  lemma TrialsAreGroundTruths(p: nat, weight: OutlierWeightType)
    requires p < NUMBER_OF_BALLS
    ensures exists i :: 0 <= i < NUMBER_OF_TRIALS && TrialPosition(i) == p && TrialWeight(i) == weight
  {
    var i := 2 * p + (if weight == Heavy then 0 else 1);
    assert TrialPosition(i) == p && TrialWeight(i) == weight;
  }

  lemma TrialsInRange(i: nat)
    requires i < NUMBER_OF_TRIALS
    ensures TrialPosition(i) < NUMBER_OF_BALLS
  {
  }

  lemma BallsAccepted(i: nat)
    requires i < NUMBER_OF_TRIALS
    ensures SetupAccepted(BALLS, BALLS[TrialPosition(i)])
  {
    assert Distinct(BALLS);
  }

  /**
   * One trial of the reference strategy: initialize with the trial's ground
   * truth, run, and the status the test generator insists on (RunComplete) with
   * three recorded weighings.
   */
  method OptimalTrial(s: Strategy, i: nat) returns (r: Result<BallId, RunError>)
    requires s.Valid() && i < NUMBER_OF_TRIALS
    modifies s
    ensures s.Valid()
    ensures s.strategyStatus == RunComplete && |s.scaleRuns| == 3
    ensures r == Ok(BALLS[AsWrittenVerdict(TrialPosition(i), TrialWeight(i))])
  {
    BallsAccepted(i);
    var outlierBall := BALLS[TrialPosition(i)];
    var setup := s.Initialize(BALLS, outlierBall, TrialWeight(i));
    IndexOfDistinct(BALLS, TrialPosition(i));
    r := RunStrategy(s, BALLS);
  }

  /** Ball "5" light: the reference strategy submits "8". */
  lemma Ball5LightSubmits8()
    ensures ReferenceRun(BALLS, "5", Light).result == Ok("8")
  {
    BallsAccepted(0);
    assert BALLS[4] == "5" && BALLS[7] == "8";
    DecisionTreeRun(BALLS, 4, Light);
  }

  /** Ball "6" light: the reference strategy submits "8". */
  lemma Ball6LightSubmits8()
    ensures ReferenceRun(BALLS, "6", Light).result == Ok("8")
  {
    BallsAccepted(0);
    assert BALLS[5] == "6" && BALLS[7] == "8";
    DecisionTreeRun(BALLS, 5, Light);
  }

  /** Ball "7" light: the reference strategy submits "5". */
  lemma Ball7LightSubmits5()
    ensures ReferenceRun(BALLS, "7", Light).result == Ok("5")
  {
    BallsAccepted(0);
    assert BALLS[6] == "7" && BALLS[4] == "5";
    DecisionTreeRun(BALLS, 6, Light);
  }

  /** Ball "8" light: the reference strategy submits "6". */
  lemma Ball8LightSubmits6()
    ensures ReferenceRun(BALLS, "8", Light).result == Ok("6")
  {
    BallsAccepted(0);
    assert BALLS[7] == "8" && BALLS[5] == "6";
    DecisionTreeRun(BALLS, 7, Light);
  }

  /** Ball "6" heavy: the reference strategy submits "5". */
  lemma Ball6HeavySubmits5()
    ensures ReferenceRun(BALLS, "6", Heavy).result == Ok("5")
  {
    BallsAccepted(0);
    assert BALLS[5] == "6" && BALLS[4] == "5";
    DecisionTreeRun(BALLS, 5, Heavy);
  }
}
