/**
 * The evaluator (EvaluationSystem.rb): how well a ranking predicted the
 * order in which the user completed the tasks (`rate_accuracy`), and what
 * share of the tasks the user completed (`rate_performance`).
 *
 * Percentages are exact: a count of tenths of a percent, the exact ratio
 * rounded to the nearest tenth with halves rounded up (what `round(1)`
 * does for a non-negative value).  A ratio over zero tasks is a float
 * division by zero in the source: `0.0 / 0.0` is not a number, and a
 * positive part over zero is infinite, which `round(1)` passes through;
 * the model returns `NotANumber` and `Infinite` for the two.
 */
module EvaluationSystem {

  /** A percentage with one decimal, as a number of tenths; or not a number, or infinite. */
  datatype Percentage = Tenths(tenths: nat) | NotANumber | Infinite

  datatype Accuracy = Accuracy(numOfTasks: nat, corrects: nat, percentage: Percentage)

  datatype Performance = Performance(total: nat, completed: nat, percentage: Percentage)

  /** `rate_accuracy` answers with statistics or with a message string. */
  datatype AccuracyResult = Rated(stats: Accuracy) | Message(text: string)

  const CannotRateAccuracy := "Cannot rate accuracy\ndue to tasks\nnot fully completed"

  /** `((part.to_f / whole.to_f) * 100).round(1)`, computed exactly. */
  function Percent(part: nat, whole: nat): (p: Percentage)
    ensures p.NotANumber? <==> whole == 0 && part == 0
    ensures p.Infinite? <==> whole == 0 < part
    ensures whole > 0 ==> whole * (2 * p.tenths - 1) <= 2000 * part < whole * (2 * p.tenths + 1)
  {
    if whole == 0 then (if part == 0 then NotANumber else Infinite)
    else
      var t := (2000 * part + whole) / (2 * whole);
      NearestTenth(part, whole, t);
      Tenths(t)
  }

  lemma NearestTenth(part: nat, whole: nat, t: nat)
    requires whole > 0 && t == (2000 * part + whole) / (2 * whole)
    ensures whole * (2 * t - 1) <= 2000 * part < whole * (2 * t + 1)
  {
    var x, d := 2000 * part + whole, 2 * whole;
    var r := x % d;
    assert x == d * t + r && 0 <= r < d;
    assert whole * (2 * t - 1) == d * t - whole;
    assert whole * (2 * t + 1) == d * t + whole;
  }

  /** Number of positions below `n` where the prediction matches reality. */
  function MatchCount<T(==)>(prediction: seq<T>, reality: seq<T>, n: nat): (c: nat)
    requires n <= |prediction| && n <= |reality|
    ensures c <= n
    ensures c == n <==> forall i :: 0 <= i < n ==> prediction[i] == reality[i]
  {
    if n == 0 then 0
    else MatchCount(prediction, reality, n - 1) + (if prediction[n - 1] == reality[n - 1] then 1 else 0)
  }

  /** What `rate_accuracy(prediction, reality)` returns. */
  function AccuracyOf<T(==)>(prediction: seq<T>, reality: seq<T>): AccuracyResult
  {
    if |prediction| == |reality| then
      var corrects := MatchCount(prediction, reality, |prediction|);
      Rated(Accuracy(|prediction|, corrects, Percent(corrects, |prediction|)))
    else
      Message(CannotRateAccuracy)
  }

  /** `rate_accuracy`: count the positions where the prediction matches reality. */
  method RateAccuracy<T(==)>(prediction: seq<T>, reality: seq<T>) returns (stats: AccuracyResult)
    ensures stats == AccuracyOf(prediction, reality)
  {
    if |prediction| == |reality| {
      var numOfTasks := |prediction|;
      var corrects := 0;
      for i := 0 to numOfTasks
        invariant corrects == MatchCount(prediction, reality, i)
      {
        if prediction[i] == reality[i] {
          corrects := corrects + 1;
        }
      }
      var percentage := Percent(corrects, numOfTasks);
      stats := Rated(Accuracy(numOfTasks, corrects, percentage));
    } else {
      stats := Message(CannotRateAccuracy);
    }
  }

  /**
   * `rate_performance`: the two lengths as total and completed, and the
   * share of the total completed; not a number when there are no tasks
   * and none completed, infinite when there are none but some completed.
   */
  function RatePerformance<T, U>(allTasks: seq<T>, completedTasks: seq<U>): (r: Performance)
    ensures r.total == |allTasks| && r.completed == |completedTasks|
    ensures r.percentage == Percent(r.completed, r.total)
    ensures r.percentage.NotANumber? <==> allTasks == [] && completedTasks == []
    ensures r.percentage.Infinite? <==> allTasks == [] && completedTasks != []
    ensures 0 < |allTasks| && |completedTasks| <= |allTasks| ==> r.percentage.tenths <= 1000
  {
    var r := Performance(|allTasks|, |completedTasks|, Percent(|completedTasks|, |allTasks|));
    if 0 < |allTasks| && |completedTasks| <= |allTasks| then
      PercentRange(|completedTasks|, |allTasks|);
      r
    else
      r
  }

  // What the source and its tests promise.

  /**
   * A part of a positive whole is between 0.0 and 100.0 percent, and all of
   * it is exactly 100.0.  (A part just short of a large whole also rounds
   * to 100.0: 1999 of 2000 is 99.95, rounded up.)
   */
  lemma PercentRange(part: nat, whole: nat)
    requires part <= whole && whole > 0
    ensures Percent(part, whole).Tenths? && Percent(part, whole).tenths <= 1000
    ensures part == whole ==> Percent(part, whole).tenths == 1000
  {
    var t: int := Percent(part, whole).tenths;
    assert whole * (2 * t - 1) <= 2000 * part <= 2000 * whole;
    if t > 1000 {
      ScaleMonotone(whole, 2001, 2 * t - 1);
      assert false;
    }
    if part == whole && t < 1000 {
      assert 2000 * whole < whole * (2 * t + 1);
      ScaleMonotone(whole, 2 * t + 1, 1999);
      assert false;
    }
  }

  lemma ScaleMonotone(k: nat, a: int, b: int)
    requires a <= b
    ensures k * a <= k * b
  {
    assert k * b - k * a == k * (b - a);
  }

  lemma RoundsUpToFull()
    ensures Percent(1999, 2000) == Tenths(1000)
  {
  }

  /** Equal lengths give statistics over that many tasks; otherwise the fixed message. */
  lemma AccuracyShape<T>(prediction: seq<T>, reality: seq<T>)
    ensures AccuracyOf(prediction, reality).Rated? <==> |prediction| == |reality|
    ensures AccuracyOf(prediction, reality).Message? ==>
              AccuracyOf(prediction, reality).text == CannotRateAccuracy
    ensures AccuracyOf(prediction, reality).Rated? ==>
              var a := AccuracyOf(prediction, reality).stats;
              a.numOfTasks == |prediction| && a.corrects <= a.numOfTasks
  {
  }

  /** A prediction of length n that matches reality everywhere scores n corrects and 100.0. */
  lemma PerfectPrediction<T>(prediction: seq<T>)
    requires |prediction| > 0
    ensures AccuracyOf(prediction, prediction) ==
              Rated(Accuracy(|prediction|, |prediction|, Tenths(1000)))
  {
    PercentRange(|prediction|, |prediction|);
  }

  /** Every position counts as correct exactly when the two orders are the same. */
  lemma AllCorrectIffSameOrder<T>(prediction: seq<T>, reality: seq<T>)
    requires |prediction| == |reality|
    ensures AccuracyOf(prediction, reality).stats.corrects == |prediction| <==> prediction == reality
  {
    if AccuracyOf(prediction, reality).stats.corrects == |prediction| {
      assert prediction == reality;
    }
  }

  /** Performance depends on the lengths of its two arguments only. */
  lemma PerformanceCountsOnly<T, U>(allTasks: seq<T>, completedTasks: seq<U>, allTasks': seq<T>, completedTasks': seq<U>)
    requires |allTasks| == |allTasks'| && |completedTasks| == |completedTasks'|
    ensures RatePerformance(allTasks, completedTasks) == RatePerformance(allTasks', completedTasks')
    ensures RatePerformance(allTasks, completedTasks).total == |allTasks|
    ensures RatePerformance(allTasks, completedTasks).completed == |completedTasks|
  {
  }

  /** Completing some of a non-empty set of tasks rates between 0.0 and 100.0. */
  lemma PerformanceRange<T, U>(allTasks: seq<T>, completedTasks: seq<U>)
    requires |completedTasks| <= |allTasks| && |allTasks| > 0
    ensures RatePerformance(allTasks, completedTasks).percentage.Tenths?
    ensures RatePerformance(allTasks, completedTasks).percentage.tenths <= 1000
  {
    PercentRange(|completedTasks|, |allTasks|);
  }

  /** Two of four tasks completed rate 50.0. */
  lemma PerformanceHalf()
    ensures RatePerformance([1, 2, 3, 4], [1, 3]) == Performance(4, 2, Tenths(500))
  {
  }

  /** Three of five completed rate 60.0. */
  lemma PerformanceThreeOfFive()
    ensures RatePerformance([1, 2, 3, 4, 5], [1, 2, 3]) == Performance(5, 3, Tenths(600))
  {
  }

  /** Two, one and none of three completed rate 66.7, 33.3 and 0.0. */
  lemma PerformanceOfThree()
    ensures RatePerformance([1, 2, 3], [1, 3]).percentage == Tenths(667)
    ensures RatePerformance([1, 2, 3], [2]).percentage == Tenths(333)
    ensures RatePerformance<int, int>([1, 2, 3], []).percentage == Tenths(0)
  {
  }

  /** The one task of one completed rates 100.0. */
  lemma PerformanceAllOfOne()
    ensures RatePerformance([1], [1]) == Performance(1, 1, Tenths(1000))
  {
  }

  /** Completed tasks out of an empty total rate as infinite, not as a number of tenths. */
  lemma PerformanceOverNoTasks<T, U>(allTasks: seq<T>, completedTasks: seq<U>)
    requires allTasks == [] && completedTasks != []
    ensures RatePerformance(allTasks, completedTasks) == Performance(0, |completedTasks|, Infinite)
  {
  }

  /** With no tasks at all both counts are 0 and the percentage is not a number. */
  lemma PerformanceOfNothing<T, U>(allTasks: seq<T>, completedTasks: seq<U>)
    requires allTasks == [] && completedTasks == []
    ensures RatePerformance(allTasks, completedTasks) == Performance(0, 0, NotANumber)
  {
  }

  /** Two identical two-task orders give 2 corrects and 100.0; lengths 3 and 2 give the message. */
  lemma AccuracyExamples()
    ensures AccuracyOf(["Task 1", "Task 2"], ["Task 1", "Task 2"]) == Rated(Accuracy(2, 2, Tenths(1000)))
    ensures AccuracyOf([1, 2, 3], [1, 2]) == Message(CannotRateAccuracy)
  {
    PerfectPrediction(["Task 1", "Task 2"]);
  }
}
