/**
 * The Python port of the classifier (`classification(data_set)` in
 * ClassificationSystem.py).
 *
 * It trains its tree on the same twelve exemplars, rates, adds the same
 * bonuses and bubble-sorts the same way; it differs in how it counts the
 * tasks.  It counts every non-`None` slot of the set, wherever it is, and
 * then reads slots `0 .. count-1`; a `None` among those slots makes the
 * attribute access raise `AttributeError`, which the model returns as
 * `Err`.  When the tasks fill a prefix of the set, the port returns what
 * the Ruby classifier returns.
 */
module ClassificationSystemPy {
  import opened TaskRecords
  import opened Ranking
  import opened ClassificationSystem

  const PyRealData: seq<Exemplar> := [
    Exemplar(Attributes(StudyWork, OneDayLeft, VeryImportant, Hard), 50),
    Exemplar(Attributes(StudyWork, OneDayLeft, QuiteImportant, Normal), 50),
    Exemplar(Attributes(StudyWork, TwoDaysLeft, VeryImportant, Hard), 50),
    Exemplar(Attributes(Personal, OneDayLeft, VeryImportant, Normal), 50),
    Exemplar(Attributes(StudyWork, ThreeDaysLeft, VeryImportant, Hard), 30),
    Exemplar(Attributes(Personal, TwoDaysLeft, QuiteImportant, Hard), 30),
    Exemplar(Attributes(StudyWork, ThreeDaysLeft, NotImportant, Hard), 30),
    Exemplar(Attributes(StudyWork, TwoDaysLeft, NotImportant, Normal), 30),
    Exemplar(Attributes(Personal, OneDayLeft, QuiteImportant, Normal), 10),
    Exemplar(Attributes(Personal, ThreeDaysLeft, QuiteImportant, Normal), 10),
    Exemplar(Attributes(Personal, OneDayLeft, NotImportant, Normal), 10),
    Exemplar(Attributes(Personal, ThreeDaysLeft, NotImportant, Normal), 10)
  ]

  /**
   * The port trains on exactly the Ruby classifier's table, so a predictor
   * for the port is held to `FitsExemplars` (stated over the Ruby table)
   * through this equality.
   */
  lemma SameTrainingTable()
    ensures PyRealData == RealData
    ensures forall i :: 0 <= i < |PyRealData| ==> PyRealData[i].baseRating in {10, 30, 50}
  {
  }

  /** `AttributeError`: slot `index` is `None` and has no `type_arranged`. */
  datatype PyError = NoneHasNoAttribute(index: nat)

  datatype Result<T> = Ok(value: T) | Err(error: PyError)

  /** `sum(1 for element in data_set if element is not None)`. */
  function PresentCount(dataSet: seq<Option<Task>>): (n: nat)
    ensures n <= |dataSet|
    ensures n == 0 <==> forall i :: 0 <= i < |dataSet| ==> dataSet[i].None?
  {
    if dataSet == [] then 0
    else (if dataSet[0].Some? then 1 else 0) + PresentCount(dataSet[1..])
  }

  /** No task comes after an empty slot. */
  predicate TasksFormPrefix(dataSet: seq<Option<Task>>)
  {
    forall i, j :: 0 <= i < j < |dataSet| && dataSet[i].None? ==> dataSet[j].None?
  }

  /** What the port returns: the ranking, or the error at the first empty slot it reads. */
  function PyRankTasks(dataSet: seq<Option<Task>>, predict: Predictor): Result<seq<Classification>>
  {
    var count := PresentCount(dataSet);
    var first := LeadingCount(dataSet);
    if first < count then Err(NoneHasNoAttribute(first))
    else
      assert forall i :: 0 <= i < count ==> dataSet[i].Some? by {
        LeadingCountAtMostPresent(dataSet);
      }
      Ok(Ranked(ScoredAll(TasksOf(dataSet, count), predict)))
  }

  lemma {:induction false} LeadingCountAtMostPresent(dataSet: seq<Option<Task>>)
    ensures LeadingCount(dataSet) <= PresentCount(dataSet)
  {
    if dataSet != [] && dataSet[0].Some? {
      LeadingCountAtMostPresent(dataSet[1..]);
    }
  }

  lemma {:induction false} LeadingCountAtLeast(dataSet: seq<Option<Task>>, n: nat)
    requires n <= |dataSet| && forall i :: 0 <= i < n ==> dataSet[i].Some?
    ensures n <= LeadingCount(dataSet)
  {
    if n > 0 {
      LeadingCountAtLeast(dataSet[1..], n - 1);
    }
  }

  /** The two counts agree exactly when the tasks form a prefix of the set. */
  lemma {:induction false} CountsAgreeOnPrefix(dataSet: seq<Option<Task>>)
    ensures PresentCount(dataSet) == LeadingCount(dataSet) <==> TasksFormPrefix(dataSet)
  {
    if dataSet != [] {
      var rest := dataSet[1..];
      CountsAgreeOnPrefix(rest);
      if dataSet[0].None? {
        if TasksFormPrefix(dataSet) {
          forall i | 0 <= i < |rest|
            ensures rest[i].None?
          {
            assert dataSet[i + 1] == rest[i];
          }
        } else {
          var i, j :| 0 <= i < j < |dataSet| && dataSet[i].None? && dataSet[j].Some?;
          assert rest[j - 1].Some?;
        }
      } else {
        if TasksFormPrefix(rest) {
          forall i, j | 0 <= i < j < |dataSet| && dataSet[i].None?
            ensures dataSet[j].None?
          {
            assert rest[i - 1].None? && rest[j - 1] == dataSet[j];
          }
        }
        if TasksFormPrefix(dataSet) {
          forall i, j | 0 <= i < j < |rest| && rest[i].None?
            ensures rest[j].None?
          {
            assert dataSet[i + 1].None? && dataSet[j + 1] == rest[j];
          }
        }
      }
    }
  }

  /** The port succeeds exactly when the tasks form a prefix, and then agrees with the Ruby classifier. */
  lemma PortAgreesOnPrefix(dataSet: seq<Option<Task>>, predict: Predictor)
    ensures PyRankTasks(dataSet, predict).Ok? <==> TasksFormPrefix(dataSet)
    ensures TasksFormPrefix(dataSet) ==> PyRankTasks(dataSet, predict) == Ok(RankTasks(dataSet, predict))
  {
    LeadingCountAtMostPresent(dataSet);
    CountsAgreeOnPrefix(dataSet);
  }

  /** A gap fails at the first empty slot, which is the first slot the port cannot read. */
  lemma PortFailsOnGap(dataSet: seq<Option<Task>>, predict: Predictor)
    requires !TasksFormPrefix(dataSet)
    ensures PyRankTasks(dataSet, predict) == Err(NoneHasNoAttribute(LeadingCount(dataSet)))
    ensures LeadingCount(dataSet) < |dataSet| && dataSet[LeadingCount(dataSet)].None?
  {
    LeadingCountAtMostPresent(dataSet);
    CountsAgreeOnPrefix(dataSet);
  }

  /** `classification(data_set)` of the port. */
  method Classify(dataSet: seq<Option<Task>>, predict: Predictor) returns (result: Result<seq<Classification>>)
    ensures result == PyRankTasks(dataSet, predict)
  {
    var count := PresentCount(dataSet);
    LeadingCountAtMostPresent(dataSet);
    var ratedTasks := new Classification[count];
    for i := 0 to count
      invariant forall k :: 0 <= k < i ==> dataSet[k].Some?
      invariant forall k :: 0 <= k < i ==> ratedTasks[k] == Predicted(dataSet[k].value, predict)
    {
      if dataSet[i].None? {
        LeadingCountUnique(dataSet, i);
        return Err(NoneHasNoAttribute(i));
      }
      var task := dataSet[i].value;
      var rating := predict(Attributes(task.taskType, task.deadline, task.importance, task.difficulty));
      ratedTasks[i] := Classification(task.description, task.taskType, task.deadline, task.importance,
                                      task.difficulty, rating, None, None);
    }
    LeadingCountAtLeast(dataSet, count);
    AddBonuses(ratedTasks);
    assert ratedTasks[..] == ScoredAll(TasksOf(dataSet, count), predict);
    BubbleSort(ratedTasks);
    result := Ok(ratedTasks[..]);
  }

  /** A set whose first slot is empty and second holds a task fails at slot 0. */
  lemma GapScenario(predict: Predictor)
    ensures PyRankTasks([None, Some(StudyForExam)], predict) == Err(NoneHasNoAttribute(0))
  {
    var dataSet := [None, Some(StudyForExam)];
    assert dataSet[1..] == [Some(StudyForExam)];
    assert PresentCount(dataSet) == 1;
    LeadingCountUnique(dataSet, 0);
  }
}
