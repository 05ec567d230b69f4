/**
 * The task classifier (`classification(data_set)` in ClassificationSystem.rb).
 *
 * It counts the tasks at the front of a task set, rates each one with a
 * decision tree trained on a fixed table of twelve exemplars, adds fixed
 * per-attribute bonuses, and orders the rated tasks from the highest rating
 * to the lowest with a bubble sort.
 *
 * The decision tree comes from a library (an ID3 tree built with default
 * rating 1); the model takes its prediction function as a parameter
 * `predict` and states what is known of it as hypotheses: `FitsExemplars`
 * (it reproduces the label of every exemplar row) and `YieldsTreeRating`
 * (it answers with an exemplar label or the default).
 */
module ClassificationSystem {
  import opened TaskRecords
  import opened Ranking

  /** The four attribute values handed to the tree, in the tree's attribute order. */
  datatype Attributes = Attributes(taskType: string, deadline: string, importance: string, difficulty: string)

  /** The trained tree's prediction. */
  type Predictor = Attributes -> int

  /** A labelled row of the training table. */
  datatype Exemplar = Exemplar(attributes: Attributes, baseRating: int)

  /** The rating the tree gives where no training row reaches. */
  const DefaultRating := 1

  const RealData: seq<Exemplar> := [
    Exemplar(Attributes(StudyWork, OneDayLeft, VeryImportant, Hard), 50),
    Exemplar(Attributes(StudyWork, OneDayLeft, QuiteImportant, Normal), 50),
    Exemplar(Attributes(StudyWork, TwoDaysLeft, VeryImportant, Hard), 50),
    Exemplar(Attributes(Personal, OneDayLeft, VeryImportant, Normal), 50),
    Exemplar(Attributes(StudyWork, ThreeDaysLeft, VeryImportant, Hard), 30),
    Exemplar(Attributes(Personal, TwoDaysLeft, QuiteImportant, Hard), 30),
    Exemplar(Attributes(StudyWork, ThreeDaysLeft, NotImportant, Hard), 30),
    Exemplar(Attributes(StudyWork, TwoDaysLeft, NotImportant, Normal), 30),
    Exemplar(Attributes(Personal, OneDayLeft, QuiteImportant, Normal), 10),
    Exemplar(Attributes(Personal, ThreeDaysLeft, QuiteImportant, Normal), 10),
    Exemplar(Attributes(Personal, OneDayLeft, NotImportant, Normal), 10),
    Exemplar(Attributes(Personal, ThreeDaysLeft, NotImportant, Normal), 10)
  ]

  /** The trained tree classifies every training row as labelled. */
  ghost predicate FitsExemplars(predict: Predictor)
  {
    forall i :: 0 <= i < |RealData| ==> predict(RealData[i].attributes) == RealData[i].baseRating
  }

  /** A tree trained on the table only answers with a label of the table or the default. */
  ghost predicate YieldsTreeRating(predict: Predictor)
  {
    forall a :: predict(a) in {DefaultRating, 10, 30, 50}
  }

  /** The label of the first row with these attributes, or the default when no row has them. */
  function TableLookup(rows: seq<Exemplar>, a: Attributes): (r: int)
    ensures r == DefaultRating || exists i :: 0 <= i < |rows| && r == rows[i].baseRating
  {
    if rows == [] then DefaultRating
    else if rows[0].attributes == a then rows[0].baseRating
    else
      var r := TableLookup(rows[1..], a);
      assert r != DefaultRating ==> exists i :: 0 <= i < |rows| && r == rows[i].baseRating by {
        if r != DefaultRating {
          var i :| 0 <= i < |rows[1..]| && r == rows[1..][i].baseRating;
          assert r == rows[i + 1].baseRating;
        }
      }
      r
  }

  lemma {:induction false} LookupFindsRow(rows: seq<Exemplar>, i: nat)
    requires i < |rows|
    requires forall j :: 0 <= j < i ==> rows[j].attributes != rows[i].attributes
    ensures TableLookup(rows, rows[i].attributes) == rows[i].baseRating
  {
    if i > 0 {
      LookupFindsRow(rows[1..], i - 1);
    }
  }

  /** No two training rows share their attributes. */
  lemma RowsDiffer(i: nat, j: nat)
    requires j < i < |RealData|
    ensures RealData[j].attributes != RealData[i].attributes
  {
    var x, y := RealData[j].attributes, RealData[i].attributes;
    assert x.taskType[0] != y.taskType[0] || x.deadline[0] != y.deadline[0]
        || x.importance[0] != y.importance[0] || x.difficulty[0] != y.difficulty[0];
  }

  /** Every training label is one of the three ratings 10, 30 and 50. */
  lemma LabelsAreRatings(i: nat)
    requires i < |RealData|
    ensures RealData[i].baseRating in {10, 30, 50}
  {
  }

  /** A lookup answers with the default or one of the rows' labels. */
  lemma LookupYieldsTreeRating(a: Attributes)
    ensures TableLookup(RealData, a) in {DefaultRating, 10, 30, 50}
  {
    var r := TableLookup(RealData, a);
    if r != DefaultRating {
      var i :| 0 <= i < |RealData| && r == RealData[i].baseRating;
      LabelsAreRatings(i);
    }
  }

  /**
   * The two hypotheses about the tree can hold together: looking the
   * attributes up in the training table, with the default elsewhere,
   * satisfies both.
   */
  lemma TreeHypothesesSatisfiable()
    ensures FitsExemplars(a => TableLookup(RealData, a))
    ensures YieldsTreeRating(a => TableLookup(RealData, a))
  {
    forall i | 0 <= i < |RealData|
      ensures TableLookup(RealData, RealData[i].attributes) == RealData[i].baseRating
    {
      forall j | 0 <= j < i
        ensures RealData[j].attributes != RealData[i].attributes
      {
        RowsDiffer(i, j);
      }
      LookupFindsRow(RealData, i);
    }
    forall a
      ensures TableLookup(RealData, a) in {DefaultRating, 10, 30, 50}
    {
      LookupYieldsTreeRating(a);
    }
  }

  // The per-attribute bonuses: a value outside the vocabulary earns nothing.

  function TypeBonus(taskType: string): (b: nat)
    ensures b <= 2
    ensures b > 0 <==> taskType in {Personal, StudyWork}
  {
    if taskType == Personal then 1 else if taskType == StudyWork then 2 else 0
  }

  function DeadlineBonus(deadline: string): (b: nat)
    ensures b <= 3
    ensures b > 0 <==> deadline in {ThreeDaysLeft, TwoDaysLeft, OneDayLeft}
  {
    if deadline == ThreeDaysLeft then 1
    else if deadline == TwoDaysLeft then 2
    else if deadline == OneDayLeft then 3
    else 0
  }

  function ImportanceBonus(importance: string): (b: nat)
    ensures b <= 3
    ensures b > 0 <==> importance in {NotImportant, QuiteImportant, VeryImportant}
  {
    if importance == NotImportant then 1
    else if importance == QuiteImportant then 2
    else if importance == VeryImportant then 3
    else 0
  }

  function DifficultyBonus(difficulty: string): (b: nat)
    ensures b <= 2
    ensures b > 0 <==> difficulty in {Normal, Hard}
  {
    if difficulty == Normal then 1 else if difficulty == Hard then 2 else 0
  }

  /** Every attribute holds one of the values the rules know. */
  predicate Recognised(a: Attributes)
  {
    && a.taskType in {Personal, StudyWork}
    && a.deadline in {ThreeDaysLeft, TwoDaysLeft, OneDayLeft}
    && a.importance in {NotImportant, QuiteImportant, VeryImportant}
    && a.difficulty in {Normal, Hard}
  }

  /** The extra points the bonus loop adds to a record with these attributes. */
  function Bonus(a: Attributes): (b: nat)
    ensures b <= 10
    ensures Recognised(a) ==> 4 <= b
  {
    TypeBonus(a.taskType) + DeadlineBonus(a.deadline) + ImportanceBonus(a.importance)
      + DifficultyBonus(a.difficulty)
  }

  /** The attributes of a task, as the rating loop hands them to the tree. */
  function AttributesOf(t: Task): Attributes
  {
    Attributes(t.taskType, t.deadline, t.importance, t.difficulty)
  }

  /** The attributes of a rated record, as the bonus loop reads them. */
  function Arranged(c: Classification): Attributes
  {
    Attributes(c.typeArranged, c.deadlineArranged, c.importanceArranged, c.difficultyArranged)
  }

  /** The record the rating loop builds: the tree's prediction, nothing checked yet. */
  function Predicted(t: Task, predict: Predictor): Classification
  {
    Classification(t.description, t.taskType, t.deadline, t.importance, t.difficulty,
                   predict(AttributesOf(t)), None, None)
  }

  /** A record once the bonus loop has added its points. */
  function WithBonus(c: Classification): Classification
  {
    c.(rating := c.rating + Bonus(Arranged(c)))
  }

  /** The record the classifier rates task `t` with. */
  function Scored(t: Task, predict: Predictor): Classification
  {
    WithBonus(Predicted(t, predict))
  }

  /** Number of tasks before the first empty slot. */
  function LeadingCount(dataSet: seq<Option<Task>>): (n: nat)
    ensures n <= |dataSet|
    ensures forall i :: 0 <= i < n ==> dataSet[i].Some?
    ensures n < |dataSet| ==> dataSet[n].None?
  {
    if dataSet == [] || dataSet[0].None? then 0 else 1 + LeadingCount(dataSet[1..])
  }

  /** The first `n` slots' tasks. */
  function TasksOf(dataSet: seq<Option<Task>>, n: nat): seq<Task>
    requires n <= |dataSet| && forall i :: 0 <= i < n ==> dataSet[i].Some?
  {
    seq(n, i requires 0 <= i < n => dataSet[i].value)
  }

  function ScoredAll(tasks: seq<Task>, predict: Predictor): seq<Classification>
  {
    seq(|tasks|, i requires 0 <= i < |tasks| => Scored(tasks[i], predict))
  }

  /** What `classification(data_set)` returns. */
  function RankTasks(dataSet: seq<Option<Task>>, predict: Predictor): seq<Classification>
  {
    Ranked(ScoredAll(TasksOf(dataSet, LeadingCount(dataSet)), predict))
  }

  /** A count that stops at an empty slot is the leading count. */
  lemma {:induction false} LeadingCountUnique(dataSet: seq<Option<Task>>, n: nat)
    requires n <= |dataSet|
    requires forall i :: 0 <= i < n ==> dataSet[i].Some?
    requires n < |dataSet| ==> dataSet[n].None?
    ensures n == LeadingCount(dataSet)
  {
    if n > 0 {
      LeadingCountUnique(dataSet[1..], n - 1);
    }
  }

  /** The counting loop: count slots until the first empty one. */
  method CountLeading(dataSet: seq<Option<Task>>) returns (count: nat)
    ensures count == LeadingCount(dataSet)
  {
    count := 0;
    for idx := 0 to |dataSet|
      invariant count == idx
      invariant forall i :: 0 <= i < count ==> dataSet[i].Some?
    {
      if dataSet[idx].Some? {
        count := count + 1;
      }
      if dataSet[idx].None? {
        break;
      }
    }
    LeadingCountUnique(dataSet, count);
  }

  /** The rating loop: record `i` holds task `i` rated by the tree. */
  method RateTasks(dataSet: seq<Option<Task>>, count: nat, predict: Predictor) returns (rated: array<Classification>)
    requires count <= |dataSet| && forall i :: 0 <= i < count ==> dataSet[i].Some?
    ensures fresh(rated) && rated.Length == count
    ensures forall k :: 0 <= k < count ==> rated[k] == Predicted(dataSet[k].value, predict)
  {
    rated := new Classification[count];
    for i := 0 to count
      invariant forall k :: 0 <= k < i ==> rated[k] == Predicted(dataSet[k].value, predict)
    {
      var task := dataSet[i].value;
      var rating := predict(Attributes(task.taskType, task.deadline, task.importance, task.difficulty));
      rated[i] := Classification(task.description, task.taskType, task.deadline, task.importance,
                                 task.difficulty, rating, None, None);
    }
  }

  /** The bonus loop: every record gains the bonus of its own attributes. */
  method AddBonuses(rated: array<Classification>)
    modifies rated
    ensures forall k :: 0 <= k < rated.Length ==> rated[k] == WithBonus(old(rated[k]))
  {
    for i := 0 to rated.Length
      invariant forall k :: 0 <= k < i ==> rated[k] == WithBonus(old(rated[k]))
      invariant forall k :: i <= k < rated.Length ==> rated[k] == old(rated[k])
    {
      rated[i] := rated[i].(rating := rated[i].rating + Bonus(Arranged(rated[i])));
    }
  }

  /** `classification(data_set)`: count, rate, add bonuses, sort. */
  method Classify(dataSet: seq<Option<Task>>, predict: Predictor) returns (ratedTasks: seq<Classification>)
    ensures ratedTasks == RankTasks(dataSet, predict)
  {
    var count := CountLeading(dataSet);
    var rated := RateTasks(dataSet, count, predict);
    AddBonuses(rated);
    assert rated[..] == ScoredAll(TasksOf(dataSet, count), predict);
    BubbleSort(rated);
    ratedTasks := rated[..];
  }

  // What the source promises of the result.

  /** One record per task before the first empty slot; later tasks are ignored. */
  lemma RankTasksLength(dataSet: seq<Option<Task>>, predict: Predictor)
    ensures |RankTasks(dataSet, predict)| == LeadingCount(dataSet)
  {
    var s := ScoredAll(TasksOf(dataSet, LeadingCount(dataSet)), predict);
    assert |Ranked(s)| == |multiset(Ranked(s))| == |multiset(s)| == |s|;
  }

  /** The records come out from the highest rating to the lowest. */
  lemma RankTasksOrdered(dataSet: seq<Option<Task>>, predict: Predictor)
    ensures NonIncreasing(RankTasks(dataSet, predict))
  {
    RankedNonIncreasing(ScoredAll(TasksOf(dataSet, LeadingCount(dataSet)), predict));
  }

  /**
   * The result rearranges the rated records, and equally rated records
   * keep the order of their tasks in the set.
   */
  lemma RankTasksStablePermutation(dataSet: seq<Option<Task>>, predict: Predictor)
    ensures multiset(RankTasks(dataSet, predict))
         == multiset(ScoredAll(TasksOf(dataSet, LeadingCount(dataSet)), predict))
    ensures SameRatedOrder(RankTasks(dataSet, predict),
                           ScoredAll(TasksOf(dataSet, LeadingCount(dataSet)), predict))
  {
    RankedIsStable(ScoredAll(TasksOf(dataSet, LeadingCount(dataSet)), predict));
  }

  /**
   * `c` carries task `t`'s description and attributes unchanged, the tree's
   * prediction plus the bonus as rating, and no check box or checked mark.
   */
  ghost predicate CopiesTask(c: Classification, t: Task, predict: Predictor)
  {
    && c.descriptionArranged == t.description
    && c.typeArranged == t.taskType
    && c.deadlineArranged == t.deadline
    && c.importanceArranged == t.importance
    && c.difficultyArranged == t.difficulty
    && c.rating == predict(AttributesOf(t)) + Bonus(AttributesOf(t))
    && c.checkbox == None && c.isChecked == None
  }

  /** Every result record copies one of the tasks before the first empty slot. */
  lemma RankTasksCopiesTasks(dataSet: seq<Option<Task>>, predict: Predictor, c: Classification)
    requires c in RankTasks(dataSet, predict)
    ensures exists i :: 0 <= i < LeadingCount(dataSet) && CopiesTask(c, dataSet[i].value, predict)
  {
    var s := ScoredAll(TasksOf(dataSet, LeadingCount(dataSet)), predict);
    assert c in multiset(Ranked(s));
    assert c in s;
    var i :| 0 <= i < |s| && s[i] == c;
    assert c == Scored(dataSet[i].value, predict);
  }

  /**
   * The bonuses rank the vocabulary: study/work above personal, a nearer
   * deadline above a farther one, more importance above less, hard above
   * normal.
   */
  lemma BonusOrdersVocabulary()
    ensures TypeBonus(StudyWork) > TypeBonus(Personal) > 0
    ensures DeadlineBonus(OneDayLeft) > DeadlineBonus(TwoDaysLeft) > DeadlineBonus(ThreeDaysLeft) > 0
    ensures ImportanceBonus(VeryImportant) > ImportanceBonus(QuiteImportant) > ImportanceBonus(NotImportant) > 0
    ensures DifficultyBonus(Hard) > DifficultyBonus(Normal) > 0
  {
  }

  /** With an exemplar label as base rating and recognised attributes, the rating lies in [14, 60]. */
  lemma ScoreRange(t: Task, predict: Predictor)
    requires predict(AttributesOf(t)) in {10, 30, 50}
    requires Recognised(AttributesOf(t))
    ensures 14 <= Scored(t, predict).rating <= 60
  {
  }

  /** A tree-like predictor rates every task between 1 and 60. */
  lemma ScoreRangeAnyTask(t: Task, predict: Predictor)
    requires YieldsTreeRating(predict)
    ensures DefaultRating <= Scored(t, predict).rating <= 60
  {
    assert predict(AttributesOf(t)) in {DefaultRating, 10, 30, 50};
  }

  // The scenario the repository's tests run.

  const StudyForExam := Task("Study for exam", StudyWork, OneDayLeft, VeryImportant, Hard)
  const WatchMovie := Task("Watch movie", Personal, ThreeDaysLeft, NotImportant, Normal)
  const Exercise := Task("Exercise", Personal, TwoDaysLeft, QuiteImportant, Hard)

  /** Three records rated high, low, middle are ranked high, middle, low. */
  lemma RankThree(x: Classification, y: Classification, z: Classification)
    requires x.rating >= z.rating > y.rating
    ensures Ranked([x, y, z]) == [x, z, y]
  {
    assert [x, y, z][1..] == [y, z] && [y, z][1..] == [z] && [z][1..] == [];
    assert Ranked([z]) == [z];
    assert Ranked([y, z]) == Insert(y, [z]) == [z, y];
    var rest := [z, y];
    assert Insert(x, rest) == [x] + rest == [x, z, y];
  }

  /** Two records rated high, low keep their order. */
  lemma RankTwo(x: Classification, y: Classification)
    requires x.rating > y.rating
    ensures Ranked([x, y]) == [x, y]
  {
    assert [x, y][1..] == [y] && [y][1..] == [];
    assert Ranked([y]) == [y];
    assert Insert(x, [y]) == [x] + [y] == [x, y];
  }

  /** The three test tasks score 60, 14 and 37 under a tree that fits its table. */
  lemma ScenarioScores(predict: Predictor)
    requires FitsExemplars(predict)
    ensures Scored(StudyForExam, predict).rating == 60
    ensures Scored(WatchMovie, predict).rating == 14
    ensures Scored(Exercise, predict).rating == 37
  {
    assert predict(RealData[0].attributes) == 50;
    assert predict(RealData[11].attributes) == 10;
    assert predict(RealData[5].attributes) == 30;
    assert AttributesOf(StudyForExam) == RealData[0].attributes;
    assert AttributesOf(WatchMovie) == RealData[11].attributes;
    assert AttributesOf(Exercise) == RealData[5].attributes;
  }

  /** A ten-slot set holding three tasks ranks them 60, 37, 14: the exam first, the movie last. */
  lemma ThreeTaskScenario(predict: Predictor)
    requires FitsExemplars(predict)
    ensures var r := RankTasks([Some(StudyForExam), Some(WatchMovie), Some(Exercise),
                                None, None, None, None, None, None, None], predict);
      && |r| == 3
      && r[0].descriptionArranged == "Study for exam" && r[0].rating == 60
      && r[1].descriptionArranged == "Exercise" && r[1].rating == 37
      && r[2].descriptionArranged == "Watch movie" && r[2].rating == 14
  {
    ScenarioScores(predict);
    var exam, movie, exercise := Scored(StudyForExam, predict), Scored(WatchMovie, predict), Scored(Exercise, predict);
    var dataSet := [Some(StudyForExam), Some(WatchMovie), Some(Exercise),
                    None, None, None, None, None, None, None];
    LeadingCountUnique(dataSet, 3);
    assert ScoredAll(TasksOf(dataSet, 3), predict) == [exam, movie, exercise];
    RankThree(exam, movie, exercise);
  }

  /** A ten-slot set holding two tasks gives two records, the exam first with 60 and the movie with 14. */
  lemma TwoTaskScenario(predict: Predictor)
    requires FitsExemplars(predict)
    ensures var r := RankTasks([Some(StudyForExam), Some(WatchMovie),
                                None, None, None, None, None, None, None, None], predict);
      && |r| == 2
      && r[0].descriptionArranged == "Study for exam" && r[0].rating == 60
      && r[0].typeArranged == StudyWork && r[0].deadlineArranged == OneDayLeft
      && r[1].descriptionArranged == "Watch movie" && r[1].rating == 14
  {
    ScenarioScores(predict);
    var exam, movie := Scored(StudyForExam, predict), Scored(WatchMovie, predict);
    var dataSet := [Some(StudyForExam), Some(WatchMovie),
                    None, None, None, None, None, None, None, None];
    LeadingCountUnique(dataSet, 2);
    assert ScoredAll(TasksOf(dataSet, 2), predict) == [exam, movie];
    RankTwo(exam, movie);
  }
}
