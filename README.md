# Automatic task arranging: classifier and evaluator

This project models the core of a task-arranging program:

- **The classifier** (`classification(data_set)` in ClassificationSystem.rb and its Python port ClassificationSystem.py). It takes a task set: an array of slots, each holding a task or nothing (the user interface uses ten). It then works in four steps:
  - it counts the tasks to rate;
  - it rates each task with a decision tree trained on a fixed table of twelve labelled exemplars (labels 50, 30, 10);
  - it adds fixed bonus points per attribute value;
  - it orders the rated tasks from the highest rating to the lowest with a bubble sort.
- **The evaluator** (EvaluationSystem.rb). `rate_accuracy` compares a predicted order with the order the user actually completed the tasks in. `rate_performance` reports the share of tasks completed. Each gives a percentage with one decimal.

Modules:

- `TaskRecords` (`task_records.dfy`): the task and `Classification` records and the attribute vocabulary.
- `Ranking` (`ranking.dfy`): the bubble sort, in place on an array. It is proved to produce exactly `Ranked`, a stable insertion sort on sequences. `Ranked` is also proved to be non-increasing, stable and a permutation of its input.
- `ClassificationSystem` (`classification_system.dfy`): the Ruby classifier.
  - It counts the tasks before the first empty slot.
  - Each phase is an imperative loop over an array.
  - `Classify` is proved equal to the specification function `RankTasks`.
- `ClassificationSystemPy` (`classification_system_py.dfy`): the Python port.
  - It counts every non-empty slot, wherever it is.
  - It then reads the slots `0 .. count-1`, so an empty slot among them raises `AttributeError`, which the model returns as `Err`.
  - The port is proved to succeed exactly when the tasks fill a prefix of the set, and then to agree with the Ruby classifier when both use the same prediction function.
- `EvaluationSystem` (`evaluation_system.dfy`): `rate_accuracy` and `rate_performance`, with the percentages computed exactly.

The trained tree is a library object, so the model takes its prediction as a parameter `predict`. What is known about it appears only as hypotheses of the lemmas that need it:

- `FitsExemplars`: it reproduces every training label.
- `YieldsTreeRating`: it answers with a label of the table or the tree's default rating 1.

## Model

| member | source | states |
|---|---|---|
| `Ranking.BubbleSort` | ClassificationSystem.rb:61-70 | The in-place bubble sort leaves the array equal to `Ranked` of its old contents, which is non-increasing in rating, a permutation, and stable. |
| `Ranking.BubblePass` | ClassificationSystem.rb:63-69 | A pass keeps the rated order, carries the lowest rating of `a[0..last]` to `last`, and leaves the sorted tail untouched. |
| `Ranking.SwapDown` | ClassificationSystem.rb:64-68 | Swapping the adjacent pair when the left one is rated lower exchanges exactly those two cells and keeps every rating's order of records. |
| `Ranking.SwapKeepsRatedOrder` | ClassificationSystem.rb:64-68 | Swapping two adjacent records with different ratings does not change the order of the records of any one rating. |
| `Ranking.RankedNonIncreasing` | ClassificationSystem.rb:61 | The reference ranking runs from the highest rating to the lowest. |
| `Ranking.RankedIsStable` | ClassificationSystem.rb:64 | The reference ranking keeps, for each rating, the input order of the records with that rating, because the strict `<` never swaps equal ratings. |
| `Ranking.Ranked` | ClassificationSystem.rb:61-70 | The reference ranking is a permutation of its input. |
| `Ranking.SameRatedOrderPermutes` | ClassificationSystem.rb:64-68 | Two sequences with the same order per rating are permutations of each other. |
| `Ranking.StableOrderIsUnique` | ClassificationSystem.rb:61-70 | Two non-increasing sequences with the same order per rating are equal, so the sorted result is fully determined. |
| `Ranking.FirstIsHighest` | ClassificationSystem.rb:61 | The first record of a non-increasing sequence has the highest rating. |
| `ClassificationSystem.LeadingCount` | ClassificationSystem.rb:30-34 | The count covers only occupied slots, and stops at the first empty slot when there is one. |
| `ClassificationSystem.CountLeading` | ClassificationSystem.rb:30-34 | The counting loop with its `break` returns the number of tasks before the first empty slot. |
| `ClassificationSystem.LeadingCountUnique` | ClassificationSystem.rb:30-34 | A count whose slots are all occupied and that stops at an empty slot or at the end is the leading count. |
| `ClassificationSystem.RateTasks` | ClassificationSystem.rb:36-45 | The rating loop fills a new array of `count` records. Record `i` copies task `i`'s fields with the tree's prediction as rating and has no check box. |
| `ClassificationSystem.AddBonuses` | ClassificationSystem.rb:48-59 | The bonus loop adds to each record's rating the bonus of its own attributes and changes nothing else. |
| `ClassificationSystem.Bonus` | ClassificationSystem.rb:48-59 | The added points are at most 10, and at least 4 when every attribute is in the vocabulary. |
| `ClassificationSystem.TableLookup` | ClassificationSystem.rb:12-27 | A lookup in the training table answers with the default rating 1 or with a label of some row. |
| `ClassificationSystem.LookupFindsRow` | ClassificationSystem.rb:12-25 | A row whose attributes no earlier row shares is found with its own label. |
| `ClassificationSystem.RowsDiffer` | ClassificationSystem.rb:12-25 | No two training rows have the same four attributes, so the table is consistent. |
| `ClassificationSystem.LabelsAreRatings` | ClassificationSystem.rb:12-25 | Every training label is 10, 30 or 50. |
| `ClassificationSystem.LookupYieldsTreeRating` | ClassificationSystem.rb:27 | The table lookup answers only with 1, 10, 30 or 50. |
| `ClassificationSystem.TreeHypothesesSatisfiable` | ClassificationSystem.rb:27-28 | Some prediction function (the table lookup with default 1) satisfies both `FitsExemplars` and `YieldsTreeRating`, so the lemmas that assume them are not vacuous. |
| `ClassificationSystem.TypeBonus` | ClassificationSystem.rb:49-50 | The type earns points (at most 2) exactly when it is Personal or Study/work. |
| `ClassificationSystem.DeadlineBonus` | ClassificationSystem.rb:51-53 | The deadline earns points (at most 3) exactly when it is one of the three deadlines. |
| `ClassificationSystem.ImportanceBonus` | ClassificationSystem.rb:54-56 | The importance earns points (at most 3) exactly when it is one of the three levels. |
| `ClassificationSystem.DifficultyBonus` | ClassificationSystem.rb:57-58 | The difficulty earns points (at most 2) exactly when it is Normal or Hard. |
| `ClassificationSystem.BonusOrdersVocabulary` | ClassificationSystem.rb:49-58 | Study/work beats personal, a nearer deadline beats a farther one, more importance beats less, and hard beats normal. |
| `ClassificationSystem.ScoreRange` | ClassificationSystem.rb:12-25 | A task with recognised attributes and an exemplar label as prediction ends with a rating in 14..60. |
| `ClassificationSystem.ScoreRangeAnyTask` | ClassificationSystem.rb:27 | Under a predictor that answers like the tree (a label or the default 1), every final rating lies in 1..60. |
| `ClassificationSystem.Classify` | ClassificationSystem.rb:10-73 | The whole classifier returns `RankTasks`: the rated copies of the tasks before the first empty slot, ranked. |
| `ClassificationSystem.RankTasksLength` | ClassificationSystem.rb:36 | The result has one record per task before the first empty slot. |
| `ClassificationSystem.RankTasksOrdered` | ClassificationSystem.rb:61-70 | The result runs from the highest rating to the lowest. |
| `ClassificationSystem.RankTasksStablePermutation` | ClassificationSystem.rb:61-70 | The result is a permutation of the rated records, and equally rated records keep the order of their tasks. |
| `ClassificationSystem.RankTasksCopiesTasks` | ClassificationSystem.rb:44 | Every result record copies some counted task: its description and attributes unchanged, its rating the prediction plus the bonus, no check box, not checked. |
| `ClassificationSystem.ScenarioScores` | spec/integration/task_flow_spec.rb:8-12 | Under a tree that fits its table, the exam task scores 60, the movie task 14 and the exercise task 37. |
| `ClassificationSystem.RankThree` | ClassificationSystem.rb:61-70 | Three records rated high, low, middle are ranked high, middle, low. |
| `ClassificationSystem.RankTwo` | ClassificationSystem.rb:61-70 | Two records in strictly decreasing rating keep their order. |
| `ClassificationSystem.TwoTaskScenario` | test/test_classification_system.rb:26-58 | A ten-slot set holding the exam and the movie task gives two records. The exam comes first with its type and deadline preserved. |
| `ClassificationSystem.ThreeTaskScenario` | spec/integration/task_flow_spec.rb:8-28 | A ten-slot set holding three tasks gives three records: the exam (60) first, the exercise (37), then the movie (14). |
| `ClassificationSystemPy.SameTrainingTable` | ClassificationSystem.py:17-30 | The port trains on exactly the Ruby table, and every label is 10, 30 or 50. |
| `ClassificationSystemPy.PresentCount` | ClassificationSystem.py:35 | The port's count is at most the set's size, and is 0 exactly when every slot is empty. |
| `ClassificationSystemPy.Classify` | ClassificationSystem.py:15-65 | The port returns `PyRankTasks`: the ranking, or `AttributeError` at the first empty slot below its count. |
| `ClassificationSystemPy.LeadingCountAtMostPresent` | ClassificationSystem.py:35 | Counting every task gives at least the Ruby classifier's count. |
| `ClassificationSystemPy.LeadingCountAtLeast` | ClassificationSystem.py:38-47 | If the first `n` slots are all occupied, the leading count is at least `n`. |
| `ClassificationSystemPy.CountsAgreeOnPrefix` | ClassificationSystem.py:35 | The port's count equals the Ruby count exactly when no task follows an empty slot. |
| `ClassificationSystemPy.PortAgreesOnPrefix` | ClassificationSystem.py:35-65 | The port succeeds exactly when the tasks form a prefix of the set, and then returns what the Ruby classifier returns. |
| `ClassificationSystemPy.PortFailsOnGap` | ClassificationSystem.py:38-41 | With a task after an empty slot, the port fails at the first empty slot. |
| `ClassificationSystemPy.GapScenario` | ClassificationSystem.py:41 | The set with an empty first slot and a task in the second fails at slot 0. |
| `EvaluationSystem.Percent` | EvaluationSystem.rb:27 | Over a whole of 0 the percentage is not a number when the part is 0 too, and infinite when the part is positive. Otherwise it is the exact ratio to the nearest tenth of a percent, with halves rounded up. |
| `EvaluationSystem.PercentRange` | EvaluationSystem.rb:27 | A part of a positive whole rates 0.0 to 100.0, and the whole of it rates exactly 100.0. |
| `EvaluationSystem.RoundsUpToFull` | EvaluationSystem.rb:27 | 1999 of 2000 rounds up to 100.0, so 100.0 does not mean every task. |
| `EvaluationSystem.MatchCount` | EvaluationSystem.rb:20-23 | The number of matching positions below `n` is at most `n`, and equals `n` exactly when all of them match. |
| `EvaluationSystem.RateAccuracy` | EvaluationSystem.rb:15-36 | The loop returns `AccuracyOf`: the statistics when the lengths agree, else the fixed message. |
| `EvaluationSystem.AccuracyShape` | EvaluationSystem.rb:15-36 | Statistics come back exactly when the lengths agree, with `corrects <= num_of_tasks`; otherwise the fixed message. |
| `EvaluationSystem.PerfectPrediction` | EvaluationSystem.rb:15-31 | A non-empty prediction equal to reality gets every position correct and 100.0. |
| `EvaluationSystem.AllCorrectIffSameOrder` | EvaluationSystem.rb:20-23 | Every position counts as correct exactly when the predicted order is the real order. |
| `EvaluationSystem.AccuracyExamples` | spec/evaluation_system_spec.rb:6-26 | Two identical orders give 2 corrects and 100.0. Lengths 3 and 2 give the message. |
| `EvaluationSystem.PerformanceCountsOnly` | EvaluationSystem.rb:38-44 | Performance depends only on the two lengths, and reports them as total and completed. |
| `EvaluationSystem.PerformanceRange` | EvaluationSystem.rb:41 | Completing some of a non-empty set rates 0.0 to 100.0. |
| `EvaluationSystem.RatePerformance` | EvaluationSystem.rb:38-44 | Total and completed are the two lengths, and the percentage is `Percent(completed, total)`. It is not a number exactly when both lists are empty, infinite exactly when there are no tasks but some completed, and at most 100.0 when no more tasks are completed than exist. |
| `EvaluationSystem.PerformanceHalf` | test/test_evaluation_system.rb:38-60 | Two of four tasks completed gives total 4, completed 2 and 50.0. |
| `EvaluationSystem.PerformanceThreeOfFive` | spec/evaluation_system_spec.rb:30-40 | Three of five completed gives total 5, completed 3 and 60.0. |
| `EvaluationSystem.PerformanceOfThree` | spec/integration/task_flow_spec.rb:41-100 | Two, one and none of three completed give 66.7, 33.3 and 0.0. |
| `EvaluationSystem.PerformanceAllOfOne` | spec/integration_spec.rb:17-24 | One of one completed gives total 1, completed 1 and 100.0. |
| `EvaluationSystem.PerformanceOverNoTasks` | EvaluationSystem.rb:39-41 | With no tasks but some completed, the counts are 0 and the completed length, and the percentage is infinite. |
| `EvaluationSystem.PerformanceOfNothing` | test/test_evaluation_system.rb:62-70 | With no tasks, both counts are 0 and the percentage is not a number. |

## Left out

- The decision trees are not modelled. The Ruby ID3 tree and the Python `DecisionTreeClassifier` come from libraries. Each classifier's prediction is a parameter `predict`, given separately to the Ruby and the Python model. Their training is summed up by the hypotheses `FitsExemplars` and `YieldsTreeRating`, which the model states but does not derive from the library.
- `ClassificationSystemPy.PortAgreesOnPrefix` gives both classifiers the same prediction function. The two programs train different trees (an ID3 tree with default 1 at ClassificationSystem.rb:27, a CART tree with no default at ClassificationSystem.py:33-34). The model does not relate their predictions beyond what `FitsExemplars` says of the twelve training rows, so on other attribute values the two classifiers may rate, and therefore rank, differently.
- The Python tree never trains: scikit-learn's `fit` rejects the string features of ClassificationSystem.py:31-34 with a `ValueError`. The model assumes a working tree, as if the features had been encoded.
- The module-level call at ClassificationSystem.py:66 is left out. It runs whenever the module is loaded, as a script or by import. It would raise at `fit` with a `ValueError` before reading its argument, and that argument, a list of strings, has no `type_arranged` attributes either.
- The debug output (`puts` / `print` under a command-line argument) is left out, because it does not affect the result.
- Floating point is left out. Percentages are exact tenths, rounded half up. `Float#round(1)` on the binary double of the ratio can differ from this in the last place.
- There is no zero guard: `rate_performance([], [])` and `rate_accuracy([], [])` compute `0.0 / 0.0` (EvaluationSystem.rb:27, 41), which is NaN; the model returns `NotANumber`. `rate_performance([], completed)` with a non-empty `completed` computes a positive number over `0.0`, which is Infinity and stays Infinity through `* 100` and `round(1)`; the model returns `Infinite`. The float values themselves (NaN's inequality to itself, Infinity's arithmetic) are not modelled.
- `Classification` objects are modelled as values. Object identity is not modelled, and neither is the aliasing between the array the sort permutes and records the UI later mutates (`is_checked`, `checkbox`).
- The Python port reuses the modelled bubble sort, rating records and bonus loop. Its tuple-assignment swap at ClassificationSystem.py:64 has the same effect as the Ruby swap through a temporary.
- Both classifiers read the same model `Task` record. The port's input objects carry the fields `description_arranged`, `type_arranged`, `deadline_arranged`, `importance_arranged` and `difficulty_arranged` (ClassificationSystem.py:41, 47). The Ruby input carries `description`, `type`, `deadline`, `importance` and `difficulty` (ClassificationSystem.rb:40, 44). The model maps both to the fields of `Task`, so an input that has one set of names and lacks the other is not modelled.
- `rate_accuracy` compares elements only with `==`. The model takes any type with equality, so it does not capture Ruby's object `==` on `Classification` records (identity unless redefined).
- The user interface, persistence, metrics and security helpers (AutomaticTaskArranging.rb, TextInput.rb, prometheus_metrics.rb, security_fix.rb) are not part of this model.
