/**
 * The records the classifier reads and the records it produces.
 *
 * A task's four attributes are kept as the strings the user interface
 * stores; the classifier compares them with string equality, so a value
 * outside the expected vocabulary is representable and simply earns no
 * bonus.
 */
module TaskRecords {

  /** A slot of a task set: `nil` / `None` in the source, or a task. */
  datatype Option<T> = None | Some(value: T)

  // The attribute vocabulary the rating rules recognise.
  const StudyWork := "Study/work"
  const Personal := "Personal"
  const OneDayLeft := "1 day left"
  const TwoDaysLeft := "2 days left"
  const ThreeDaysLeft := "3 days left"
  const VeryImportant := "Very important"
  const QuiteImportant := "Quite important"
  const NotImportant := "Not important"
  const Hard := "Hard"
  const Normal := "Normal"

  /** A task as the user entered it. */
  datatype Task = Task(
    description: string,
    taskType: string,
    deadline: string,
    importance: string,
    difficulty: string)

  /** The on-screen position of a task's check box (set later by the UI). */
  datatype Checkbox = Checkbox(x: int, y: int)

  /**
   * A rated task: the task's text fields, its rating, and the two fields
   * the user interface fills in later (`checkbox`, `is_checked`), which
   * start out as `nil`.
   */
  datatype Classification = Classification(
    descriptionArranged: string,
    typeArranged: string,
    deadlineArranged: string,
    importanceArranged: string,
    difficultyArranged: string,
    rating: int,
    checkbox: Option<Checkbox>,
    isChecked: Option<bool>)
}
