/** The label of src/TaskDueDate.tsx. */
module TaskDueDate {
  import opened Wrappers

  const NoDueDateLabel := "No due date"
  const DuePrefix := "Due: "

  /**
   * `!dueDate ? 'No due date' : 'Due: ' + dueDate`. Null and '' are both falsy;
   * the date is shown raw, and the status plays no part.
   */
  function DueDateLabel(dueDate: Option<string>, status: string): (text: string)
    ensures dueDate == None || dueDate == Some("") ==> text == NoDueDateLabel
    ensures dueDate.Some? && dueDate.value != "" ==> text == DuePrefix + dueDate.value
  {
    if dueDate.None? || dueDate.value == "" then NoDueDateLabel else DuePrefix + dueDate.value
  }

  /** Reads the date back from a label; `None` for the no-due-date label. */
  function LabelDate(text: string): (d: Option<string>)
    ensures d.Some? ==> text == DuePrefix + d.value
  {
    if |text| >= |DuePrefix| && text[..|DuePrefix|] == DuePrefix then
      assert text == DuePrefix + text[|DuePrefix|..];
      Some(text[|DuePrefix|..])
    else None
  }

  /**
   * The label determines the date: reading it back gives the date when it is
   * truthy and null otherwise, whatever the status.
   */
  lemma LabelRoundTrip(dueDate: Option<string>, status: string)
    ensures LabelDate(DueDateLabel(dueDate, status)) ==
      if dueDate.Some? && dueDate.value != "" then dueDate else None
  {
    var text := DueDateLabel(dueDate, status);
    if dueDate.Some? && dueDate.value != "" {
      assert text[..|DuePrefix|] == DuePrefix;
      assert text[|DuePrefix|..] == dueDate.value;
    } else {
      assert text[0] != DuePrefix[0];
    }
  }

}
