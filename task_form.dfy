/**
 * The create/edit form of src/TaskForm.tsx: its five field states, the
 * `isFormOpen` and `editingTaskId` values it shares through TaskContext, the
 * submit decision, the reset and close handlers and the edit-prefill effect.
 */
module TaskForm {
  import opened Wrappers
  import opened Text
  import opened Types

  /** The five `useState` fields; the assignee select holds '' for "Unassigned". */
  datatype Fields = Fields(title: string, description: string, status: Status, priority: Priority, assigneeId: string)

  /** `taskData`, the payload of `createTask` and `updateTask`. */
  datatype TaskData = TaskData(title: string, description: string, status: Status, priority: Priority, assigneeId: Option<string>)

  /** What one submit does: alert and stop, or issue exactly one request. */
  datatype SubmitOutcome =
    | Rejected(alert: string)
    | CreateIssued(data: TaskData)
    | UpdateIssued(id: string, data: TaskData)

  const TitleRequired := "Title is required"

  /** `resetForm`'s values. */
  const EmptyFields := Fields("", "", Todo, Medium, "")

  /** The prefill effect's values for a task being edited. */
  function Prefilled(t: Task): (f: Fields)
    ensures f.title == t.title && f.description == t.description
    ensures f.status == t.status && f.priority == t.priority
    ensures f.assigneeId == "" <==> !Truthy(t.assigneeId)
    ensures Truthy(t.assigneeId) ==> f.assigneeId == t.assigneeId.value
  {
    Fields(t.title, t.description, t.status, t.priority, EmptyIfNull(t.assigneeId))
  }

  /**
   * Validation and normalisation: rejected exactly when the trimmed title is
   * empty (priority, assignee and the rest play no part); otherwise title and
   * description trimmed, status and priority as they are, '' assignee as null.
   */
  function BuildTaskData(f: Fields): (r: Option<TaskData>)
    ensures r.None? <==> AllWhitespace(f.title)
    ensures r.Some? ==> r.value.title != "" && Trim(r.value.title) == r.value.title
    ensures r.Some? ==> r.value.title == Trim(f.title) && r.value.description == Trim(f.description)
    ensures r.Some? ==> r.value.status == f.status && r.value.priority == f.priority
    ensures r.Some? ==> r.value.assigneeId == NullIfEmpty(f.assigneeId)
  {
    if Trim(f.title) == "" then None
    else
      TrimIdempotent(f.title);
      Some(TaskData(Trim(f.title), Trim(f.description), f.status, f.priority, NullIfEmpty(f.assigneeId)))
  }

  /** `handleSubmit`'s choice: reject, update the task being edited (a truthy id), or create. */
  function Decide(f: Fields, editingTaskId: Option<string>): (r: SubmitOutcome)
    ensures r.Rejected? <==> AllWhitespace(f.title)
    ensures r.Rejected? ==> r.alert == TitleRequired
    ensures r.UpdateIssued? <==> !AllWhitespace(f.title) && Truthy(editingTaskId)
    ensures r.UpdateIssued? ==> r.id == editingTaskId.value
    ensures !r.Rejected? ==> BuildTaskData(f) == Some(r.data)
  {
    match BuildTaskData(f)
    case None => Rejected(TitleRequired)
    case Some(data) =>
      if Truthy(editingTaskId) then UpdateIssued(editingTaskId.value, data) else CreateIssued(data)
  }

  /**
   * Prefilling from a task and submitting unchanged gives back its trimmed
   * title and description, its status and priority, and its assignee (a null
   * one stays null).
   */
  lemma PrefillSubmitRoundTrip(t: Task)
    requires !AllWhitespace(t.title)
    requires t.assigneeId != Some("")
    ensures BuildTaskData(Prefilled(t)) ==
      Some(TaskData(Trim(t.title), Trim(t.description), t.status, t.priority, t.assigneeId))
  {
    NullIfEmptyRoundTrip("", t.assigneeId);
  }

  /** Submitting already-submitted data again gives the same data. */
  lemma ResubmitIsStable(f: Fields)
    requires !AllWhitespace(f.title)
    ensures var d := BuildTaskData(f).value;
      BuildTaskData(Fields(d.title, d.description, d.status, d.priority, EmptyIfNull(d.assigneeId))) == Some(d)
  {
    TrimIdempotent(f.description);
    NullIfEmptyRoundTrip(f.assigneeId, None);
  }

  /**
   * `editingTask`, derived again on every render: the first loaded task whose
   * id is the editing id, when that id is truthy.
   */
  function EditingTask(editingTaskId: Option<string>, tasks: seq<Task>): (r: Option<Task>)
    ensures r.Some? <==> Truthy(editingTaskId) && exists k :: 0 <= k < |tasks| && tasks[k].id == editingTaskId.value
    ensures r.Some? ==> r.value.id == editingTaskId.value
    ensures r.Some? ==> exists i :: 0 <= i < |tasks| && tasks[i] == r.value && forall k :: 0 <= k < i ==> tasks[k].id != r.value.id
  {
    if !Truthy(editingTaskId) then None
    else
      var i := IndexOfTask(tasks, editingTaskId.value);
      if i == -1 then None else Some(tasks[i])
  }

  /** What one run of the prefill effect leaves in the fields. */
  function EffectFields(editing: Option<Task>): Fields {
    match editing
    case Some(t) => Prefilled(t)
    case None => EmptyFields
  }

  /**
   * The fields after a render, as written: the effect's dependency list is
   * `[editingTaskId]` alone, so it runs only when the id differs from the one
   * of the previous render, and a change to the task list leaves the fields
   * as they were.
   */
  function AfterRender(prevId: Option<string>, id: Option<string>, tasks: seq<Task>, f: Fields): Fields {
    if id != prevId then EffectFields(EditingTask(id, tasks)) else f
  }

  /**
   * The fields after a render with the effect keyed on the editing task as
   * well: it also runs when the task being edited changed in the store. A
   * form that showed the editing task before keeps showing it, and a render
   * that changes neither the id nor that task keeps the user's edits.
   */
  function IntendedAfterRender(prevId: Option<string>, prevTasks: seq<Task>, id: Option<string>, tasks: seq<Task>, f: Fields): (r: Fields)
    ensures f == EffectFields(EditingTask(prevId, prevTasks)) ==> r == EffectFields(EditingTask(id, tasks))
    ensures id == prevId && EditingTask(id, tasks) == EditingTask(prevId, prevTasks) ==> r == f
    ensures id != prevId ==> r == AfterRender(prevId, id, tasks, f)
  {
    if id != prevId || EditingTask(id, tasks) != EditingTask(prevId, prevTasks) then EffectFields(EditingTask(id, tasks))
    else f
  }

  /**
   * As written, a form prefilled from task "1" keeps the old title after the
   * store replaces that task with an edited copy under the same id; the
   * intended render picks the new title up.
   */
  lemma StaleAfterTaskUpdate()
    ensures var t := Task("1", "Original Title", "", Todo, Medium, None, None, "", "");
      var t' := t.(title := "Updated Title");
      var f := EffectFields(EditingTask(Some("1"), [t]));
      f == Prefilled(t) &&
      AfterRender(Some("1"), Some("1"), [t'], f).title == "Original Title" &&
      AfterRender(Some("1"), Some("1"), [t'], f) != EffectFields(EditingTask(Some("1"), [t'])) &&
      IntendedAfterRender(Some("1"), [t], Some("1"), [t'], f).title == "Updated Title"
  {
    var t := Task("1", "Original Title", "", Todo, Medium, None, None, "", "");
    var t' := t.(title := "Updated Title");
    assert Truthy(Some("1"));
    assert EditingTask(Some("1"), [t]) == Some(t) by { assert [t][0].id == "1"; }
    assert EditingTask(Some("1"), [t']) == Some(t') by { assert [t'][0].id == "1"; }
  }

  class Form {
    var title: string
    var description: string
    var status: Status
    var priority: Priority
    var assigneeId: string
    var isFormOpen: bool
    var editingTaskId: Option<string>

    function CurrentFields(): Fields
      reads this
    {
      Fields(title, description, status, priority, assigneeId)
    }

    /** The initial field states and the context's initial values: closed, not editing. */
    constructor ()
      ensures CurrentFields() == EmptyFields && !isFormOpen && editingTaskId == None
    {
      title, description, status, priority, assigneeId := "", "", Todo, Medium, "";
      isFormOpen := false;
      editingTaskId := None;
    }

    method ResetForm()
      modifies this
      ensures CurrentFields() == EmptyFields
      ensures isFormOpen == old(isFormOpen) && editingTaskId == old(editingTaskId)
    {
      title := "";
      description := "";
      status := Todo;
      priority := Medium;
      assigneeId := "";
    }

    method HandleClose()
      modifies this
      ensures CurrentFields() == EmptyFields && !isFormOpen && editingTaskId == None
    {
      isFormOpen := false;
      editingTaskId := None;
      ResetForm();
    }

    /**
     * The effect run when `editingTaskId` changes: with a truthy id naming a
     * loaded task, its values fill the fields; otherwise the form is reset.
     */
    method PrefillFromEditing(tasks: seq<Task>)
      modifies this
      ensures var i := if Truthy(editingTaskId) then IndexOfTask(tasks, editingTaskId.value) else -1;
        CurrentFields() == if i == -1 then EmptyFields else Prefilled(tasks[i])
      ensures CurrentFields() == EffectFields(EditingTask(editingTaskId, tasks))
      ensures isFormOpen == old(isFormOpen) && editingTaskId == old(editingTaskId)
    {
      var index := if Truthy(editingTaskId) then IndexOfTask(tasks, editingTaskId.value) else -1;
      if index != -1 {
        var editing := tasks[index];
        title := editing.title;
        description := editing.description;
        status := editing.status;
        priority := editing.priority;
        assigneeId := EmptyIfNull(editing.assigneeId);
      } else {
        ResetForm();
      }
    }

    /**
     * `setEditingTaskId` followed by a render with the store's task list: the
     * prefill effect runs when the id differs from the previous one (React
     * compares the dependency by value for strings and null), and otherwise
     * the fields stay as they were, even when the task list changed.
     */
    method SetEditingTaskId(id: Option<string>, tasks: seq<Task>)
      modifies this
      ensures editingTaskId == id && isFormOpen == old(isFormOpen)
      ensures id != old(editingTaskId) ==> CurrentFields() == EffectFields(EditingTask(id, tasks))
      ensures id == old(editingTaskId) ==> CurrentFields() == old(CurrentFields())
      ensures CurrentFields() == AfterRender(old(editingTaskId), id, tasks, old(CurrentFields()))
    {
      if id != editingTaskId {
        editingTaskId := id;
        PrefillFromEditing(tasks);
      }
    }

    /**
     * `handleSubmit`: a rejected submit changes nothing and the form stays
     * open; an accepted one issues one request, closes the form, stops editing
     * and resets the fields.
     */
    method HandleSubmit() returns (outcome: SubmitOutcome)
      modifies this
      ensures outcome == Decide(old(CurrentFields()), old(editingTaskId))
      ensures outcome.Rejected? ==>
        CurrentFields() == old(CurrentFields()) && isFormOpen == old(isFormOpen) && editingTaskId == old(editingTaskId)
      ensures !outcome.Rejected? ==> CurrentFields() == EmptyFields && !isFormOpen && editingTaskId == None
    {
      if Trim(title) == "" {
        outcome := Rejected(TitleRequired);
        return;
      }
      var taskData := TaskData(Trim(title), Trim(description), status, priority, NullIfEmpty(assigneeId));
      if Truthy(editingTaskId) {
        outcome := UpdateIssued(editingTaskId.value, taskData);
      } else {
        outcome := CreateIssued(taskData);
      }
      HandleClose();
    }
  }

}
