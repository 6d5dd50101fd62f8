/** The tab counts and the three change handlers of src/TaskFilter.tsx. */
module TaskFilterPanel {
  import opened Wrappers
  import opened Seqs
  import opened Types
  import opened TaskReducer
  import TaskStats

  datatype TabCounts = TabCounts(all: nat, todo: nat, inProgress: nat, done: nat)

  function StatusIsNot(s: Status): Task -> bool {
    (t: Task) => t.status != s
  }

  /**
   * `taskCounts` as written: the "todo" tab counts the tasks whose status is
   * NOT todo (`t.status !== 'todo'`), which is the in-progress and done tasks
   * together.
   */
  function TaskCounts(ts: seq<Task>): (c: TabCounts)
    ensures c.all == |ts|
    ensures c.inProgress == |Filter(ts, StatusIs(InProgress))| && c.done == |Filter(ts, StatusIs(Done))|
    ensures c.todo == c.inProgress + c.done
    ensures c.inProgress + c.done <= c.all
    ensures c.todo == c.all - |Filter(ts, StatusIs(Todo))|
  {
    TaskStats.StatusCountsPartition(ts);
    NotTodoIsInProgressOrDone(ts);
    TabCounts(
      |ts|,
      |Filter(ts, StatusIsNot(Todo))|,
      |Filter(ts, StatusIs(InProgress))|,
      |Filter(ts, StatusIs(Done))|)
  }

  lemma {:induction false} NotTodoIsInProgressOrDone(ts: seq<Task>)
    ensures |Filter(ts, StatusIsNot(Todo))| == |Filter(ts, StatusIs(InProgress))| + |Filter(ts, StatusIs(Done))|
  {
    if ts != [] {
      NotTodoIsInProgressOrDone(ts[1..]);
    }
  }

  /** `taskCounts` with the todo tab counting `t.status === 'todo'`. */
  function IntendedTaskCounts(ts: seq<Task>): (c: TabCounts)
    ensures c.all == |ts|
    ensures c.todo == |Filter(ts, StatusIs(Todo))|
    ensures c.inProgress == |Filter(ts, StatusIs(InProgress))| && c.done == |Filter(ts, StatusIs(Done))|
    ensures c.todo + c.inProgress + c.done == c.all
    ensures var st := TaskStats.ComputeStats(ts);
      c.todo == st.todo && c.inProgress == st.inProgress && c.done == st.done
  {
    TaskStats.StatusCountsPartition(ts);
    TabCounts(
      |ts|,
      |Filter(ts, StatusIs(Todo))|,
      |Filter(ts, StatusIs(InProgress))|,
      |Filter(ts, StatusIs(Done))|)
  }

  /** One todo task: the todo tab as written shows 0, the intended count is 1. */
  lemma TodoTabMiscounts(t: Task)
    requires t.status == Todo
    ensures TaskCounts([t]).todo == 0
    ensures IntendedTaskCounts([t]).todo == 1
  {
    assert Filter([t], StatusIsNot(Todo)) == [];
    assert Filter([t], StatusIs(Todo)) == [t];
  }

  /** `setFilter({ status })`: the patch holds the status only. */
  function StatusTabPatch(s: StatusFilter): (p: FilterPatch)
    ensures forall f :: MergeFilter(f, p) == f.(status := s)
  {
    FilterPatch(Some(s), None, None)
  }

  /** `setFilter({ searchQuery: e.target.value })`: raw input, not trimmed. */
  function SearchPatch(value: string): (p: FilterPatch)
    ensures forall f :: MergeFilter(f, p) == f.(searchQuery := value)
  {
    FilterPatch(None, Some(value), None)
  }

  /**
   * `setFilter({ assigneeId: e.target.value || null })`: the "All Assignees"
   * option '' becomes null, any other value passes through. The select shows
   * `filter.assigneeId || ''`, so after the change it shows the chosen value.
   */
  function AssigneePatch(value: string): (p: FilterPatch)
    ensures forall f :: MergeFilter(f, p) == f.(assigneeId := if value == "" then None else Some(value))
    ensures forall f :: EmptyIfNull(MergeFilter(f, p).assigneeId) == value
  {
    FilterPatch(None, None, Some(NullIfEmpty(value)))
  }

}
