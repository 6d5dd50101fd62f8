# Task dashboard core, modelled in Dafny

This project models the logic of a task-tracking dashboard: the client's `tasks` and
`users` state slices (Redux reducers that mutate a draft in place), the visible-task
selector of the task list, the statistics panel, the filter panel's tab counts and
change handlers, the create/edit form, the due-date label, and the server's in-memory
`tasks` and `comments` tables. The reducers, the form and the server tables are
classes whose fields the methods update; the selectors and helpers are functions.
The JavaScript built-ins they call are functions: `Array.prototype.filter` is
`Seqs.Filter`, `findIndex` is `Seqs.FirstIndex` (by id: `Types.IndexOfTask`, which also
stands for `find` in `updateTaskStatus` and the form's prefill), `splice(i, 1)` is
`Seqs.RemoveAt`, `indexOf` on the selection is `TaskReducer.IndexOfId`, the status
`sort` is `TaskReducer.SortByStatus`, and `String.prototype.trim`, `toLowerCase` and
`includes` are `Text.Trim`, `Text.ToLower` and `Text.Contains`.

Files: `wrappers.dfy` (Option), `seqs.dfy`, `text.dfy`, `types.dfy` (src/types.ts),
`task_reducer.dfy`, `user_reducer.dfy`, `task_list.dfy`, `task_stats.dfy`,
`task_filter_panel.dfy`, `task_form.dfy`, `task_due_date.dfy`, `server.dfy`.

The code has no rule about which status a task may move to: `updateTaskStatus` sets
any status, and `StatusUpdateApplies` holds for every pair of statuses. `TaskDueDate`
only tests the date for null or empty; it sorts dates into no buckets (overdue, today
and so on) and ignores the status, as `DueDateLabel` does. The bulk-action handlers of
src/BulkActions.tsx are empty, so nothing partitions a selection or protects
high-priority tasks.

Identifiers (`Date.now()`), timestamps (`new Date().toISOString()`) and the server's
fixture lists are parameters.

## Model

| member | source | states |
|---|---|---|
| Seqs.Filter | src/TaskList.tsx:36-47 | `Array.prototype.filter`: an element is in the result iff it is in the input and passes; never longer than the input |
| Seqs.FilterMultiset | server/index.ts:68-69 | filtering keeps each passing element exactly as often as it occurs, and drops every failing one |
| Seqs.FilterSubsequence | server/index.ts:54 | the filtered list is an order-preserving subsequence of the input |
| Seqs.FilterIdempotent | src/TaskList.tsx:36 | filtering twice by the same predicate is filtering once |
| Seqs.FirstIndex | src/taskReducer.ts:44 | `findIndex`: -1 iff no element passes; otherwise the element at the index passes and none before it does |
| Seqs.RemoveAt | server/index.ts:53 | `splice(i, 1)`: one shorter, elements before `i` in place, elements after shifted down by one, the multiset loses exactly `s[i]` |
| Text.Trim | src/TaskForm.tsx:45 | `trim`: the slice of the input between its leading and its trailing whitespace (the ECMAScript WhiteSpace and LineTerminator set), with no whitespace at either end of it; empty iff the input is all whitespace |
| Text.TrimIdempotent | src/TaskForm.tsx:50-51 | trimming a trimmed string changes nothing |
| Text.ToLower | src/TaskList.tsx:40 | `toLowerCase` on ASCII: same length, each character lower-cased |
| Text.ToLowerIdempotent | src/TaskList.tsx:40 | lower-casing twice is lower-casing once |
| Text.Contains | src/TaskList.tsx:40 | `includes`: the empty query occurs in every title, and a query longer than the title never occurs |
| Text.ContainsAt | src/TaskList.tsx:40 | `includes` holds iff the needle occurs at some position, in both directions |
| Text.ContainsToLower | src/TaskList.tsx:40 | an occurrence survives lower-casing both sides |
| Types.IndexOfTask | src/taskReducer.ts:44 | `findIndex` by id: -1 iff no task has the id; otherwise the first task with the id |
| Types.TasksNotIn | src/taskReducer.ts:90 | the bulk delete filter: exactly the tasks whose id is not listed, survivors in order and with their multiplicity |
| Types.NullIfEmpty | src/TaskForm.tsx:55 | `value \|\| null`: null iff the string is empty, otherwise the string itself |
| Types.EmptyIfNull | src/TaskForm.tsx:28 | `value \|\| ''`: empty iff the value is null or empty, otherwise the value itself |
| Types.NullIfEmptyRoundTrip | src/TaskFilter.tsx:27-29 | the two coercions undo each other, on every string and on every id other than '' |
| TaskReducer.TasksStore.constructor | src/taskReducer.ts:4-14 | no tasks, not loading, no error, filter all/''/null, empty selection |
| TaskReducer.TasksStore.FetchTasksStarted | src/taskReducer.ts:20-23 | loading set, error cleared, all else unchanged |
| TaskReducer.TasksStore.FetchTasksSuccess | src/taskReducer.ts:24-27 | loading cleared, tasks replaced by the fetched list, all else unchanged |
| TaskReducer.TasksStore.FetchTasksFailure | src/taskReducer.ts:28-31 | loading cleared, error set, tasks unchanged |
| TaskReducer.TasksStore.CreateTaskStarted | src/taskReducer.ts:32-34 | loading set, error and all else unchanged |
| TaskReducer.TasksStore.CreateTaskSuccess | src/taskReducer.ts:35-38 | loading cleared, the created task appended at the end |
| TaskReducer.TasksStore.CreateTaskFailure | src/taskReducer.ts:39-42 | loading cleared, error set, tasks unchanged |
| TaskReducer.TasksStore.UpdateTaskSuccess | src/taskReducer.ts:43-48 | tasks become `ReplaceTask` of the old tasks; loading, error, filter, selection unchanged |
| TaskReducer.ReplaceTask | src/taskReducer.ts:43-48 | same length; the first task with the id replaced and every other index unchanged; no match leaves the list as it was |
| TaskReducer.ReplaceTaskStable | src/taskReducer.ts:44-46 | the id keeps its index, replacing again changes nothing, the new task is present when the id was |
| TaskReducer.TasksStore.UpdateTaskFailure | src/taskReducer.ts:49-51 | error set; tasks and loading unchanged |
| TaskReducer.TasksStore.DeleteTaskSuccess | src/taskReducer.ts:52-55 | tasks and selection both lose the id; a selection within the task ids stays within them |
| TaskReducer.WithoutTask | src/taskReducer.ts:53 | exactly the tasks with another id, in order, with their multiplicity |
| TaskReducer.WithoutId | src/taskReducer.ts:54 | exactly the selected ids other than the deleted one, in order, each as often as before |
| TaskReducer.DeleteKeepsSelectionWithin | src/taskReducer.ts:52-55 | if every selected id named a task before a delete, it still does after; the id is gone from both |
| TaskReducer.TasksStore.DeleteTaskFailure | src/taskReducer.ts:56-58 | error set; tasks and loading unchanged |
| TaskReducer.TasksStore.SetFilter | src/taskReducer.ts:59-61 | the filter becomes the merge of the old filter and the patch; nothing else changes |
| TaskReducer.MergeFilter | src/taskReducer.ts:60 | each key present in the patch wins, each absent key keeps its old value |
| TaskReducer.MergeFilterIdempotent | src/taskReducer.ts:60 | merging a patch twice is merging it once; the empty patch changes nothing |
| TaskReducer.StatusOrder | src/taskReducer.ts:70 | todo 0, in progress 1, done 2, a bijection onto 0..2 |
| TaskReducer.MarkStatus | src/taskReducer.ts:64-68 | the first task with the id gets the new status and timestamp, every other index unchanged; no match leaves the list as it was |
| TaskReducer.TasksStore.UpdateTaskStatus | src/taskReducer.ts:62-72 | tasks become the status sort of the marked list, sorted by rank; nothing else changes |
| TaskReducer.SortByStatus | src/taskReducer.ts:69-72 | the stable `sort` by status rank: the todo, then the in-progress, then the done tasks, each group in input order; the result is ordered by rank and is a permutation of its input |
| TaskReducer.SortByStatusStable | src/taskReducer.ts:69-72 | the tasks of each status keep their relative order through the sort |
| TaskReducer.SortByStatusUnique | src/taskReducer.ts:69-72 | any list ordered by rank that keeps each status group in input order equals the sort's result, so this is the stable sort |
| TaskReducer.StatusUpdateApplies | src/taskReducer.ts:62-72 | for every old and new status, the updated first task is in the sorted result, which is the old multiset with that one task swapped; with no match the list is only re-sorted |
| TaskReducer.IndexOfId | src/taskReducer.ts:76 | `indexOf`: -1 iff absent; otherwise the id's first occurrence |
| TaskReducer.Toggled | src/taskReducer.ts:74-82 | an absent id appended at the end; a present id's first occurrence removed, the list one shorter |
| TaskReducer.ToggleFlips | src/taskReducer.ts:74-82 | on a duplicate-free selection the id's membership flips, other ids are kept, no duplicate appears |
| TaskReducer.ToggleTwice | src/taskReducer.ts:74-82 | when the id occurs at most once, toggling it twice restores the same ids: the same list when it was absent, the same multiset when present |
| TaskReducer.TasksStore.ToggleTaskSelection | src/taskReducer.ts:74-82 | the selection becomes `Toggled` of the old one; nothing else changes |
| TaskReducer.TasksStore.SelectAllTasks | src/taskReducer.ts:83-85 | the selection is the given list verbatim; tasks and filter unchanged |
| TaskReducer.TasksStore.ClearSelection | src/taskReducer.ts:86-88 | the selection is empty; tasks and filter unchanged |
| TaskReducer.TasksStore.BulkDeleteSuccess | src/taskReducer.ts:89-92 | tasks lose exactly the listed ids, survivors in order; the selection is emptied |
| UserReducer.UsersStore.constructor | src/userReducer.ts:4-7 | no users, not loading |
| UserReducer.UsersStore.FetchUsersStarted | src/userReducer.ts:13-15 | loading set, users unchanged |
| UserReducer.UsersStore.FetchUsersSuccess | src/userReducer.ts:16-19 | loading cleared, users replaced wholesale |
| UserReducer.UsersStore.FetchUsersFailure | src/userReducer.ts:20-22 | loading cleared, previous users kept |
| TaskList.VisibleTasks | src/TaskList.tsx:36-47 | an order-preserving subsequence holding exactly the tasks passing all three criteria, each as often as in the input; with a status chosen every one has it, with a truthy assignee every one has that assignee |
| TaskList.VisibleIdempotent | src/TaskList.tsx:36-47 | re-filtering a filtered list with the same filter returns it unchanged |
| TaskList.DefaultFilterShowsAll | src/TaskList.tsx:37-46 | the filter all, '', null returns every task in order |
| TaskList.EmptyAssigneeIsNoFilter | src/TaskList.tsx:43-45 | the assignee filters null and '' give the same visible list |
| TaskList.SearchIgnoresCase | src/TaskList.tsx:40-42 | a title containing the query verbatim passes the search; lower-casing the query changes no result |
| TaskStats.StatusCountsPartition | src/TaskStats.tsx:26-28 | the three status counts add up to the number of tasks |
| TaskStats.ComputeStats | src/TaskStats.tsx:24-30 | total is the task count; todo, in progress and done count the tasks with that status and high priority the tasks with high priority; the status counts sum to the total, done equals it iff all are done and is 0 iff none are |
| TaskStats.AllPassIffFilterIsAll | src/TaskStats.tsx:28 | a filtered count equals the total iff every task passes and is 0 iff none does |
| TaskStats.CompletionRate | src/TaskStats.tsx:32-34 | 0 for no tasks; otherwise 100 * done / total rounded half up, within 0..100, 100 when all are done and 0 when none are |
| TaskStats.RoundingBounds | src/TaskStats.tsx:33 | the integer quotient is the half-up rounding and meets the bounds above |
| TaskFilterPanel.TaskCounts | src/TaskFilter.tsx:12-17 | as written: all is the task count, the in-progress and done tabs count the tasks with that status, the todo tab equals in progress plus done, that is the tasks that are not todo |
| TaskFilterPanel.NotTodoIsInProgressOrDone | src/TaskFilter.tsx:14-16 | the tasks that are not todo are the in-progress ones plus the done ones |
| TaskFilterPanel.IntendedTaskCounts | src/TaskFilter.tsx:12-17 | with `===`, each status tab counts the tasks with that status, equals the statistics panel's count for it, and the three tabs sum to all |
| TaskFilterPanel.TodoTabMiscounts | src/TaskFilter.tsx:14 | for one todo task the todo tab as written shows 0 where 1 is intended |
| TaskFilterPanel.StatusTabPatch | src/TaskFilter.tsx:19-21 | merged into any filter, the patch changes the status only |
| TaskFilterPanel.SearchPatch | src/TaskFilter.tsx:23-25 | merged into any filter, the patch sets the raw, untrimmed query and changes nothing else |
| TaskFilterPanel.AssigneePatch | src/TaskFilter.tsx:27-29 | merged into any filter, '' becomes null and any other value passes through; the select then shows the chosen value |
| TaskForm.Prefilled | src/TaskForm.tsx:22-28 | the task's title, description, status and priority; the assignee select holds the task's assignee when it is truthy and '' when it is null or '' |
| TaskForm.BuildTaskData | src/TaskForm.tsx:45-56 | rejected iff the title is all whitespace, whatever the priority or assignee; otherwise title and description trimmed, status and priority unchanged, '' assignee as null |
| TaskForm.Decide | src/TaskForm.tsx:42-62 | rejected with "Title is required" iff the title is blank; an update for the editing id iff accepted with a truthy editing id; otherwise a create; the data is `BuildTaskData`'s |
| TaskForm.PrefillSubmitRoundTrip | src/TaskForm.tsx:22-28 | prefilling from a task and submitting unchanged gives its trimmed title and description, its status, priority and assignee |
| TaskForm.ResubmitIsStable | src/TaskForm.tsx:50-56 | submitting the submitted data again gives the same data |
| TaskForm.Form.constructor | src/TaskForm.tsx:14-18 | fields empty, status todo, priority medium; form closed, not editing |
| TaskForm.Form.ResetForm | src/TaskForm.tsx:34-40 | the fields take the reset values; open flag and editing id unchanged |
| TaskForm.Form.HandleClose | src/TaskForm.tsx:67-71 | form closed, editing id cleared, fields reset |
| TaskForm.Form.PrefillFromEditing | src/TaskForm.tsx:20-32 | one run of the effect: with a truthy editing id naming a loaded task the fields take its values, otherwise the reset values |
| TaskForm.EditingTask | src/TaskForm.tsx:20 | present iff the editing id is truthy and some loaded task has it; then it is the first such task |
| TaskForm.Form.SetEditingTaskId | src/TaskForm.tsx:20-32 | the id is installed; the prefill effect's values are taken only when the id differs from the previous one, and otherwise the fields are unchanged whatever the task list holds |
| TaskForm.StaleAfterTaskUpdate | src/TaskForm.tsx:32 | as written, a form prefilled from task "1" keeps "Original Title" after the store replaces the task by one titled "Updated Title" under the same id; the intended render shows the new title |
| TaskForm.IntendedAfterRender | src/TaskForm.tsx:20-32 | with the editing task as a dependency too: a form in step with the editing task stays in step after any render, a render changing neither the id nor that task keeps the fields, and an id change acts as written |
| TaskForm.Form.HandleSubmit | src/TaskForm.tsx:42-65 | the outcome is `Decide` of the old fields; a rejection changes nothing and leaves the form open; an acceptance closes it, clears the editing id and resets the fields |
| TaskDueDate.DueDateLabel | src/TaskDueDate.tsx:8-18 | null or '' gives "No due date"; any other date gives "Due: " and the raw date |
| TaskDueDate.LabelDate | src/TaskDueDate.tsx:13-17 | not an operation of the source: the inverse of the "Due: " label, used only to state `LabelRoundTrip`; a date it reads back re-forms the label |
| TaskDueDate.LabelRoundTrip | src/TaskDueDate.tsx:8-18 | the label determines the truthy date, or null, whatever the status |
| Server.NewTask | server/index.ts:23-29 | the given id, `createdAt` and `updatedAt` from two separate clock reads, a falsy due date as null, every other field from the body |
| Server.MergeTask | server/index.ts:38-42 | each key present in the body overwrites, each absent key is kept, the update time is refreshed |
| Server.MergeTaskIdempotent | server/index.ts:38-42 | applying an update twice is applying it once; an empty body refreshes only the timestamp |
| Server.CommentsOf | server/index.ts:80 | exactly that task's comments, in insertion order, each as often as stored |
| Server.CommentsNotOf | server/index.ts:54 | exactly the comments of other tasks, in order, each as often as stored |
| Server.CommentsNotIn | server/index.ts:69 | exactly the comments whose task is not listed, in order, each as often as stored |
| Server.IndexOfComment | server/index.ts:99 | -1 iff no comment has the id; otherwise the first one that does |
| Server.DeleteKeepsCommentsAttached | server/index.ts:49-58 | if every comment belonged to a stored task, it still does after a single delete with its cascade |
| Server.BulkDeleteKeepsCommentsAttached | server/index.ts:61-70 | the same for a bulk delete with its cascade |
| Server.TaskServer.constructor | server/index.ts:12-14 | both tables start as copies of the fixtures |
| Server.TaskServer.ListTasks | server/index.ts:16-19 | the whole task table in stored order |
| Server.TaskServer.CreateTask | server/index.ts:21-32 | one new task appended at the end, stored tasks and comments untouched |
| Server.TaskServer.UpdateTask | server/index.ts:34-47 | an unknown id is a 404 with no change; otherwise the merged task replaces the first match in place and is returned |
| Server.TaskServer.DeleteTask | server/index.ts:49-59 | an unknown id is a 404 with no change; otherwise the first match is removed with every comment of the id, and no comment of the id remains |
| Server.TaskServer.BulkDelete | server/index.ts:61-71 | missing ids are a 400 with no change; otherwise the listed tasks and their comments go, survivors in order, and the reply counts the ids given |
| Server.TaskServer.ListComments | server/index.ts:78-82 | exactly the task's comments in insertion order, each as often as stored |
| Server.TaskServer.AddComment | server/index.ts:84-95 | the comment appended at the end without looking the task up |
| Server.TaskServer.DeleteComment | server/index.ts:97-106 | an unknown id is a 404 with no change; otherwise its first comment is removed |
| Server.TaskServer.Reset | server/index.ts:108-112 | both tables restored to the fixtures |

## Left out

- Transition policy, due-date buckets, bulk partitioning with high-priority protection: not present in the code (src/BulkActions.tsx:8-20 are empty handlers). They are not modelled.
- src/api.ts, src/taskSaga.ts, src/userSaga.ts, src/store.ts, src/hooks.ts, src/taskActions.ts: network requests and effect wiring. `takeLatest`/`takeEvery` cancellation is library concurrency and is not part of this model.
- Rendering: src/TaskCard.tsx, src/App.tsx, src/TaskContext.tsx (only its two values the form uses are fields of `TaskForm.Form`), src/TaskComments.tsx, and all JSX.
- Express routing, `delay`, `Date.now()` ids and ISO timestamps: ids and times are parameters. Ids are not claimed unique (two creates in one millisecond collide). GET /api/users serves a constant list and is not modelled.
- Request bodies: their types are fixed (`NewTaskBody`, `TaskPatch`). Extra or missing JSON keys, and a spread body taking keys such as `title` away, are not modelled.
- server/mockData.ts: the `daysFromNow` date arithmetic is not modelled. The fixtures are the server constructor's parameters.
- TaskStats.CompletionRate: computed in exact integers as half-up rounding; `Math.round` on the IEEE product `(done / total) * 100` could differ where that product is not exact near a .5 boundary.
- TaskStats: the `window` resize listener is not modelled.
- Text.ToLower: folds only ASCII A-Z; full Unicode `toLowerCase` is not modelled.
- TaskForm.Form.PrefillFromEditing: gives one run of the effect; when it runs is given by `TaskForm.Form.SetEditingTaskId` (only on an id change, so a store update of the task being edited leaves the fields stale). React compares dependencies by identity; the model compares the editing task by value.
- TaskForm: the field `onChange` setters are plain assignments; `e.preventDefault` and the `alert` call are represented by the `Rejected` outcome's message.
- TaskReducer.ToggleTwice: stated only for a selection holding the id at most once. `selectAllTasks` can install duplicates, and then toggling a duplicated id twice removes two of its occurrences.
- Server.TaskServer.DeleteTask: with an unknown id, comments that already reference that id (possible because `AddComment` does not check the task) stay, so "no comment of the id remains" is promised only on success.

## Findings

| source | as written | input that shows it | evidently intended | confidence | as-written member | corrected member |
|---|---|---|---|---|---|---|
| src/TaskFilter.tsx:14 | the todo tab counts `t.status !== 'todo'`, the tasks that are not todo | one task with status todo: the tab shows 0 | `t.status === 'todo'`, as the other two tabs and the statistics panel count | high, not executed | TaskFilterPanel.TaskCounts (counterexample TaskFilterPanel.TodoTabMiscounts) | TaskFilterPanel.IntendedTaskCounts |
| src/TaskForm.tsx:32 | the prefill effect depends on `[editingTaskId]` only, though it reads `editingTask`, which is derived again from the task list on every render | the form edits task "1" titled "Original Title"; the store replaces it by a copy titled "Updated Title"; the title field still shows "Original Title" (tests/TaskForm.test.tsx:89-126 expects "Updated Title") | the effect also depends on `editingTask`, so the fields follow the task being edited | medium, not executed | TaskForm.Form.SetEditingTaskId (counterexample TaskForm.StaleAfterTaskUpdate) | TaskForm.IntendedAfterRender |
