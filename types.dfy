/** The entities of src/types.ts. Identifiers and timestamps are opaque strings. */
module Types {
  import opened Wrappers
  import opened Seqs

  datatype Status = Todo | InProgress | Done

  datatype Priority = Low | Medium | High

  datatype Task = Task(
    id: string,
    title: string,
    description: string,
    status: Status,
    priority: Priority,
    assigneeId: Option<string>,
    dueDate: Option<string>,
    createdAt: string,
    updatedAt: string)

  datatype Comment = Comment(id: string, taskId: string, userId: string, content: string, createdAt: string)

  datatype User = User(id: string, name: string, email: string, avatar: string)

  /** `TaskStatus | 'all'`. */
  datatype StatusFilter = AllStatuses | OnlyStatus(status: Status)

  datatype TaskFilter = TaskFilter(status: StatusFilter, searchQuery: string, assigneeId: Option<string>)

  /** `initialState.filter`: all statuses, no search query, no assignee. */
  const DefaultFilter := TaskFilter(AllStatuses, "", None)

  /** `tasks.filter(t => !ids.includes(t.id))`, the bulk delete of both the client and the server. */
  function TasksNotIn(ts: seq<Task>, ids: seq<string>): (r: seq<Task>)
    ensures IsSubsequence(r, ts)
    ensures forall t :: t in r <==> t in ts && t.id !in ids
    ensures forall t :: multiset(r)[t] == if t.id in ids then 0 else multiset(ts)[t]
  {
    var p := (t: Task) => t.id !in ids;
    FilterSubsequence(ts, p);
    FilterMultiset(ts, p);
    Filter(ts, p)
  }

  function StatusIs(s: Status): Task -> bool {
    (t: Task) => t.status == s
  }

  function PriorityIs(p: Priority): Task -> bool {
    (t: Task) => t.priority == p
  }

  /** `tasks.findIndex(t => t.id === id)`; `find` returns the task at this index. */
  function IndexOfTask(ts: seq<Task>, id: string): (r: int)
    ensures -1 <= r < |ts|
    ensures r == -1 <==> forall k :: 0 <= k < |ts| ==> ts[k].id != id
    ensures r != -1 ==> ts[r].id == id && forall k :: 0 <= k < r ==> ts[k].id != id
  {
    FirstIndex(ts, (t: Task) => t.id == id)
  }

  /** The ids of the loaded tasks. */
  function TaskIds(ts: seq<Task>): set<string> {
    set t | t in ts :: t.id
  }

  /** A nullable string in a JavaScript condition: null and '' are falsy. */
  predicate Truthy(o: Option<string>) {
    o.Some? && o.value != ""
  }

  /** `value || null` on a string: '' becomes null, anything else is kept. */
  function NullIfEmpty(s: string): (o: Option<string>)
    ensures o == None <==> s == ""
    ensures o != None ==> o.value == s
  {
    if s == "" then None else Some(s)
  }

  /** `value || ''` on a nullable string: null becomes '', anything else is kept. */
  function EmptyIfNull(o: Option<string>): (s: string)
    ensures s == "" <==> !Truthy(o)
    ensures Truthy(o) ==> s == o.value
  {
    if o.Some? then o.value else ""
  }

  /** The two coercions undo each other: every string, and every truthy or null id. */
  lemma NullIfEmptyRoundTrip(s: string, o: Option<string>)
    ensures EmptyIfNull(NullIfEmpty(s)) == s
    ensures o != Some("") ==> NullIfEmpty(EmptyIfNull(o)) == o
  {
  }

}
