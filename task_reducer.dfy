/**
 * The `tasks` slice of the client store (src/taskReducer.ts). Each reducer
 * mutates a draft of the state in place; here the state is a class and each
 * reducer a method on it. The list operations the reducers perform are the
 * functions below, and the lemmas state what the reducers promise about them.
 */
module TaskReducer {
  import opened Wrappers
  import opened Seqs
  import opened Types

  /** `Partial<TaskFilter>`: a key that is absent is `None`. */
  datatype FilterPatch = FilterPatch(
    status: Option<StatusFilter>,
    searchQuery: Option<string>,
    assigneeId: Option<Option<string>>)

  // ---------------------------------------------------------------------------
  // Lookups

  /** Every selected id names a loaded task. */
  predicate SelectionWithin(sel: seq<string>, ts: seq<Task>) {
    forall k :: 0 <= k < |sel| ==> sel[k] in TaskIds(ts)
  }

  predicate NoDuplicates(s: seq<string>) {
    forall i, j :: 0 <= i < j < |s| ==> s[i] != s[j]
  }

  // ---------------------------------------------------------------------------
  // updateTaskSuccess

  /** The list with the first task carrying `t.id` replaced by `t`. */
  function ReplaceTask(ts: seq<Task>, t: Task): (r: seq<Task>)
    ensures |r| == |ts|
    ensures IndexOfTask(ts, t.id) == -1 ==> r == ts
    ensures IndexOfTask(ts, t.id) != -1 ==>
      r[IndexOfTask(ts, t.id)] == t &&
      forall k :: 0 <= k < |ts| && k != IndexOfTask(ts, t.id) ==> r[k] == ts[k]
  {
    var i := IndexOfTask(ts, t.id);
    if i == -1 then ts else ts[i := t]
  }

  /**
   * Replacing keeps the position of the id, and replacing with the same task a
   * second time changes nothing.
   */
  lemma ReplaceTaskStable(ts: seq<Task>, t: Task)
    ensures IndexOfTask(ReplaceTask(ts, t), t.id) == IndexOfTask(ts, t.id)
    ensures ReplaceTask(ReplaceTask(ts, t), t) == ReplaceTask(ts, t)
    ensures IndexOfTask(ts, t.id) != -1 ==> t in ReplaceTask(ts, t)
  {
    var i := IndexOfTask(ts, t.id);
    var r := ReplaceTask(ts, t);
    if i != -1 {
      assert forall k :: 0 <= k < i ==> r[k] == ts[k];
      assert r[i] == t;
    }
  }

  // ---------------------------------------------------------------------------
  // deleteTaskSuccess and bulkDeleteSuccess

  /** `tasks.filter(task => task.id !== id)`. */
  function WithoutTask(ts: seq<Task>, id: string): (r: seq<Task>)
    ensures IsSubsequence(r, ts)
    ensures forall t :: t in r <==> t in ts && t.id != id
    ensures forall t :: multiset(r)[t] == if t.id == id then 0 else multiset(ts)[t]
  {
    var p := (t: Task) => t.id != id;
    FilterSubsequence(ts, p);
    FilterMultiset(ts, p);
    Filter(ts, p)
  }

  /** `selectedTaskIds.filter(x => x !== id)`. */
  function WithoutId(sel: seq<string>, id: string): (r: seq<string>)
    ensures IsSubsequence(r, sel)
    ensures forall x :: x in r <==> x in sel && x != id
    ensures forall x :: multiset(r)[x] == if x == id then 0 else multiset(sel)[x]
  {
    var p := (x: string) => x != id;
    FilterSubsequence(sel, p);
    FilterMultiset(sel, p);
    Filter(sel, p)
  }

  /** A selection that named only loaded tasks still does after a delete. */
  lemma DeleteKeepsSelectionWithin(sel: seq<string>, ts: seq<Task>, id: string)
    requires SelectionWithin(sel, ts)
    ensures SelectionWithin(WithoutId(sel, id), WithoutTask(ts, id))
    ensures id !in WithoutId(sel, id) && id !in TaskIds(WithoutTask(ts, id))
  {
    var sel', ts' := WithoutId(sel, id), WithoutTask(ts, id);
    forall k | 0 <= k < |sel'| ensures sel'[k] in TaskIds(ts') {
      var x := sel'[k];
      assert x in sel && x != id;
      var j :| 0 <= j < |sel| && sel[j] == x;
      var t :| t in ts && t.id == x;
      assert t in ts';
    }
  }

  // ---------------------------------------------------------------------------
  // setFilter

  /** `{ ...filter, ...patch }`: present keys win, absent keys keep the old value. */
  function MergeFilter(f: TaskFilter, p: FilterPatch): (r: TaskFilter)
    ensures r.status == (if p.status.Some? then p.status.value else f.status)
    ensures r.searchQuery == (if p.searchQuery.Some? then p.searchQuery.value else f.searchQuery)
    ensures r.assigneeId == (if p.assigneeId.Some? then p.assigneeId.value else f.assigneeId)
  {
    TaskFilter(
      if p.status.Some? then p.status.value else f.status,
      if p.searchQuery.Some? then p.searchQuery.value else f.searchQuery,
      if p.assigneeId.Some? then p.assigneeId.value else f.assigneeId)
  }

  /** Merging the same patch twice is merging it once; the empty patch changes nothing. */
  lemma MergeFilterIdempotent(f: TaskFilter, p: FilterPatch)
    ensures MergeFilter(MergeFilter(f, p), p) == MergeFilter(f, p)
    ensures MergeFilter(f, FilterPatch(None, None, None)) == f
  {
  }

  // ---------------------------------------------------------------------------
  // updateTaskStatus

  /** `{ todo: 0, in_progress: 1, done: 2 }`. */
  function StatusOrder(s: Status): (r: nat)
    ensures r <= 2
    ensures (r == 0 <==> s == Todo) && (r == 1 <==> s == InProgress) && (r == 2 <==> s == Done)
  {
    match s
    case Todo => 0
    case InProgress => 1
    case Done => 2
  }

  /**
   * `tasks.find(t => t.id === id)` followed by the writes through the found
   * reference: the first task with the id gets the new status and timestamp,
   * whatever its old status was.
   */
  function MarkStatus(ts: seq<Task>, id: string, s: Status, now: string): (r: seq<Task>)
    ensures |r| == |ts|
    ensures IndexOfTask(ts, id) == -1 ==> r == ts
    ensures IndexOfTask(ts, id) != -1 ==>
      r[IndexOfTask(ts, id)] == ts[IndexOfTask(ts, id)].(status := s, updatedAt := now) &&
      forall k :: 0 <= k < |ts| && k != IndexOfTask(ts, id) ==> r[k] == ts[k]
  {
    var i := IndexOfTask(ts, id);
    if i == -1 then ts else ts[i := ts[i].(status := s, updatedAt := now)]
  }

  predicate SortedByStatus(ts: seq<Task>) {
    forall i, j :: 0 <= i < j < |ts| ==> StatusOrder(ts[i].status) <= StatusOrder(ts[j].status)
  }

  /**
   * `tasks.sort((a, b) => statusOrder[a.status] - statusOrder[b.status])`.
   * `Array.prototype.sort` is stable, so with a three-valued key the result is
   * the todo tasks, then the in-progress ones, then the done ones, each group in
   * its original order.
   */
  function SortByStatus(ts: seq<Task>): (r: seq<Task>)
    ensures SortedByStatus(r)
    ensures multiset(r) == multiset(ts)
  {
    var a, b, c := Filter(ts, StatusIs(Todo)), Filter(ts, StatusIs(InProgress)), Filter(ts, StatusIs(Done));
    GroupsSorted(a, b, c);
    GroupsPermutation(ts);
    a + b + c
  }

  /** The three status groups of `ts` together hold every task of `ts` exactly as often. */
  lemma GroupsPermutation(ts: seq<Task>)
    ensures multiset(Filter(ts, StatusIs(Todo)) + Filter(ts, StatusIs(InProgress)) + Filter(ts, StatusIs(Done))) == multiset(ts)
  {
    var a, b, c := Filter(ts, StatusIs(Todo)), Filter(ts, StatusIs(InProgress)), Filter(ts, StatusIs(Done));
    FilterMultiset(ts, StatusIs(Todo));
    FilterMultiset(ts, StatusIs(InProgress));
    FilterMultiset(ts, StatusIs(Done));
    assert multiset(a + b + c) == multiset(a) + multiset(b) + multiset(c);
    forall t ensures multiset(a + b + c)[t] == multiset(ts)[t] {
    }
  }

  /** Three lists holding only todo, only in-progress and only done tasks, laid end to end, are ordered by rank. */
  lemma GroupsSorted(a: seq<Task>, b: seq<Task>, c: seq<Task>)
    requires forall t :: t in a ==> t.status == Todo
    requires forall t :: t in b ==> t.status == InProgress
    requires forall t :: t in c ==> t.status == Done
    ensures SortedByStatus(a + b + c)
  {
    var r := a + b + c;
    forall k | 0 <= k < |r|
      ensures k < |a| ==> r[k].status == Todo
      ensures |a| <= k < |a| + |b| ==> r[k].status == InProgress
      ensures |a| + |b| <= k ==> r[k].status == Done
    {
      if k < |a| {
        assert r[k] == a[k] && a[k] in a;
      } else if k < |a| + |b| {
        assert r[k] == b[k - |a|] && b[k - |a|] in b;
      } else {
        assert r[k] == c[k - |a| - |b|] && c[k - |a| - |b|] in c;
      }
    }
  }

  /** Stability: the tasks of each status keep their relative order. */
  lemma SortByStatusStable(ts: seq<Task>, s: Status)
    ensures Filter(SortByStatus(ts), StatusIs(s)) == Filter(ts, StatusIs(s))
  {
    var p := StatusIs(s);
    var a, b, c := Filter(ts, StatusIs(Todo)), Filter(ts, StatusIs(InProgress)), Filter(ts, StatusIs(Done));
    assert SortByStatus(ts) == a + b + c;
    assert Filter(a + b + c, p) == Filter(a, p) + Filter(b, p) + Filter(c, p) by {
      FilterConcat(a + b, c, p);
      FilterConcat(a, b, p);
    }
    FilterGroup(ts, Todo, s);
    FilterGroup(ts, InProgress, s);
    FilterGroup(ts, Done, s);
  }

  /** Filtering one status group by a status keeps it all or drops it all. */
  lemma FilterGroup(ts: seq<Task>, g: Status, s: Status)
    ensures Filter(Filter(ts, StatusIs(g)), StatusIs(s)) == if g == s then Filter(ts, StatusIs(g)) else []
  {
    var a := Filter(ts, StatusIs(g));
    forall k | 0 <= k < |a| ensures a[k].status == g {
      assert a[k] in a;
    }
    if g == s {
      FilterKeepsAll(a, StatusIs(s));
    } else {
      FilterDropsAll(a, StatusIs(s));
    }
  }

  /**
   * `SortByStatus` is the only stable sort by the status rank: any list that is
   * ordered by rank and keeps each status group of `ts` in order equals it.
   */
  lemma SortByStatusUnique(ts: seq<Task>, r: seq<Task>)
    requires SortedByStatus(r)
    requires forall s :: Filter(r, StatusIs(s)) == Filter(ts, StatusIs(s))
    ensures r == SortByStatus(ts)
  {
    SortedIsGrouped(r);
    assert Filter(r, StatusIs(Todo)) == Filter(ts, StatusIs(Todo));
    assert Filter(r, StatusIs(InProgress)) == Filter(ts, StatusIs(InProgress));
    assert Filter(r, StatusIs(Done)) == Filter(ts, StatusIs(Done));
  }

  /** A list ordered by rank is its three status groups laid end to end. */
  lemma {:induction false} SortedIsGrouped(r: seq<Task>)
    requires SortedByStatus(r)
    ensures r == SortByStatus(r)
  {
    if r != [] {
      SortedTail(r);
      SortedIsGrouped(r[1..]);
      assert r == [r[0]] + r[1..];
      GroupedCons(r[0], r[1..]);
    }
  }

  /** A grouped list stays grouped when a task of the lowest rank present is put in front. */
  lemma GroupedCons(x: Task, rest: seq<Task>)
    requires rest == SortByStatus(rest)
    requires forall k :: 0 <= k < |rest| ==> StatusOrder(x.status) <= StatusOrder(rest[k].status)
    ensures [x] + rest == SortByStatus([x] + rest)
  {
    var a, b, c := Filter(rest, StatusIs(Todo)), Filter(rest, StatusIs(InProgress)), Filter(rest, StatusIs(Done));
    FilterCons(x, rest, StatusIs(Todo));
    FilterCons(x, rest, StatusIs(InProgress));
    FilterCons(x, rest, StatusIs(Done));
    if x.status != Todo {
      FilterDropsAll(rest, StatusIs(Todo));
    }
    if x.status == Done {
      FilterDropsAll(rest, StatusIs(InProgress));
    }
    Regroup(x, a, b, c, StatusOrder(x.status));
  }

  /**
   * Putting `x` in front of the groups `a + b + c` is putting it in front of
   * group `g`, when the groups before `g` are empty.
   */
  lemma Regroup<T>(x: T, a: seq<T>, b: seq<T>, c: seq<T>, g: nat)
    requires g <= 2 && (g >= 1 ==> a == []) && (g == 2 ==> b == [])
    ensures [x] + (a + b + c) ==
      (if g == 0 then [x] + a else a) + (if g == 1 then [x] + b else b) + (if g == 2 then [x] + c else c)
  {
    if g == 0 {
      assert [x] + (a + b + c) == ([x] + a) + b + c;
    } else if g == 1 {
      assert [x] + (a + b + c) == a + ([x] + b) + c;
    } else {
      assert [x] + (a + b + c) == a + b + ([x] + c);
    }
  }

  /** The tail of a list ordered by rank is ordered, and ranks no lower than the head. */
  lemma SortedTail(r: seq<Task>)
    requires SortedByStatus(r) && r != []
    ensures SortedByStatus(r[1..])
    ensures forall k :: 0 <= k < |r[1..]| ==> StatusOrder(r[0].status) <= StatusOrder(r[1..][k].status)
  {
    forall k | 0 <= k < |r[1..]| ensures StatusOrder(r[0].status) <= StatusOrder(r[1..][k].status) {
      assert r[1..][k] == r[k + 1];
    }
  }

  /**
   * A status update applies to every (old, new) pair of statuses: the first
   * task with the id comes out with the new status and timestamp, the other
   * tasks are kept, and the list is re-sorted whether or not the id was found.
   */
  lemma StatusUpdateApplies(ts: seq<Task>, id: string, s: Status, now: string)
    ensures var r := SortByStatus(MarkStatus(ts, id, s, now));
      SortedByStatus(r) &&
      (IndexOfTask(ts, id) == -1 ==> r == SortByStatus(ts) && multiset(r) == multiset(ts)) &&
      (IndexOfTask(ts, id) != -1 ==>
        var old_ := ts[IndexOfTask(ts, id)];
        var new_ := old_.(status := s, updatedAt := now);
        new_ in r && multiset(r) == multiset(ts) - multiset{old_} + multiset{new_})
  {
    var m := MarkStatus(ts, id, s, now);
    var i := IndexOfTask(ts, id);
    if i != -1 {
      assert m == ts[i := m[i]];
      assert multiset(m) == multiset(ts) - multiset{ts[i]} + multiset{m[i]};
      assert m[i] in multiset(SortByStatus(m));
    }
  }

  // ---------------------------------------------------------------------------
  // toggleTaskSelection

  /** `selectedTaskIds.indexOf(id)`. */
  function IndexOfId(sel: seq<string>, id: string): (r: int)
    ensures -1 <= r < |sel|
    ensures r == -1 <==> id !in sel
    ensures r != -1 ==> sel[r] == id && id !in sel[..r]
  {
    FirstIndex(sel, (x: string) => x == id)
  }

  /**
   * `push(id)` when `indexOf(id)` is -1, `splice(index, 1)` otherwise: an absent
   * id is appended at the end, the first occurrence of a present one is removed.
   */
  function Toggled(sel: seq<string>, id: string): (r: seq<string>)
    ensures id !in sel ==> r == sel + [id]
    ensures id in sel ==> |r| == |sel| - 1 && multiset(r) == multiset(sel) - multiset{id}
    ensures id in sel ==> r == sel[..IndexOfId(sel, id)] + sel[IndexOfId(sel, id) + 1..]
  {
    var i := IndexOfId(sel, id);
    if i == -1 then sel + [id] else RemoveAt(sel, i)
  }

  /** On a duplicate-free selection, toggling flips membership of the id and keeps it duplicate-free. */
  lemma ToggleFlips(sel: seq<string>, id: string)
    requires NoDuplicates(sel)
    ensures NoDuplicates(Toggled(sel, id))
    ensures id in Toggled(sel, id) <==> id !in sel
    ensures forall x :: x != id ==> (x in Toggled(sel, id) <==> x in sel)
  {
    var r := Toggled(sel, id);
    if id in sel {
      var i := IndexOfId(sel, id);
      assert r == RemoveAt(sel, i);
      forall k | 0 <= k < |r| ensures r[k] == if k < i then sel[k] else sel[k + 1] {
      }
      forall k | 0 <= k < |r| ensures r[k] != id {
        if k < i { assert sel[k] != sel[i]; } else { assert sel[k + 1] != sel[i]; }
      }
      forall a, b | 0 <= a < b < |r| ensures r[a] != r[b] {
        var a', b' := if a < i then a else a + 1, if b < i then b else b + 1;
        assert r[a] == sel[a'] && r[b] == sel[b'] && a' < b';
      }
      forall x | x != id ensures x in r <==> x in sel {
        assert x in multiset(r) <==> x in multiset(sel);
      }
    } else {
      assert forall k :: 0 <= k < |sel| ==> r[k] == sel[k];
    }
  }

  /**
   * Toggling the same id twice gives back the same ids when the id occurs at
   * most once (other ids may be duplicated): exactly the same list when the id
   * was absent, the same multiset when it was present (it moves to the end).
   */
  lemma ToggleTwice(sel: seq<string>, id: string)
    requires multiset(sel)[id] <= 1
    ensures multiset(Toggled(Toggled(sel, id), id)) == multiset(sel)
    ensures id !in sel ==> Toggled(Toggled(sel, id), id) == sel
  {
    var once := Toggled(sel, id);
    if id !in sel {
      assert forall k :: 0 <= k < |sel| ==> once[k] == sel[k];
      assert IndexOfId(once, id) == |sel|;
      assert once[..|sel|] == sel;
    } else {
      assert multiset(once)[id] == 0;
      assert id !in once;
      assert multiset(once + [id]) == multiset(once) + multiset{id};
    }
  }

  // ---------------------------------------------------------------------------
  // The state

  class TasksStore {
    var tasks: seq<Task>
    var loading: bool
    var error: Option<string>
    var filter: TaskFilter
    var selectedTaskIds: seq<string>

    /** `initialState`. */
    constructor ()
      ensures tasks == [] && !loading && error == None
      ensures filter == DefaultFilter && selectedTaskIds == []
    {
      tasks := [];
      loading := false;
      error := None;
      filter := DefaultFilter;
      selectedTaskIds := [];
    }

    method FetchTasksStarted()
      modifies this
      ensures loading && error == None
      ensures tasks == old(tasks) && filter == old(filter) && selectedTaskIds == old(selectedTaskIds)
    {
      loading := true;
      error := None;
    }

    method FetchTasksSuccess(fetched: seq<Task>)
      modifies this
      ensures !loading && tasks == fetched
      ensures error == old(error) && filter == old(filter) && selectedTaskIds == old(selectedTaskIds)
    {
      loading := false;
      tasks := fetched;
    }

    method FetchTasksFailure(message: string)
      modifies this
      ensures !loading && error == Some(message)
      ensures tasks == old(tasks) && filter == old(filter) && selectedTaskIds == old(selectedTaskIds)
    {
      loading := false;
      error := Some(message);
    }

    /** Sets the loading flag only; an earlier error stays. */
    method CreateTaskStarted()
      modifies this
      ensures loading
      ensures tasks == old(tasks) && error == old(error)
      ensures filter == old(filter) && selectedTaskIds == old(selectedTaskIds)
    {
      loading := true;
    }

    method CreateTaskSuccess(created: Task)
      modifies this
      ensures !loading && tasks == old(tasks) + [created]
      ensures error == old(error) && filter == old(filter) && selectedTaskIds == old(selectedTaskIds)
    {
      loading := false;
      tasks := tasks + [created];
    }

    method CreateTaskFailure(message: string)
      modifies this
      ensures !loading && error == Some(message)
      ensures tasks == old(tasks) && filter == old(filter) && selectedTaskIds == old(selectedTaskIds)
    {
      loading := false;
      error := Some(message);
    }

    /** Replaces the first task with the same id; does not touch `loading`. */
    method UpdateTaskSuccess(updated: Task)
      modifies this
      ensures tasks == ReplaceTask(old(tasks), updated)
      ensures loading == old(loading) && error == old(error)
      ensures filter == old(filter) && selectedTaskIds == old(selectedTaskIds)
    {
      var index := IndexOfTask(tasks, updated.id);
      if index != -1 {
        tasks := tasks[index := updated];
      }
    }

    /** Records the error only; `loading` is left as it was. */
    method UpdateTaskFailure(message: string)
      modifies this
      ensures error == Some(message)
      ensures tasks == old(tasks) && loading == old(loading)
      ensures filter == old(filter) && selectedTaskIds == old(selectedTaskIds)
    {
      error := Some(message);
    }

    method DeleteTaskSuccess(id: string)
      modifies this
      ensures tasks == WithoutTask(old(tasks), id)
      ensures selectedTaskIds == WithoutId(old(selectedTaskIds), id)
      ensures old(SelectionWithin(selectedTaskIds, tasks)) ==> SelectionWithin(selectedTaskIds, tasks)
      ensures loading == old(loading) && error == old(error) && filter == old(filter)
    {
      if SelectionWithin(selectedTaskIds, tasks) {
        DeleteKeepsSelectionWithin(selectedTaskIds, tasks, id);
      }
      tasks := WithoutTask(tasks, id);
      selectedTaskIds := WithoutId(selectedTaskIds, id);
    }

    /** Records the error only; `loading` is left as it was. */
    method DeleteTaskFailure(message: string)
      modifies this
      ensures error == Some(message)
      ensures tasks == old(tasks) && loading == old(loading)
      ensures filter == old(filter) && selectedTaskIds == old(selectedTaskIds)
    {
      error := Some(message);
    }

    method SetFilter(patch: FilterPatch)
      modifies this
      ensures filter == MergeFilter(old(filter), patch)
      ensures tasks == old(tasks) && loading == old(loading) && error == old(error)
      ensures selectedTaskIds == old(selectedTaskIds)
    {
      filter := MergeFilter(filter, patch);
    }

    /** No transition rule is checked: any status may follow any other. */
    method UpdateTaskStatus(id: string, status: Status, now: string)
      modifies this
      ensures tasks == SortByStatus(MarkStatus(old(tasks), id, status, now))
      ensures SortedByStatus(tasks)
      ensures loading == old(loading) && error == old(error)
      ensures filter == old(filter) && selectedTaskIds == old(selectedTaskIds)
    {
      var index := IndexOfTask(tasks, id);
      if index != -1 {
        tasks := tasks[index := tasks[index].(status := status, updatedAt := now)];
      }
      tasks := SortByStatus(tasks);
    }

    method ToggleTaskSelection(id: string)
      modifies this
      ensures selectedTaskIds == Toggled(old(selectedTaskIds), id)
      ensures tasks == old(tasks) && loading == old(loading)
      ensures error == old(error) && filter == old(filter)
    {
      var index := IndexOfId(selectedTaskIds, id);
      if index == -1 {
        selectedTaskIds := selectedTaskIds + [id];
      } else {
        selectedTaskIds := RemoveAt(selectedTaskIds, index);
      }
    }

    /** The given ids become the selection as they are: no deduplication, no check against `tasks`. */
    method SelectAllTasks(ids: seq<string>)
      modifies this
      ensures selectedTaskIds == ids
      ensures tasks == old(tasks) && loading == old(loading)
      ensures error == old(error) && filter == old(filter)
    {
      selectedTaskIds := ids;
    }

    method ClearSelection()
      modifies this
      ensures selectedTaskIds == []
      ensures tasks == old(tasks) && loading == old(loading)
      ensures error == old(error) && filter == old(filter)
    {
      selectedTaskIds := [];
    }

    method BulkDeleteSuccess(ids: seq<string>)
      modifies this
      ensures tasks == TasksNotIn(old(tasks), ids)
      ensures selectedTaskIds == []
      ensures loading == old(loading) && error == old(error) && filter == old(filter)
    {
      tasks := TasksNotIn(tasks, ids);
      selectedTaskIds := [];
    }
  }

}
