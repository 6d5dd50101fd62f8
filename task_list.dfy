/** The visible-task selector of src/TaskList.tsx (`filteredTasks`). */
module TaskList {
  import opened Wrappers
  import opened Seqs
  import opened Text
  import opened Types

  predicate StatusPasses(f: TaskFilter, t: Task) {
    f.status.AllStatuses? || t.status == f.status.status
  }

  /** An empty query is falsy and imposes nothing; otherwise a lower-cased substring test on the title. */
  predicate SearchPasses(f: TaskFilter, t: Task) {
    f.searchQuery == "" || Contains(ToLower(t.title), ToLower(f.searchQuery))
  }

  /** A null or empty assignee filter is falsy and imposes nothing; otherwise the ids must be equal. */
  predicate AssigneePasses(f: TaskFilter, t: Task) {
    !Truthy(f.assigneeId) || t.assigneeId == f.assigneeId
  }

  /** The predicate handed to `tasks.filter`. */
  predicate IsVisible(f: TaskFilter, t: Task) {
    StatusPasses(f, t) && SearchPasses(f, t) && AssigneePasses(f, t)
  }

  function Visible(f: TaskFilter): Task -> bool {
    (t: Task) => IsVisible(f, t)
  }

  /**
   * `filteredTasks`: an order-preserving subsequence of the tasks holding
   * exactly the tasks that pass all three criteria.
   */
  function VisibleTasks(ts: seq<Task>, f: TaskFilter): (r: seq<Task>)
    ensures IsSubsequence(r, ts)
    ensures forall t :: t in r <==> t in ts && IsVisible(f, t)
    ensures forall t :: multiset(r)[t] == if IsVisible(f, t) then multiset(ts)[t] else 0
    ensures f.status.OnlyStatus? ==> forall t :: t in r ==> t.status == f.status.status
    ensures Truthy(f.assigneeId) ==> forall t :: t in r ==> t.assigneeId == f.assigneeId
  {
    FilterSubsequence(ts, Visible(f));
    FilterMultiset(ts, Visible(f));
    Filter(ts, Visible(f))
  }

  /** Filtering an already filtered list with the same filter returns it unchanged. */
  lemma VisibleIdempotent(ts: seq<Task>, f: TaskFilter)
    ensures VisibleTasks(VisibleTasks(ts, f), f) == VisibleTasks(ts, f)
  {
    FilterIdempotent(ts, Visible(f));
  }

  /** The initial filter (all statuses, empty query, no assignee) shows every task in order. */
  lemma DefaultFilterShowsAll(ts: seq<Task>)
    ensures VisibleTasks(ts, DefaultFilter) == ts
  {
    FilterKeepsAll(ts, Visible(DefaultFilter));
  }

  /** The assignee filters null and '' both mean "all assignees". */
  lemma EmptyAssigneeIsNoFilter(ts: seq<Task>, f: TaskFilter)
    ensures VisibleTasks(ts, f.(assigneeId := Some(""))) == VisibleTasks(ts, f.(assigneeId := None))
  {
    FilterSamePredicate(ts, Visible(f.(assigneeId := Some(""))), Visible(f.(assigneeId := None)));
  }

  /**
   * Search ignores case: a task whose title contains the query verbatim passes
   * the search criterion, and lower-casing the query changes no result.
   */
  lemma SearchIgnoresCase(ts: seq<Task>, f: TaskFilter)
    ensures forall t: Task :: Contains(t.title, f.searchQuery) ==> SearchPasses(f, t)
    ensures VisibleTasks(ts, f.(searchQuery := ToLower(f.searchQuery))) == VisibleTasks(ts, f)
  {
    forall t: Task | Contains(t.title, f.searchQuery) ensures SearchPasses(f, t) {
      ContainsToLower(t.title, f.searchQuery);
    }
    ToLowerIdempotent(f.searchQuery);
    FilterSamePredicate(ts, Visible(f.(searchQuery := ToLower(f.searchQuery))), Visible(f));
  }

}
