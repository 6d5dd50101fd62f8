/**
 * The in-memory `tasks` and `comments` tables of server/index.ts and what each
 * route handler does to them. Ids (`Date.now()`) and timestamps are passed in;
 * the fixture lists are given to the constructor.
 */
module Server {
  import opened Wrappers
  import opened Seqs
  import opened Types

  /** The body of a create request, `Omit<Task, 'id' | 'createdAt' | 'updatedAt'>`; an absent due date is `None`. */
  datatype NewTaskBody = NewTaskBody(
    title: string,
    description: string,
    status: Status,
    priority: Priority,
    assigneeId: Option<string>,
    dueDate: Option<string>)

  /** The body of an update request, `Partial<Task>`: an absent key is `None`. */
  datatype TaskPatch = TaskPatch(
    id: Option<string>,
    title: Option<string>,
    description: Option<string>,
    status: Option<Status>,
    priority: Option<Priority>,
    assigneeId: Option<Option<string>>,
    dueDate: Option<Option<string>>,
    createdAt: Option<string>)

  /** A JSON reply: the payload, or an HTTP error status with its message. */
  datatype Reply<T> = Ok(value: T) | Error(code: nat, message: string)

  function TaskNotFound<T>(): Reply<T> { Error(404, "Task not found") }
  function CommentNotFound<T>(): Reply<T> { Error(404, "Comment not found") }
  function IdsRequired<T>(): Reply<T> { Error(400, "Invalid request: ids array required") }

  function Pick<T>(o: Option<T>, otherwise: T): T {
    if o.Some? then o.value else otherwise
  }

  /**
   * `{ ...body, id, dueDate: body.dueDate || null, createdAt, updatedAt }`, where
   * the two times come from two separate clock reads and so may differ.
   */
  function NewTask(body: NewTaskBody, id: string, createdAt: string, updatedAt: string): (t: Task)
    ensures t.id == id && t.createdAt == createdAt && t.updatedAt == updatedAt
    ensures t.dueDate == None <==> !Truthy(body.dueDate)
    ensures t.dueDate != None ==> t.dueDate == body.dueDate
    ensures t.title == body.title && t.description == body.description
    ensures t.status == body.status && t.priority == body.priority && t.assigneeId == body.assigneeId
  {
    Task(id, body.title, body.description, body.status, body.priority, body.assigneeId,
         if Truthy(body.dueDate) then body.dueDate else None, createdAt, updatedAt)
  }

  /** `{ ...stored, ...body, updatedAt: now }`: present keys overwrite, absent keys are kept. */
  function MergeTask(t: Task, p: TaskPatch, now: string): (r: Task)
    ensures r.updatedAt == now
    ensures r.id == Pick(p.id, t.id) && r.createdAt == Pick(p.createdAt, t.createdAt)
    ensures r.title == Pick(p.title, t.title) && r.description == Pick(p.description, t.description)
    ensures r.status == Pick(p.status, t.status) && r.priority == Pick(p.priority, t.priority)
    ensures r.assigneeId == Pick(p.assigneeId, t.assigneeId) && r.dueDate == Pick(p.dueDate, t.dueDate)
  {
    Task(Pick(p.id, t.id), Pick(p.title, t.title), Pick(p.description, t.description),
         Pick(p.status, t.status), Pick(p.priority, t.priority), Pick(p.assigneeId, t.assigneeId),
         Pick(p.dueDate, t.dueDate), Pick(p.createdAt, t.createdAt), now)
  }

  /**
   * Applying the same update twice is applying it once, and an empty body only
   * refreshes the timestamp.
   */
  lemma MergeTaskIdempotent(t: Task, p: TaskPatch, now: string)
    ensures MergeTask(MergeTask(t, p, now), p, now) == MergeTask(t, p, now)
    ensures MergeTask(t, TaskPatch(None, None, None, None, None, None, None, None), now) == t.(updatedAt := now)
  {
  }

  /** `comments.filter(c => c.taskId === taskId)`. */
  function CommentsOf(cs: seq<Comment>, taskId: string): (r: seq<Comment>)
    ensures IsSubsequence(r, cs)
    ensures forall c :: c in r <==> c in cs && c.taskId == taskId
    ensures forall c :: multiset(r)[c] == if c.taskId == taskId then multiset(cs)[c] else 0
  {
    var p := (c: Comment) => c.taskId == taskId;
    FilterSubsequence(cs, p);
    FilterMultiset(cs, p);
    Filter(cs, p)
  }

  /** `comments.filter(c => c.taskId !== taskId)`: the cascade of a single delete. */
  function CommentsNotOf(cs: seq<Comment>, taskId: string): (r: seq<Comment>)
    ensures IsSubsequence(r, cs)
    ensures forall c :: c in r <==> c in cs && c.taskId != taskId
    ensures forall c :: multiset(r)[c] == if c.taskId != taskId then multiset(cs)[c] else 0
  {
    var p := (c: Comment) => c.taskId != taskId;
    FilterSubsequence(cs, p);
    FilterMultiset(cs, p);
    Filter(cs, p)
  }

  /** `comments.filter(c => !ids.includes(c.taskId))`: the cascade of a bulk delete. */
  function CommentsNotIn(cs: seq<Comment>, ids: seq<string>): (r: seq<Comment>)
    ensures IsSubsequence(r, cs)
    ensures forall c :: c in r <==> c in cs && c.taskId !in ids
    ensures forall c :: multiset(r)[c] == if c.taskId !in ids then multiset(cs)[c] else 0
  {
    var p := (c: Comment) => c.taskId !in ids;
    FilterSubsequence(cs, p);
    FilterMultiset(cs, p);
    Filter(cs, p)
  }

  /** `comments.findIndex(c => c.id === id)`. */
  function IndexOfComment(cs: seq<Comment>, id: string): (r: int)
    ensures -1 <= r < |cs|
    ensures r == -1 <==> forall k :: 0 <= k < |cs| ==> cs[k].id != id
    ensures r != -1 ==> cs[r].id == id && forall k :: 0 <= k < r ==> cs[k].id != id
  {
    FirstIndex(cs, (c: Comment) => c.id == id)
  }

  /** Every comment belongs to a stored task. */
  predicate CommentsHaveTasks(ts: seq<Task>, cs: seq<Comment>) {
    forall k :: 0 <= k < |cs| ==> cs[k].taskId in TaskIds(ts)
  }

  /**
   * A single delete keeps every comment attached to a stored task: the
   * cascade takes exactly the comments of the removed id.
   */
  lemma DeleteKeepsCommentsAttached(ts: seq<Task>, cs: seq<Comment>, i: nat)
    requires i < |ts| && CommentsHaveTasks(ts, cs)
    ensures CommentsHaveTasks(RemoveAt(ts, i), CommentsNotOf(cs, ts[i].id))
  {
    var ts', cs' := RemoveAt(ts, i), CommentsNotOf(cs, ts[i].id);
    forall k | 0 <= k < |cs'| ensures cs'[k].taskId in TaskIds(ts') {
      var c := cs'[k];
      assert c in cs;
      var j :| 0 <= j < |cs| && cs[j] == c;
      var t :| t in ts && t.id == c.taskId;
      var m :| 0 <= m < |ts| && ts[m] == t;
      assert m != i;
      assert t == ts'[if m < i then m else m - 1];
    }
  }

  /** A bulk delete keeps every comment attached to a stored task. */
  lemma BulkDeleteKeepsCommentsAttached(ts: seq<Task>, cs: seq<Comment>, ids: seq<string>)
    requires CommentsHaveTasks(ts, cs)
    ensures CommentsHaveTasks(TasksNotIn(ts, ids), CommentsNotIn(cs, ids))
  {
    var ts', cs' := TasksNotIn(ts, ids), CommentsNotIn(cs, ids);
    forall k | 0 <= k < |cs'| ensures cs'[k].taskId in TaskIds(ts') {
      var c := cs'[k];
      assert c in cs;
      var j :| 0 <= j < |cs| && cs[j] == c;
      var t :| t in ts && t.id == c.taskId;
      assert t in ts';
    }
  }

  class TaskServer {
    const mockTasks: seq<Task>
    const mockComments: seq<Comment>
    var tasks: seq<Task>
    var comments: seq<Comment>

    /** `let tasks = [...mockTasks]; let comments = [...mockComments]`. */
    constructor (fixtureTasks: seq<Task>, fixtureComments: seq<Comment>)
      ensures mockTasks == fixtureTasks && mockComments == fixtureComments
      ensures tasks == fixtureTasks && comments == fixtureComments
    {
      mockTasks, mockComments := fixtureTasks, fixtureComments;
      tasks, comments := fixtureTasks, fixtureComments;
    }

    /** GET /api/tasks: the whole table in stored order. */
    method ListTasks() returns (r: seq<Task>)
      ensures r == tasks
    {
      r := tasks;
    }

    /** POST /api/tasks: appends exactly one task at the end; the stored tasks are untouched. */
    method CreateTask(body: NewTaskBody, id: string, createdAt: string, updatedAt: string) returns (created: Task)
      modifies this
      ensures created == NewTask(body, id, createdAt, updatedAt)
      ensures tasks == old(tasks) + [created] && comments == old(comments)
    {
      created := NewTask(body, id, createdAt, updatedAt);
      tasks := tasks + [created];
    }

    /**
     * PUT /api/tasks/:id: the first task with the id is merged with the body in
     * place; an unknown id is a 404 and changes nothing.
     */
    method UpdateTask(id: string, body: TaskPatch, now: string) returns (reply: Reply<Task>)
      modifies this
      ensures comments == old(comments)
      ensures IndexOfTask(old(tasks), id) == -1 ==> reply == TaskNotFound() && tasks == old(tasks)
      ensures IndexOfTask(old(tasks), id) != -1 ==>
        var i := IndexOfTask(old(tasks), id);
        reply == Ok(MergeTask(old(tasks)[i], body, now)) && tasks == old(tasks)[i := reply.value]
    {
      var index := IndexOfTask(tasks, id);
      if index != -1 {
        tasks := tasks[index := MergeTask(tasks[index], body, now)];
        reply := Ok(tasks[index]);
      } else {
        reply := TaskNotFound();
      }
    }

    /**
     * DELETE /api/tasks/:id: removes the first task with the id and every
     * comment of that id; an unknown id is a 404 and changes nothing.
     */
    method DeleteTask(id: string) returns (reply: Reply<bool>)
      modifies this
      ensures IndexOfTask(old(tasks), id) == -1 ==>
        reply == TaskNotFound() && tasks == old(tasks) && comments == old(comments)
      ensures IndexOfTask(old(tasks), id) != -1 ==>
        reply == Ok(true) &&
        tasks == RemoveAt(old(tasks), IndexOfTask(old(tasks), id)) &&
        comments == CommentsNotOf(old(comments), id)
      ensures reply.Ok? ==> forall c :: c in comments ==> c.taskId != id
      ensures old(CommentsHaveTasks(tasks, comments)) ==> CommentsHaveTasks(tasks, comments)
    {
      var index := IndexOfTask(tasks, id);
      if index != -1 {
        if CommentsHaveTasks(tasks, comments) {
          DeleteKeepsCommentsAttached(tasks, comments, index);
        }
        tasks := RemoveAt(tasks, index);
        comments := CommentsNotOf(comments, id);
        reply := Ok(true);
      } else {
        reply := TaskNotFound();
      }
    }

    /**
     * DELETE /api/tasks: a missing or non-array `ids` (here `None`) is a 400 and
     * changes nothing; otherwise every task whose id is listed goes, with its
     * comments, and the reply counts the ids given, found or not.
     */
    method BulkDelete(ids: Option<seq<string>>) returns (reply: Reply<nat>)
      modifies this
      ensures ids == None ==> reply == IdsRequired() && tasks == old(tasks) && comments == old(comments)
      ensures ids != None ==>
        reply == Ok(|ids.value|) &&
        tasks == TasksNotIn(old(tasks), ids.value) && comments == CommentsNotIn(old(comments), ids.value)
      ensures ids != None ==> forall c :: c in comments ==> c.taskId !in ids.value
      ensures old(CommentsHaveTasks(tasks, comments)) ==> CommentsHaveTasks(tasks, comments)
    {
      if ids.None? {
        reply := IdsRequired();
        return;
      }
      if CommentsHaveTasks(tasks, comments) {
        BulkDeleteKeepsCommentsAttached(tasks, comments, ids.value);
      }
      tasks := TasksNotIn(tasks, ids.value);
      comments := CommentsNotIn(comments, ids.value);
      reply := Ok(|ids.value|);
    }

    /** GET /api/tasks/:taskId/comments: that task's comments in insertion order. */
    method ListComments(taskId: string) returns (r: seq<Comment>)
      ensures r == CommentsOf(comments, taskId)
      ensures IsSubsequence(r, comments)
      ensures forall c :: c in r <==> c in comments && c.taskId == taskId
    {
      r := CommentsOf(comments, taskId);
    }

    /** POST /api/tasks/:taskId/comments: appended at the end; the task is not looked up. */
    method AddComment(taskId: string, commentId: string, userId: string, content: string, now: string)
      returns (created: Comment)
      modifies this
      ensures created == Comment(commentId, taskId, userId, content, now)
      ensures comments == old(comments) + [created] && tasks == old(tasks)
    {
      created := Comment(commentId, taskId, userId, content, now);
      comments := comments + [created];
    }

    /** DELETE /api/comments/:id: removes the first comment with the id, or 404 with no change. */
    method DeleteComment(id: string) returns (reply: Reply<bool>)
      modifies this
      ensures tasks == old(tasks)
      ensures IndexOfComment(old(comments), id) == -1 ==> reply == CommentNotFound() && comments == old(comments)
      ensures IndexOfComment(old(comments), id) != -1 ==>
        reply == Ok(true) && comments == RemoveAt(old(comments), IndexOfComment(old(comments), id))
    {
      var index := IndexOfComment(comments, id);
      if index != -1 {
        comments := RemoveAt(comments, index);
        reply := Ok(true);
      } else {
        reply := CommentNotFound();
      }
    }

    /** POST /api/reset: both tables back to the fixtures. */
    method Reset()
      modifies this
      ensures tasks == mockTasks && comments == mockComments
    {
      tasks, comments := mockTasks, mockComments;
    }
  }

}
