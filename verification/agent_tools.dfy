/** The five task tools the chat agent may call (backend/agent_tools.py). Each
    acts on the shared task table on behalf of the user of the agent context,
    and answers with a sentence for the language model rather than raising. */
module AgentTools {
  import opened Wrappers
  import opened Text
  import opened Models
  import opened Tables
  import Seqs

  /** The reply to every lookup that finds no task with that id for the user. */
  function NotFoundReply(taskId: int): string {
    "Task with ID " + IntToString(taskId) + " not found."
  }

  /** The completion filter a `status` argument selects: "pending" and
      "completed" filter, every other value (including "all") does not. */
  function StatusFilter(status: string): (f: Option<bool>)
    ensures status == "pending" ==> f == Some(false)
    ensures status == "completed" ==> f == Some(true)
    ensures status != "pending" && status != "completed" ==> f == None
  {
    if status == "pending" then Some(false)
    else if status == "completed" then Some(true)
    else None
  }

  /** The reply when the filtered listing is empty. */
  function NoTasksReply(status: string): string {
    if status != "all" then "No " + status + " tasks found." else "No tasks found."
  }

  /** One line of a listing: `  [done] ID:3 | title - description`. */
  function ListingLine(t: Task): string {
    var check := if t.completed then "done" else "pending";
    var desc := if t.description.Some? && t.description.value != "" then " - " + t.description.value else "";
    "  [" + check + "] ID:" + IntToString(t.id) + " | " + t.title + desc
  }

  /** `add_task`: inserts one task owned by the context user, with the stripped
      title, not completed, and the description stored as None when empty and
      stripped otherwise; nothing else in the table changes. */
  method AddTask(store: TaskTable, userId: string, title: string, now: int, description: string := "")
    returns (reply: string)
    requires store.Valid()
    modifies store
    ensures store.Valid()
    ensures var id := old(store.nextId);
      && id !in old(store.rows)
      && store.rows == old(store.rows)[id := NewTask(id, Strip(title), userId, now, NormalizedDescription(Some(description)))]
      && reply == "Task created successfully: '" + Strip(title) + "' (ID: " + IntToString(id) + ")"
  {
    var task := store.Insert(Strip(title), NormalizedDescription(Some(description)), userId, now);
    reply := "Task created successfully: '" + task.title + "' (ID: " + IntToString(task.id) + ")";
  }

  /** The reply to a listing of `tasks`: a header that counts them followed by
      their lines, or the not-found sentence when there are none. */
  function ListingReply(tasks: seq<Task>, status: string): string {
    if tasks == [] then NoTasksReply(status)
    else "Found " + IntToString(|tasks|) + " task(s):\n" + Join(Seqs.Map(tasks, ListingLine), "\n")
  }

  /** The loop of `list_tasks` that builds one line per task, then the reply. */
  method FormatListing(tasks: seq<Task>, status: string) returns (reply: string)
    ensures reply == ListingReply(tasks, status)
  {
    if tasks == [] {
      return NoTasksReply(status);
    }
    var lines: seq<string> := [];
    for i := 0 to |tasks|
      invariant lines == Seqs.Map(tasks[..i], ListingLine)
    {
      assert tasks[..i + 1][..i] == tasks[..i];
      lines := lines + [ListingLine(tasks[i])];
    }
    assert tasks[..|tasks|] == tasks;
    reply := "Found " + IntToString(|tasks|) + " task(s):\n" + Join(lines, "\n");
  }

  /** `list_tasks`: lists exactly the context user's tasks that pass the status
      filter (see `TaskTable.Query`), one line each after a header that counts
      them, or says that none were found. Nothing changes. */
  method ListTasks(store: TaskTable, userId: string, status: string := "all") returns (reply: string)
    requires store.Valid()
    ensures reply == ListingReply(store.Query(userId, StatusFilter(status)), status)
  {
    var tasks := store.Query(userId, StatusFilter(status));
    reply := FormatListing(tasks, status);
  }

  /** The row `complete_task` writes: completed, whatever it was, and touched. */
  function MarkCompleted(t: Task, now: int): (r: Task)
    ensures r.completed && r.updatedAt == now
    ensures r.(completed := t.completed, updatedAt := t.updatedAt) == t
  {
    t.(completed := true, updatedAt := now)
  }

  /** Completing an already completed task changes no field but the timestamp. */
  lemma MarkCompletedIdempotent(t: Task, now1: int, now2: int)
    ensures MarkCompleted(MarkCompleted(t, now1), now2) == MarkCompleted(t, now2)
  {
  }

  /** `complete_task`: on a task the context user owns, sets completed; on any
      other id, answers not found and changes nothing. */
  method CompleteTask(store: TaskTable, userId: string, taskId: int, now: int) returns (reply: string)
    requires store.Valid()
    modifies store
    ensures store.Valid() && store.nextId == old(store.nextId)
    ensures old(store.Find(taskId, userId)).None? ==>
      reply == NotFoundReply(taskId) && store.rows == old(store.rows)
    ensures old(store.Find(taskId, userId)).Some? ==>
      var t := old(store.rows[taskId]);
      && store.rows == old(store.rows)[taskId := MarkCompleted(t, now)]
      && reply == "Task '" + t.title + "' (ID: " + IntToString(taskId) + ") marked as completed."
  {
    var found := store.Find(taskId, userId);
    if found.None? {
      return NotFoundReply(taskId);
    }
    var task := MarkCompleted(found.value, now);
    store.Store(task);
    reply := "Task '" + task.title + "' (ID: " + IntToString(task.id) + ") marked as completed.";
  }

  /** `delete_task`: removes exactly the matched task and no other; on a miss
      answers not found and changes nothing. */
  method DeleteTask(store: TaskTable, userId: string, taskId: int) returns (reply: string)
    requires store.Valid()
    modifies store
    ensures store.Valid() && store.nextId == old(store.nextId)
    ensures old(store.Find(taskId, userId)).None? ==>
      reply == NotFoundReply(taskId) && store.rows == old(store.rows)
    ensures old(store.Find(taskId, userId)).Some? ==>
      && store.rows == old(store.rows) - {taskId}
      && reply == "Task '" + old(store.rows[taskId]).title + "' (ID: " + IntToString(taskId) + ") deleted successfully."
  {
    var found := store.Find(taskId, userId);
    if found.None? {
      return NotFoundReply(taskId);
    }
    var title := found.value.title;
    store.Remove(taskId);
    reply := "Task '" + title + "' (ID: " + IntToString(taskId) + ") deleted successfully.";
  }

  /** The row `update_task` writes: a given title is stripped, a given
      description is normalized (empty becomes None), and completion and owner
      are never touched. */
  function ToolUpdated(t: Task, title: Option<string>, description: Option<string>, now: int): (r: Task)
    ensures r.id == t.id && r.userId == t.userId && r.completed == t.completed && r.createdAt == t.createdAt
    ensures r.title == (if title.Some? then Strip(title.value) else t.title)
    ensures r.description == (if description.Some? then NormalizedDescription(description) else t.description)
    ensures r.updatedAt == now
  {
    var t1 := if title.Some? then t.(title := Strip(title.value)) else t;
    var t2 := if description.Some? then t1.(description := NormalizedDescription(description)) else t1;
    t2.(updatedAt := now)
  }

  /** `update_task`: on a task the context user owns, applies only the given
      arguments; on any other id, answers not found and changes nothing. */
  method UpdateTask(store: TaskTable, userId: string, taskId: int, now: int,
                    title: Option<string> := None, description: Option<string> := None)
    returns (reply: string)
    requires store.Valid()
    modifies store
    ensures store.Valid() && store.nextId == old(store.nextId)
    ensures old(store.Find(taskId, userId)).None? ==>
      reply == NotFoundReply(taskId) && store.rows == old(store.rows)
    ensures old(store.Find(taskId, userId)).Some? ==>
      var t := ToolUpdated(old(store.rows[taskId]), title, description, now);
      && store.rows == old(store.rows)[taskId := t]
      && reply == "Task '" + t.title + "' (ID: " + IntToString(taskId) + ") updated successfully."
  {
    var found := store.Find(taskId, userId);
    if found.None? {
      return NotFoundReply(taskId);
    }
    var task := ToolUpdated(found.value, title, description, now);
    store.Store(task);
    reply := "Task '" + task.title + "' (ID: " + IntToString(task.id) + ") updated successfully.";
  }
}
