/** The REST handlers of backend/routes/tasks.py under `/api/{user_id}/tasks`.
    Each first checks that the authenticated caller is the path user (403),
    then that the path user id is a UUID (400), and only then reads or writes
    the task table; a task is always looked up by its id together with the
    path user. The UUID parser is the parameter `isUuid`; `now` is the clock. */
module TaskRoutes {
  import opened Wrappers
  import opened Text
  import opened Models
  import opened Tables
  import opened Exceptions
  import AgentTools

  /** `check_user_authorization`: only the path user may act on its tasks. */
  predicate Authorized(pathUserId: string, currentUser: string) {
    currentUser == pathUserId
  }

  /** The error, if any, of the two checks every handler makes before it
      touches the table: 403 with the handler's own detail when the caller is
      not the path user, and only then 400 when the path id is not a UUID. */
  function AccessError(pathUserId: string, currentUser: string, isUuid: string -> bool, forbidden: string)
    : (r: Option<HttpException>)
    ensures r.None? <==> Authorized(pathUserId, currentUser) && isUuid(pathUserId)
    ensures !Authorized(pathUserId, currentUser) ==> r == Some(Raise(403, forbidden))
    ensures Authorized(pathUserId, currentUser) && !isUuid(pathUserId) ==> r == Some(Raise(400, "Invalid user ID format"))
  {
    if !Authorized(pathUserId, currentUser) then Some(Raise(403, forbidden))
    else if !isUuid(pathUserId) then Some(Raise(400, "Invalid user ID format"))
    else None
  }

  const GetForbidden := "Not authorized to access these tasks"
  const CreateForbidden := "Not authorized to create tasks for this user"
  const UpdateForbidden := "Not authorized to update this task"
  const DeleteForbidden := "Not authorized to delete this task"

  /** The 404 of update, delete and toggle. */
  const NotFound := Raise(404, "Task not found")

  /** GET `/tasks`: after the access checks, exactly the tasks the path user
      owns, each once, as stored. */
  function GetTasks(store: TaskTable, userId: string, currentUser: string, isUuid: string -> bool)
    : (r: Result<seq<Task>, HttpException>)
    requires store.Valid()
    reads store
    ensures var err := AccessError(userId, currentUser, isUuid, GetForbidden);
      && (err.Some? ==> r == Failure(err.value))
      && (err.None? ==> r.Success?)
    ensures r.Success? ==>
      && (forall i :: 0 <= i < |r.value| ==>
            r.value[i].id in store.rows && store.rows[r.value[i].id] == r.value[i] && r.value[i].userId == userId)
      && (forall k :: k in store.rows && store.rows[k].userId == userId ==> store.rows[k] in r.value)
  {
    var err := AccessError(userId, currentUser, isUuid, GetForbidden);
    if err.Some? then Failure(err.value) else Success(store.Query(userId, None))
  }

  /** POST `/tasks`: after the access checks, rejects a title that is blank
      (empty once stripped) with 400; otherwise inserts one task owned by the
      path user, with the stripped title and the description stored as None
      when missing or empty and stripped otherwise. On every error the table
      is unchanged. */
  method CreateTask(store: TaskTable, userId: string, currentUser: string, isUuid: string -> bool,
                    title: string, description: Option<string>, now: int)
    returns (r: Result<Task, HttpException>)
    requires store.Valid()
    modifies store
    ensures store.Valid()
    ensures r.Failure? ==> store.rows == old(store.rows) && store.nextId == old(store.nextId)
    ensures var err := AccessError(userId, currentUser, isUuid, CreateForbidden);
      && (err.Some? ==> r == Failure(err.value))
      && (err.None? && AllSpace(title) ==> r == Failure(Raise(400, "Task title cannot be empty")))
      && (err.None? && !AllSpace(title) ==>
            var id := old(store.nextId);
            && r == Success(NewTask(id, Strip(title), userId, now, NormalizedDescription(description)))
            && id !in old(store.rows)
            && store.rows == old(store.rows)[id := r.value])
    ensures r.Success? ==> r.value.title != [] && !r.value.completed && r.value.userId == userId
  {
    var err := AccessError(userId, currentUser, isUuid, CreateForbidden);
    if err.Some? {
      return Failure(err.value);
    }
    StripEmptyIffBlank(title);
    if Strip(title) == [] {
      return Failure(Raise(400, "Task title cannot be empty"));
    }
    var task := store.Insert(Strip(title), NormalizedDescription(description), userId, now);
    r := Success(task);
  }

  /** One field of a `TaskUpdate` body that was sent with a non-null value. */
  datatype SentField = TitleField(title: string) | DescriptionField(description: string) | CompletedField(completed: bool)

  /** `task_data.model_dump(exclude_unset=True)` without the null values, in
      declaration order: a field not sent and a field sent as null look the same. */
  function SentFields(u: TaskUpdate): seq<SentField> {
    (if u.title.Some? then [TitleField(u.title.value)] else [])
    + (if u.description.Some? then [DescriptionField(u.description.value)] else [])
    + (if u.completed.Some? then [CompletedField(u.completed.value)] else [])
  }

  /** `setattr(task, field, value.strip() if isinstance(value, str) else value)`. */
  function Assign(t: Task, f: SentField): Task {
    match f
    case TitleField(s) => t.(title := Strip(s))
    case DescriptionField(s) => t.(description := Some(Strip(s)))
    case CompletedField(b) => t.(completed := b)
  }

  /** The row after the assignments `fs`, made in order; no assignment
      touches the id, the owner or the timestamps. */
  function AssignAll(t: Task, fs: seq<SentField>): (r: Task)
    ensures r.id == t.id && r.userId == t.userId && r.createdAt == t.createdAt && r.updatedAt == t.updatedAt
  {
    if fs == [] then t else Assign(AssignAll(t, fs[..|fs| - 1]), fs[|fs| - 1])
  }

  /** The fields an update body changes: each sent field, strings stripped (a
      sent description stays a string, even an empty one); every field that
      was not sent, the id, the owner and the timestamps keep their values. */
  predicate AppliesUpdate(r: Task, t: Task, u: TaskUpdate) {
    && r.title == (if u.title.Some? then Strip(u.title.value) else t.title)
    && r.description == (if u.description.Some? then Some(Strip(u.description.value)) else t.description)
    && r.completed == (if u.completed.Some? then u.completed.value else t.completed)
    && r.id == t.id && r.userId == t.userId && r.createdAt == t.createdAt && r.updatedAt == t.updatedAt
  }

  /** Assigning `xs` and then `ys` is assigning `xs + ys`. */
  lemma {:induction false} AssignAllAppend(t: Task, xs: seq<SentField>, ys: seq<SentField>)
    ensures AssignAll(t, xs + ys) == AssignAll(AssignAll(t, xs), ys)
  {
    if ys == [] {
      assert xs + ys == xs;
    } else {
      assert (xs + ys)[..|xs + ys| - 1] == xs + ys[..|ys| - 1];
      AssignAllAppend(t, xs, ys[..|ys| - 1]);
    }
  }

  /** Assigning the sent fields one by one applies the update. */
  lemma {:induction false} AssignSentFieldsApplies(t: Task, u: TaskUpdate)
    ensures AppliesUpdate(AssignAll(t, SentFields(u)), t, u)
  {
    var a := if u.title.Some? then [TitleField(u.title.value)] else [];
    var b := if u.description.Some? then [DescriptionField(u.description.value)] else [];
    var c := if u.completed.Some? then [CompletedField(u.completed.value)] else [];
    assert SentFields(u) == a + b + c;
    AssignAllAppend(t, a, b);
    AssignAllAppend(t, a + b, c);
    var t1 := AssignAll(t, a);
    var t2 := AssignAll(t1, b);
    if a != [] { assert a[..0] == []; }
    if b != [] { assert b[..0] == []; }
    if c != [] { assert c[..0] == []; }
    assert t1.title == (if u.title.Some? then Strip(u.title.value) else t.title);
    assert t2.description == (if u.description.Some? then Some(Strip(u.description.value)) else t.description);
  }

  /** The `setattr` loop of `update_task`: the assignments, made in order. */
  method AssignFields(t: Task, fields: seq<SentField>) returns (r: Task)
    ensures r == AssignAll(t, fields)
  {
    r := t;
    for i := 0 to |fields|
      invariant r == AssignAll(t, fields[..i])
    {
      assert fields[..i + 1][..i] == fields[..i];
      r := Assign(r, fields[i]);
    }
    assert fields[..|fields|] == fields;
  }

  /** The loop run over the update's sent fields applies the update. */
  method AssignSentFields(t: Task, u: TaskUpdate) returns (r: Task)
    ensures AppliesUpdate(r, t, u)
  {
    r := AssignFields(t, SentFields(u));
    AssignSentFieldsApplies(t, u);
  }

  /** PUT `/tasks/{id}`: after the access checks, 404 unless the path user owns
      task `id`; otherwise the row gets the sent fields and the current time,
      and no other row changes. */
  method UpdateTask(store: TaskTable, userId: string, currentUser: string, isUuid: string -> bool,
                    id: int, u: TaskUpdate, now: int)
    returns (r: Result<Task, HttpException>)
    requires store.Valid()
    modifies store
    ensures store.Valid() && store.nextId == old(store.nextId)
    ensures r.Failure? ==> store.rows == old(store.rows)
    ensures var err := AccessError(userId, currentUser, isUuid, UpdateForbidden);
      && (err.Some? ==> r == Failure(err.value))
      && (err.None? && old(store.Find(id, userId)).None? ==> r == Failure(NotFound))
      && (err.None? && old(store.Find(id, userId)).Some? ==>
            && r.Success?
            && AppliesUpdate(r.value.(updatedAt := old(store.rows[id]).updatedAt), old(store.rows[id]), u)
            && r.value.updatedAt == now
            && store.rows == old(store.rows)[id := r.value])
  {
    var err := AccessError(userId, currentUser, isUuid, UpdateForbidden);
    if err.Some? {
      return Failure(err.value);
    }
    var found := store.Find(id, userId);
    if found.None? {
      return Failure(NotFound);
    }
    var task := AssignSentFields(found.value, u);
    task := task.(updatedAt := now);
    store.Store(task);
    r := Success(task);
  }

  /** DELETE `/tasks/{id}`: after the access checks, 404 unless the path user
      owns task `id`; otherwise removes exactly that row. */
  method DeleteTask(store: TaskTable, userId: string, currentUser: string, isUuid: string -> bool, id: int)
    returns (r: Result<(), HttpException>)
    requires store.Valid()
    modifies store
    ensures store.Valid() && store.nextId == old(store.nextId)
    ensures r.Failure? ==> store.rows == old(store.rows)
    ensures var err := AccessError(userId, currentUser, isUuid, DeleteForbidden);
      && (err.Some? ==> r == Failure(err.value))
      && (err.None? && old(store.Find(id, userId)).None? ==> r == Failure(NotFound))
      && (err.None? && old(store.Find(id, userId)).Some? ==>
            r == Success(()) && store.rows == old(store.rows) - {id})
  {
    var err := AccessError(userId, currentUser, isUuid, DeleteForbidden);
    if err.Some? {
      return Failure(err.value);
    }
    var found := store.Find(id, userId);
    if found.None? {
      return Failure(NotFound);
    }
    store.Remove(id);
    r := Success(());
  }

  /** The row `toggle_task_completion` writes: completion negated, and touched. */
  function Toggled(t: Task, now: int): (r: Task)
    ensures r.completed == !t.completed && r.updatedAt == now
    ensures r.(completed := t.completed, updatedAt := t.updatedAt) == t
  {
    t.(completed := !t.completed, updatedAt := now)
  }

  /** Toggling twice restores the completion state; only the timestamp moves. */
  lemma ToggleTwiceRestores(t: Task, now1: int, now2: int)
    ensures Toggled(Toggled(t, now1), now2) == t.(updatedAt := now2)
  {
  }

  /** PATCH `/tasks/{id}/complete`: after the access checks, 404 unless the path
      user owns task `id`; otherwise negates its completion. */
  method ToggleTaskCompletion(store: TaskTable, userId: string, currentUser: string, isUuid: string -> bool,
                              id: int, now: int)
    returns (r: Result<Task, HttpException>)
    requires store.Valid()
    modifies store
    ensures store.Valid() && store.nextId == old(store.nextId)
    ensures r.Failure? ==> store.rows == old(store.rows)
    ensures var err := AccessError(userId, currentUser, isUuid, UpdateForbidden);
      && (err.Some? ==> r == Failure(err.value))
      && (err.None? && old(store.Find(id, userId)).None? ==> r == Failure(NotFound))
      && (err.None? && old(store.Find(id, userId)).Some? ==>
            r == Success(Toggled(old(store.rows[id]), now)) && store.rows == old(store.rows)[id := r.value])
  {
    var err := AccessError(userId, currentUser, isUuid, UpdateForbidden);
    if err.Some? {
      return Failure(err.value);
    }
    var found := store.Find(id, userId);
    if found.None? {
      return Failure(NotFound);
    }
    var task := Toggled(found.value, now);
    store.Store(task);
    r := Success(task);
  }

  /** A task that is no longer stored is in no later listing. */
  lemma RemovedTaskNotListed(store: TaskTable, id: int, userId: string, currentUser: string, isUuid: string -> bool)
    requires store.Valid() && id !in store.rows
    ensures var r := GetTasks(store, userId, currentUser, isUuid);
      r.Success? ==> forall i :: 0 <= i < |r.value| ==> r.value[i].id != id
  {
  }

  /** The agent's tool and the PUT route treat an empty description
      differently: the tool stores None, the route keeps the empty string. */
  lemma EmptyDescriptionToolVersusRoute(t: Task, now: int, r: Task)
    requires AppliesUpdate(r, t, TaskUpdate(None, Some(""), None))
    ensures AgentTools.ToolUpdated(t, None, Some(""), now).description == None
    ensures r.description == Some("")
  {
    assert Strip("") == "";
  }

  /** On creation a whitespace-only description is stored as the empty string,
      not as None. */
  lemma {:induction false} BlankDescriptionStoredEmpty(d: string)
    requires d != "" && AllSpace(d)
    ensures NormalizedDescription(Some(d)) == Some("")
  {
    StripEmptyIffBlank(d);
  }

  /** The route rejects a blank title, but the agent's `add_task` stores it
      stripped to the empty string, a row outside the declared title bounds. */
  lemma {:induction false} BlankTitleRouteVersusTool(title: string, id: int, userId: string, now: int, d: Option<string>)
    requires AllSpace(title)
    ensures !WithinDeclaredBounds(NewTask(id, Strip(title), userId, now, d))
  {
    StripEmptyIffBlank(title);
  }
}
