/** The records of the database (backend/models.py) with their declared
    defaults and bounds. Timestamps are integer clock readings. */
module Models {
  import opened Wrappers
  import opened Text

  /** A row of the `task` table. `id` is assigned by the database. */
  datatype Task = Task(
    id: int,
    title: string,
    description: Option<string>,
    completed: bool,
    userId: string,
    createdAt: int,
    updatedAt: int)

  /** `Task(title=..., user_id=..., description=...)` as the database stores it
      under the id `id`: `completed` defaults to false, `description` to None and
      both timestamps to the current time. */
  function NewTask(id: int, title: string, userId: string, now: int,
                   description: Option<string> := None): Task
  {
    Task(id, title, description, false, userId, now, now)
  }

  /** The declared field bounds: a title of 1 to 255 characters and a
      description of at most 1000. The table model does not check them when a
      record is built; they are a declaration of what a well-formed row is. */
  predicate WithinDeclaredBounds(t: Task) {
    && 1 <= |t.title| <= 255
    && (t.description.Some? ==> |t.description.value| <= 1000)
  }

  /** A new task is not completed and, unless given one, has no description. */
  lemma NewTaskDefaults(id: int, title: string, userId: string, now: int)
    ensures !NewTask(id, title, userId, now).completed
    ensures NewTask(id, title, userId, now).description == None
  {
  }

  /** A row of the `user` table; `password` holds the bcrypt hash. */
  datatype User = User(
    id: string,
    email: string,
    name: string,
    password: string,
    createdAt: int,
    updatedAt: int)

  /** The `unique=True` declaration on `User.email`. */
  predicate EmailsUnique(users: seq<User>) {
    forall i, j :: 0 <= i < j < |users| ==> users[i].email != users[j].email
  }

  /** The partial update a client sends: every field optional, None when not
      sent (or sent as null). */
  datatype TaskUpdate = TaskUpdate(
    title: Option<string>,
    description: Option<string>,
    completed: Option<bool>)

  /** `TaskUpdate()` with every field left at its default. */
  const EmptyUpdate := TaskUpdate(None, None, None)

  /** A row of the conversation table used by the chat routes. */
  datatype Conversation = Conversation(id: int, userId: string, updatedAt: int)

  /** A row of the message table used by the chat routes; `toolCalls` is the
      JSON text of the tool-call log, if any. */
  datatype Message = Message(
    id: int,
    conversationId: int,
    userId: string,
    role: string,
    content: string,
    toolCalls: Option<string>,
    createdAt: int)

  /** `d.strip() if d else None`, the description both creation paths and the
      agent's update store: a missing or empty description becomes None; any
      other is stripped, so a whitespace-only one becomes the empty string. */
  function NormalizedDescription(d: Option<string>): (r: Option<string>)
    ensures r.None? <==> (d.None? || d.value == "")
    ensures r.Some? ==> r.value == Strip(d.value)
  {
    if d.None? || d.value == "" then None else Some(Strip(d.value))
  }

  /** Normalization keeps a description of at most 1000 characters within bound. */
  lemma NormalizedDescriptionShrinks(d: Option<string>)
    ensures NormalizedDescription(d).Some? ==> |NormalizedDescription(d).value| <= |d.value|
  {
  }
}
