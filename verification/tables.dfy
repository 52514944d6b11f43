/** The database tables the route handlers and the agent tools read and write,
    as objects whose fields the handlers update in place. Committing, refreshing
    and closing sessions are not modelled: each call below is one committed
    change. */
module Tables {
  import opened Wrappers
  import opened Models
  import Storage

  /** `completed` filter of a query: None selects every row. */
  predicate Matches(t: Task, owner: string, completed: Option<bool>) {
    t.userId == owner && (completed.None? || t.completed == completed.value)
  }

  /** The `task` table: rows by primary key and the next auto-increment value. */
  class TaskTable {
    var rows: map<int, Task>
    var nextId: int

    ghost predicate Valid()
      reads this
    {
      && 1 <= nextId
      && forall k :: k in rows ==> 1 <= k < nextId && rows[k].id == k
    }

    constructor ()
      ensures Valid() && rows == map[] && nextId == 1
    {
      rows := map[];
      nextId := 1;
    }

    /** `select(Task).where(Task.id == id, Task.user_id == owner)` followed by
        `scalar_one_or_none()`: the row with that id, only if `owner` owns it. */
    function Find(id: int, owner: string): (r: Option<Task>)
      reads this
      ensures r.Some? <==> id in rows && rows[id].userId == owner
      ensures r.Some? ==> r.value == rows[id]
    {
      if id in rows && rows[id].userId == owner then Some(rows[id]) else None
    }

    /** `select(Task).where(Task.user_id == owner)`, optionally also filtered on
        `completed`: exactly the matching rows, each once, by ascending id. */
    function Query(owner: string, completed: Option<bool>): (r: seq<Task>)
      requires Valid()
      reads this
      ensures forall i :: 0 <= i < |r| ==> r[i].id in rows && rows[r[i].id] == r[i] && Matches(r[i], owner, completed)
      ensures forall k :: k in rows && Matches(rows[k], owner, completed) ==> rows[k] in r
      ensures forall i, j :: 0 <= i < j < |r| ==> r[i].id < r[j].id
    {
      var ks := Storage.KeysWhere(rows, nextId, t => Matches(t, owner, completed));
      Storage.RowsAt(rows, ks)
    }

    /** `session.add(Task(...))` and commit: the new row gets the next id. */
    method Insert(title: string, description: Option<string>, owner: string, now: int) returns (t: Task)
      requires Valid()
      modifies this
      ensures Valid()
      ensures t == NewTask(old(nextId), title, owner, now, description)
      ensures t.id !in old(rows) && rows == old(rows)[t.id := t]
    {
      t := NewTask(nextId, title, owner, now, description);
      rows := rows[nextId := t];
      nextId := nextId + 1;
    }

    /** Field assignments on a loaded row, then commit. */
    method Store(t: Task)
      requires Valid() && t.id in rows
      modifies this
      ensures Valid() && rows == old(rows)[t.id := t] && nextId == old(nextId)
    {
      rows := rows[t.id := t];
    }

    /** `session.delete(task)` and commit. */
    method Remove(id: int)
      requires Valid()
      modifies this
      ensures Valid() && rows == old(rows) - {id} && nextId == old(nextId)
    {
      rows := rows - {id};
    }
  }
}
