/** The dashboard's task list (frontend/components/dashboard/task-list.tsx):
    the de-duplication done before rendering, so that every React key is
    unique, and the list updaters its items call after an edit or a delete. */
module TaskList {
  import opened Wrappers
  import Seqs
  import Text

  /** A task as the frontend holds it: the frontend's `Task` type, with the
      timestamps kept as the strings the API sends. */
  datatype UiTask = UiTask(id: int, title: string, description: Option<string>, completed: bool,
                           userId: string, createdAt: string, updatedAt: string, dueDate: Option<string>)

  /** The ids occurring in `s`. */
  function IdSet(s: seq<UiTask>): set<int> {
    set k | 0 <= k < |s| :: s[k].id
  }

  /** No two tasks share an id. */
  predicate UniqueIds(s: seq<UiTask>) {
    forall i, j :: 0 <= i < j < |s| ==> s[i].id != s[j].id
  }

  /** `s[i]` is the first task of `s` with its id. */
  predicate FirstOfId(s: seq<UiTask>, i: int)
    requires 0 <= i < |s|
  {
    forall j :: 0 <= j < i ==> s[j].id != s[i].id
  }

  /** Reference definition: the tasks among the first `n` that are the first
      with their id, in their original order. */
  function Firsts(s: seq<UiTask>, n: nat): seq<UiTask>
    requires n <= |s|
  {
    if n == 0 then [] else Firsts(s, n - 1) + (if FirstOfId(s, n - 1) then [s[n - 1]] else [])
  }

  /** What the `reduce` building `uniqueTasks` leaves in its accumulator after
      the tasks of `s`: a task is pushed unless a task with its id is already there. */
  function Dedup(s: seq<UiTask>): seq<UiTask> {
    if s == [] then []
    else
      var acc := Dedup(s[..|s| - 1]);
      if s[|s| - 1].id in IdSet(acc) then acc else acc + [s[|s| - 1]]
  }

  /** `uniqueTasks`: the reduce over `tasks`, pushing each task whose id no
      task in the accumulator has (the `acc.some(...)` test). */
  method UniqueTasks(tasks: seq<UiTask>) returns (acc: seq<UiTask>)
    ensures acc == Dedup(tasks)
    ensures UniqueIds(acc) && IdSet(acc) == IdSet(tasks)
    ensures acc == Firsts(tasks, |tasks|)
  {
    acc := [];
    for i := 0 to |tasks|
      invariant acc == Dedup(tasks[..i])
    {
      assert tasks[..i + 1][..i] == tasks[..i];
      var seen := exists k :: 0 <= k < |acc| && acc[k].id == tasks[i].id;
      if !seen {
        acc := acc + [tasks[i]];
      }
    }
    assert tasks[..|tasks|] == tasks;
    DedupUnique(tasks);
    DedupKeepsFirsts(tasks);
  }

  /** The de-duplicated list has unique ids, and it has every id of the input. */
  lemma {:induction false} DedupUnique(s: seq<UiTask>)
    ensures UniqueIds(Dedup(s)) && IdSet(Dedup(s)) == IdSet(s)
  {
    if s != [] {
      var p, t := s[..|s| - 1], s[|s| - 1];
      DedupUnique(p);
      var acc := Dedup(p);
      assert s == p + [t];
      IdSetAppend(p, t);
      if t.id !in IdSet(acc) {
        IdSetAppend(acc, t);
        var d := acc + [t];
        forall i, j | 0 <= i < j < |d|
          ensures d[i].id != d[j].id
        {
          if j == |acc| {
            assert d[i].id in IdSet(acc);
          }
        }
      }
    }
  }

  lemma IdSetAppend(s: seq<UiTask>, t: UiTask)
    ensures IdSet(s + [t]) == IdSet(s) + {t.id}
  {
    var r := s + [t];
    forall id | id in IdSet(s)
      ensures id in IdSet(r)
    {
      var k :| 0 <= k < |s| && s[k].id == id;
      assert r[k] == s[k];
    }
    assert r[|s|].id == t.id;
  }

  lemma IdSetPrepend(t: UiTask, s: seq<UiTask>)
    ensures IdSet([t] + s) == {t.id} + IdSet(s)
  {
    var r := [t] + s;
    forall id | id in IdSet(r)
      ensures id in {t.id} + IdSet(s)
    {
      var k :| 0 <= k < |r| && r[k].id == id;
      if k > 0 {
        assert r[k] == s[k - 1];
      }
    }
    forall id | id in IdSet(s)
      ensures id in IdSet(r)
    {
      var k :| 0 <= k < |s| && s[k].id == id;
      assert r[k + 1] == s[k];
    }
    assert r[0].id == t.id;
  }

  /** The de-duplicated prefix of length `n` is the prefix's first occurrences. */
  lemma {:induction false} DedupPrefixKeepsFirsts(s: seq<UiTask>, n: nat)
    requires n <= |s|
    ensures Dedup(s[..n]) == Firsts(s, n)
  {
    if n > 0 {
      DedupPrefixKeepsFirsts(s, n - 1);
      assert s[..n][..n - 1] == s[..n - 1];
      DedupUnique(s[..n - 1]);
      assert forall k :: 0 <= k < n - 1 ==> s[..n - 1][k] == s[k];
      if !FirstOfId(s, n - 1) {
        var j :| 0 <= j < n - 1 && s[j].id == s[n - 1].id;
        assert s[..n - 1][j] == s[j];
      }
    }
  }

  /** `uniqueTasks` keeps exactly the first task of each id, in input order. */
  lemma DedupKeepsFirsts(s: seq<UiTask>)
    ensures Dedup(s) == Firsts(s, |s|)
  {
    DedupPrefixKeepsFirsts(s, |s|);
    assert s[..|s|] == s;
  }

  /** A list whose ids are already unique is rendered as it is. */
  lemma {:induction false} DedupOfUnique(s: seq<UiTask>)
    requires UniqueIds(s)
    ensures Dedup(s) == s
  {
    if s != [] {
      var p, t := s[..|s| - 1], s[|s| - 1];
      assert UniqueIds(p) by {
        forall i, j | 0 <= i < j < |p|
          ensures p[i].id != p[j].id
        {
          assert p[i] == s[i] && p[j] == s[j];
        }
      }
      DedupOfUnique(p);
      assert t.id !in IdSet(p) by {
        forall k | 0 <= k < |p|
          ensures p[k].id != t.id
        {
          assert p[k] == s[k];
        }
      }
      assert p + [t] == s;
    }
  }

  /** De-duplicating twice is de-duplicating once. */
  lemma DedupIdempotent(s: seq<UiTask>)
    ensures Dedup(Dedup(s)) == Dedup(s)
  {
    DedupUnique(s);
    DedupOfUnique(Dedup(s));
  }

  /** The tests `t.id !== id` and `t.id === id` as values to filter with. */
  function IdIsNot(id: int): UiTask -> bool {
    (t: UiTask) => t.id != id
  }

  function IdIs(id: int): UiTask -> bool {
    (t: UiTask) => t.id == id
  }

  /** The test `t.id.toString() !== deletedTaskId`. */
  function IdStringIsNot(deletedTaskId: string): UiTask -> bool {
    (t: UiTask) => Text.IntToString(t.id) != deletedTaskId
  }

  /** The tasks of `s` whose id is not `id`, in order. */
  function WithoutId(s: seq<UiTask>, id: int): (r: seq<UiTask>)
    ensures forall k :: 0 <= k < |r| ==> r[k].id != id && r[k] in s
    ensures forall k :: 0 <= k < |s| && s[k].id != id ==> s[k] in r
  {
    Seqs.Filter(s, IdIsNot(id))
  }

  /** How many tasks of `s` have the id `id`. */
  function CountId(s: seq<UiTask>, id: int): nat {
    |Seqs.Filter(s, IdIs(id))|
  }

  /** Dropping an id removes exactly its tasks. */
  lemma WithoutIdLength(s: seq<UiTask>, id: int)
    ensures |WithoutId(s, id)| == |s| - CountId(s, id)
  {
    Seqs.FilterPartition(s, IdIsNot(id), IdIs(id));
  }

  /** In a list with unique ids an id occurs once or not at all. */
  lemma {:induction false} CountIdUnique(s: seq<UiTask>, id: int)
    requires UniqueIds(s)
    ensures CountId(s, id) == if id in IdSet(s) then 1 else 0
  {
    if s != [] {
      var rest := s[1..];
      UniqueIdsTail(s);
      CountIdUnique(rest, id);
      assert forall k :: 0 <= k < |rest| ==> rest[k] == s[k + 1];
      assert IdSet(s) == {s[0].id} + IdSet(rest) by {
        forall x | x in IdSet(s)
          ensures x in {s[0].id} + IdSet(rest)
        {
          var k :| 0 <= k < |s| && s[k].id == x;
          if k > 0 {
            assert rest[k - 1] == s[k];
          }
        }
      }
      assert s[0].id !in IdSet(rest);
    }
  }

  /** Filtering a list with unique ids leaves them unique. */
  lemma {:induction false} FilterKeepsUnique(s: seq<UiTask>, keep: UiTask -> bool)
    requires UniqueIds(s)
    ensures UniqueIds(Seqs.Filter(s, keep))
  {
    if s != [] {
      var rest := s[1..];
      UniqueIdsTail(s);
      FilterKeepsUnique(rest, keep);
      var tail := Seqs.Filter(rest, keep);
      if keep(s[0]) {
        forall j | 0 <= j < |tail|
          ensures tail[j].id != s[0].id
        {
          var k :| 0 <= k < |rest| && rest[k] == tail[j];
        }
        UniqueIdsCons(s[0], tail);
      }
    }
  }

  lemma UniqueIdsTail(s: seq<UiTask>)
    requires UniqueIds(s) && s != []
    ensures UniqueIds(s[1..]) && forall k :: 0 <= k < |s| - 1 ==> s[1..][k].id != s[0].id
  {
    var rest := s[1..];
    forall i, j | 0 <= i < j < |rest|
      ensures rest[i].id != rest[j].id
    {
      assert rest[i] == s[i + 1] && rest[j] == s[j + 1];
    }
    forall k | 0 <= k < |rest|
      ensures rest[k].id != s[0].id
    {
      assert rest[k] == s[k + 1];
    }
  }

  lemma UniqueIdsCons(t: UiTask, s: seq<UiTask>)
    requires UniqueIds(s) && forall k :: 0 <= k < |s| ==> s[k].id != t.id
    ensures UniqueIds([t] + s)
  {
    var r := [t] + s;
    forall i, j | 0 <= i < j < |r|
      ensures r[i].id != r[j].id
    {
      assert r[j] == s[j - 1];
      if i > 0 {
        assert r[i] == s[i - 1];
      }
    }
  }

  /** The ids left after dropping `id`. */
  lemma WithoutIdIds(s: seq<UiTask>, id: int)
    ensures IdSet(WithoutId(s, id)) == IdSet(s) - {id}
  {
    var r := WithoutId(s, id);
    forall x | x in IdSet(r)
      ensures x in IdSet(s) - {id}
    {
      var k :| 0 <= k < |r| && r[k].id == x;
      var j :| 0 <= j < |s| && s[j] == r[k];
    }
    forall x | x in IdSet(s) - {id}
      ensures x in IdSet(r)
    {
      var k :| 0 <= k < |s| && s[k].id == x;
      var j :| 0 <= j < |r| && r[j] == s[k];
    }
  }

  /** `onUpdate`: every task with the updated task's id is dropped and the
      updated task goes at the end. */
  function OnUpdate(prev: seq<UiTask>, updated: UiTask): (r: seq<UiTask>)
    ensures |r| >= 1 && r[|r| - 1] == updated
    ensures forall k :: 0 <= k < |r| - 1 ==> r[k].id != updated.id && r[k] in prev
    ensures forall k :: 0 <= k < |prev| && prev[k].id != updated.id ==> prev[k] in r
  {
    WithoutId(prev, updated.id) + [updated]
  }

  /** After an update the list still has unique ids, holds the updated id, and
      has as many tasks as before when the id was listed once. */
  lemma OnUpdateKeepsList(prev: seq<UiTask>, updated: UiTask)
    ensures IdSet(OnUpdate(prev, updated)) == IdSet(prev) + {updated.id}
    ensures |OnUpdate(prev, updated)| == |prev| - CountId(prev, updated.id) + 1
    ensures UniqueIds(prev) ==> UniqueIds(OnUpdate(prev, updated))
    ensures UniqueIds(prev) && updated.id in IdSet(prev) ==> |OnUpdate(prev, updated)| == |prev|
  {
    var rest := WithoutId(prev, updated.id);
    WithoutIdIds(prev, updated.id);
    IdSetAppend(rest, updated);
    WithoutIdLength(prev, updated.id);
    if UniqueIds(prev) {
      FilterKeepsUnique(prev, IdIsNot(updated.id));
      CountIdUnique(prev, updated.id);
      var r := rest + [updated];
      forall i, j | 0 <= i < j < |r|
        ensures r[i].id != r[j].id
      {
        if j == |rest| {
          assert r[i] == rest[i];
        }
      }
    }
  }

  /** `onDelete`: the tasks whose id, as `toString` writes it, is not the
      deleted task's id string, in order. */
  function OnDelete(prev: seq<UiTask>, deletedTaskId: string): (r: seq<UiTask>)
    ensures forall k :: 0 <= k < |r| ==> Text.IntToString(r[k].id) != deletedTaskId && r[k] in prev
    ensures forall k :: 0 <= k < |prev| && Text.IntToString(prev[k].id) != deletedTaskId ==> prev[k] in r
  {
    Seqs.Filter(prev, IdStringIsNot(deletedTaskId))
  }

  /** Deleting by the id string of `id` is dropping exactly the tasks with id `id`. */
  lemma OnDeleteDropsId(prev: seq<UiTask>, id: int)
    ensures OnDelete(prev, Text.IntToString(id)) == WithoutId(prev, id)
  {
    forall t: UiTask
      ensures (Text.IntToString(t.id) != Text.IntToString(id)) == (t.id != id)
    {
      if Text.IntToString(t.id) == Text.IntToString(id) {
        Text.IntToStringInjective(t.id, id);
      }
    }
    Seqs.FilterSameKeep(prev, IdStringIsNot(Text.IntToString(id)), IdIsNot(id));
  }

  /** A string that is no listed task's id string deletes nothing. */
  lemma OnDeleteUnknownId(prev: seq<UiTask>, deletedTaskId: string)
    requires forall k :: 0 <= k < |prev| ==> Text.IntToString(prev[k].id) != deletedTaskId
    ensures OnDelete(prev, deletedTaskId) == prev
  {
    Seqs.FilterAllKept(prev, IdStringIsNot(deletedTaskId));
  }
}
