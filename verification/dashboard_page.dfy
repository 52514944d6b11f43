/** The dashboard page's list updater after a task is created
    (frontend/app/dashboard/page.tsx): the new task goes first and replaces
    any task already listed under its id. */
module DashboardPage {
  import TaskList
  import Seqs

  type UiTask = TaskList.UiTask

  /** `handleTaskCreated`'s updater: the new task, then the previous tasks
      with other ids, in their order. */
  function TaskCreated(prev: seq<UiTask>, newTask: UiTask): (r: seq<UiTask>)
    ensures |r| >= 1 && r[0] == newTask
    ensures forall k :: 1 <= k < |r| ==> r[k].id != newTask.id && r[k] in prev
    ensures forall k :: 0 <= k < |prev| && prev[k].id != newTask.id ==> prev[k] in r
  {
    [newTask] + TaskList.WithoutId(prev, newTask.id)
  }

  /** After a creation the list holds the new id besides the old ones, has one
      task more than the previous tasks with other ids, and keeps unique ids. */
  lemma TaskCreatedKeepsList(prev: seq<UiTask>, newTask: UiTask)
    ensures TaskList.IdSet(TaskCreated(prev, newTask)) == TaskList.IdSet(prev) + {newTask.id}
    ensures |TaskCreated(prev, newTask)| == |prev| - TaskList.CountId(prev, newTask.id) + 1
    ensures TaskList.UniqueIds(prev) ==> TaskList.UniqueIds(TaskCreated(prev, newTask))
    ensures TaskList.UniqueIds(prev) && newTask.id !in TaskList.IdSet(prev) ==> |TaskCreated(prev, newTask)| == |prev| + 1
  {
    var rest := TaskList.WithoutId(prev, newTask.id);
    var r := [newTask] + rest;
    TaskList.WithoutIdIds(prev, newTask.id);
    TaskList.WithoutIdLength(prev, newTask.id);
    TaskList.IdSetPrepend(newTask, rest);
    if TaskList.UniqueIds(prev) {
      TaskList.FilterKeepsUnique(prev, TaskList.IdIsNot(newTask.id));
      TaskList.CountIdUnique(prev, newTask.id);
      TaskList.UniqueIdsCons(newTask, rest);
    }
  }

  /** A created task and an updated task leave the same tasks behind; they
      differ only in where that task goes: first after a creation, last after
      an edit. */
  lemma CreatedVersusUpdated(prev: seq<UiTask>, task: UiTask)
    ensures TaskCreated(prev, task)[1..] == TaskList.OnUpdate(prev, task)[..|TaskList.OnUpdate(prev, task)| - 1]
    ensures TaskCreated(prev, task)[0] == TaskList.OnUpdate(prev, task)[|TaskList.OnUpdate(prev, task)| - 1]
  {
    var rest := TaskList.WithoutId(prev, task.id);
    assert TaskCreated(prev, task)[1..] == rest;
    assert TaskList.OnUpdate(prev, task)[..|rest|] == rest;
  }
}
