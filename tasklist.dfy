/** The task list both assistant variants keep: creation with a
    length-derived id, completion of the first task with an id, and
    deletion of every task with an id. */
module TaskList {
  import opened Records

  const Pending := "pending"
  const Completed := "completed"
  const DefaultPriority := "medium"

  /** The task `add_task` appends: its id is one more than the number of
      tasks already in the list, it is pending and not yet completed. */
  function NewTask(tasks: seq<Task>, description: string, priority: string, now: Timestamp): (t: Task)
    ensures t.id == |tasks| + 1 && t.status == Pending && t.completed == None
    ensures t.description == description && t.priority == priority && t.created == now
  {
    Task(|tasks| + 1, description, priority, Pending, now, None)
  }

  /** Ids are 1, 2, 3, ... in list order. */
  predicate SequentialIds(tasks: seq<Task>) {
    forall k :: 0 <= k < |tasks| ==> tasks[k].id == k + 1
  }

  /** As long as nothing is deleted, ids keep counting up from 1. */
  lemma AddKeepsIdsSequential(tasks: seq<Task>, description: string, priority: string, now: Timestamp)
    requires SequentialIds(tasks)
    ensures SequentialIds(tasks + [NewTask(tasks, description, priority, now)])
  {
  }

  /** The position of the first task with the given id, if any. */
  function FirstWithId(tasks: seq<Task>, id: int): (r: Option<nat>)
    ensures r.Some? ==> r.value < |tasks| && tasks[r.value].id == id
    ensures r.Some? ==> forall j :: 0 <= j < r.value ==> tasks[j].id != id
    ensures r.None? <==> forall j :: 0 <= j < |tasks| ==> tasks[j].id != id
  {
    if tasks == [] then None
    else if tasks[0].id == id then Some(0)
    else match FirstWithId(tasks[1..], id)
      case None => None
      case Some(i) => Some(i + 1)
  }

  /** The first match depends on the ids alone. */
  lemma {:induction false} FirstWithIdSameIds(a: seq<Task>, b: seq<Task>, id: int)
    requires |a| == |b|
    requires forall k :: 0 <= k < |a| ==> a[k].id == b[k].id
    ensures FirstWithId(a, id) == FirstWithId(b, id)
  {
    if a != [] && a[0].id != id {
      FirstWithIdSameIds(a[1..], b[1..], id);
    }
  }

  /** A task after `complete_task` has marked it. */
  function MarkCompleted(t: Task, now: Timestamp): (r: Task)
    ensures r.status == Completed && r.completed == Some(now)
    ensures r.id == t.id && r.description == t.description && r.priority == t.priority && r.created == t.created
  {
    t.(status := Completed, completed := Some(now))
  }

  /** The task list after `complete_task(id)`: the first task with that id
      is marked completed; when no task has that id nothing changes. */
  function CompleteFirst(tasks: seq<Task>, id: int, now: Timestamp): (r: seq<Task>)
    ensures |r| == |tasks|
    ensures forall k :: 0 <= k < |tasks| ==> r[k].id == tasks[k].id
    ensures forall k :: 0 <= k < |tasks| && r[k] != tasks[k] ==>
              FirstWithId(tasks, id) == Some(k)
    ensures FirstWithId(tasks, id).None? ==> r == tasks
    ensures FirstWithId(tasks, id).Some? ==>
              r[FirstWithId(tasks, id).value] == MarkCompleted(tasks[FirstWithId(tasks, id).value], now)
  {
    match FirstWithId(tasks, id)
    case None => tasks
    case Some(i) => tasks[i := MarkCompleted(tasks[i], now)]
  }

  /** Completing the same id twice has the effect of completing it once, at
      the later time: the status stays completed and the completion time is
      the one of the second call. */
  lemma CompleteTwice(tasks: seq<Task>, id: int, first: Timestamp, second: Timestamp)
    ensures CompleteFirst(CompleteFirst(tasks, id, first), id, second) == CompleteFirst(tasks, id, second)
  {
    var once := CompleteFirst(tasks, id, first);
    FirstWithIdSameIds(tasks, once, id);
  }

  /** The task list after `delete_task(id)`: `[t for t in tasks if t["id"] != id]`. */
  function WithoutId(tasks: seq<Task>, id: int): (r: seq<Task>)
    ensures |r| <= |tasks|
    ensures forall k :: 0 <= k < |r| ==> r[k].id != id && r[k] in tasks
    ensures forall k :: 0 <= k < |tasks| && tasks[k].id != id ==> tasks[k] in r
    ensures (forall k :: 0 <= k < |tasks| ==> tasks[k].id != id) ==> r == tasks
  {
    FilterKeepsAll(tasks, (t: Task) => t.id != id);
    Filter(tasks, (t: Task) => t.id != id)
  }

  /** Deleting keeps the remaining tasks in their original order: deleting
      from a concatenation deletes from each part. */
  lemma WithoutIdKeepsOrder(a: seq<Task>, b: seq<Task>, id: int)
    ensures WithoutId(a + b, id) == WithoutId(a, id) + WithoutId(b, id)
  {
    FilterAppend(a, b, (t: Task) => t.id != id);
  }

  /** Ids are not identities: add two tasks, delete the first, add another,
      and two tasks carry id 2. */
  lemma IdsCollideAfterDelete(now: Timestamp)
    ensures var one := [NewTask([], "a", DefaultPriority, now)];
            var two := one + [NewTask(one, "b", DefaultPriority, now)];
            var left := WithoutId(two, 1);
            var three := left + [NewTask(left, "c", DefaultPriority, now)];
            |three| == 2 && three[0].id == 2 && three[1].id == 2
  {
    var one := [NewTask([], "a", DefaultPriority, now)];
    var two := one + [NewTask(one, "b", DefaultPriority, now)];
    assert two == [two[0]] + [two[1]];
    FilterAppend([two[0]], [two[1]], (t: Task) => t.id != 1);
    assert WithoutId(two, 1) == [two[1]];
  }
}
