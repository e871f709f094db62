/**
 * The task registry: the published task snapshot, the pure functions that
 * build each new snapshot, and the service that persists every new snapshot
 * under the `tasks` key before publishing it.
 */
module TaskRegistry {
  import opened Wrappers
  import opened Text
  import opened Sequences
  import opened Models
  import opened Storage

  const TasksKey := "tasks"

  // ---------------------------------------------------------------------------
  // Snapshot functions
  // ---------------------------------------------------------------------------

  /** Newest first: creation times never increase along the snapshot. */
  ghost predicate NewestFirst(s: seq<Task>)
  {
    forall i, j :: 0 <= i < j < |s| ==> s[i].created >= s[j].created
  }

  /** Inserts `t` into a newest-first snapshot in front of the first task no newer than it. */
  function InsertByCreated(t: Task, s: seq<Task>): (r: seq<Task>)
    requires NewestFirst(s)
    ensures NewestFirst(r)
    ensures multiset(r) == multiset(s) + multiset{t}
    ensures forall x :: x in r ==> x == t || x in s
  {
    if s == [] || t.created >= s[0].created then [t] + s
    else
      var rest := InsertByCreated(t, s[1..]);
      assert s == [s[0]] + s[1..];
      assert forall x :: x in rest ==> x.created <= s[0].created;
      [s[0]] + rest
  }

  /**
   * The order `loadTasks` publishes: the stored tasks sorted by `created`,
   * newest first.
   */
  function SortNewestFirst(s: seq<Task>): (r: seq<Task>)
    ensures NewestFirst(r)
    ensures multiset(r) == multiset(s)
  {
    if s == [] then []
    else
      assert s == [s[0]] + s[1..];
      InsertByCreated(s[0], SortNewestFirst(s[1..]))
  }

  /** Sorting a snapshot that is already newest first leaves it as it is. */
  lemma {:induction false} SortKeepsNewestFirst(s: seq<Task>)
    requires NewestFirst(s)
    ensures SortNewestFirst(s) == s
  {
    if s != [] {
      SortKeepsNewestFirst(s[1..]);
    }
  }

  /** The UI's "no category" sentinel 0 (and null) become null; any other id is kept. */
  function NormalizeCategoryId(categoryId: Option<int>): (r: Option<int>)
    ensures r != Some(0)
    ensures categoryId != Some(0) ==> r == categoryId
  {
    if categoryId == Some(0) then None else categoryId
  }

  /**
   * The task `addTask(title, categoryId)` creates, given the two clock
   * readings it takes: `now` from `Date.now()` for the id and `createdAt`
   * from `new Date()` for the creation time.
   */
  function NewTask(title: string, categoryId: Option<int>, now: int, createdAt: int): (t: Task)
    ensures t.id == now && t.created == createdAt && !t.completed
    ensures t.title == Trim(title)
    ensures t.title == "" <==> AllWhitespace(title)
    ensures t.categoryId == NormalizeCategoryId(categoryId)
  {
    TrimEmptyIff(title);
    Task(now, Trim(title), false, createdAt, NormalizeCategoryId(categoryId))
  }

  /** Whether some task in `s` has id `id`. */
  predicate HasTaskId(s: seq<Task>, id: int)
  {
    exists i :: 0 <= i < |s| && s[i].id == id
  }

  /** `s.findIndex(t => t.id === id)`, with `None` for -1. */
  function FindTaskIndex(s: seq<Task>, id: int): (r: Option<nat>)
    ensures r.None? <==> !HasTaskId(s, id)
    ensures r.Some? ==> r.value < |s| && s[r.value].id == id
    ensures r.Some? ==> forall j :: 0 <= j < r.value ==> s[j].id != id
  {
    if s == [] then None
    else if s[0].id == id then Some(0)
    else
      match FindTaskIndex(s[1..], id)
      case None => None
      case Some(i) => Some(i + 1)
  }

  /** The task as `updateTask` stores it: the caller's task with its title trimmed. */
  function WithTrimmedTitle(t: Task): (r: Task)
    ensures r.title == Trim(t.title)
    ensures r.(title := t.title) == t
  {
    t.(title := Trim(t.title))
  }

  /**
   * The snapshot after `updateTask(task)`: the first task with `task.id` is
   * replaced in place by `task` with a trimmed title; without such a task the
   * snapshot is unchanged.
   */
  function ReplaceTask(s: seq<Task>, task: Task): (r: seq<Task>)
    ensures |r| == |s|
    ensures !HasTaskId(s, task.id) ==> r == s
    ensures FindTaskIndex(s, task.id).Some? ==>
      var i := FindTaskIndex(s, task.id).value;
      r[i] == WithTrimmedTitle(task) && forall k :: 0 <= k < |s| && k != i ==> r[k] == s[k]
  {
    match FindTaskIndex(s, task.id)
    case None => s
    case Some(i) => s[..i] + [WithTrimmedTitle(task)] + s[i + 1..]
  }

  /** The snapshot after `deleteTask(id)`: every task with that id is dropped. */
  function RemoveTask(s: seq<Task>, id: int): (r: seq<Task>)
    ensures !HasTaskId(r, id)
    ensures IsSubsequence(r, s)
    ensures forall t :: t in s && t.id != id ==> multiset(r)[t] == multiset(s)[t]
    ensures !HasTaskId(s, id) ==> r == s
  {
    var keep := (t: Task) => t.id != id;
    var r := Filter(keep, s);
    assert forall i :: 0 <= i < |r| ==> r[i] in r;
    assert !HasTaskId(s, id) ==> r == s by {
      if !HasTaskId(s, id) {
        FilterKeepsAll(keep, s);
      }
    }
    r
  }

  /** `task` without its category. */
  function Uncategorized(t: Task): (r: Task)
    ensures r.categoryId.None?
    ensures r.(categoryId := t.categoryId) == t
  {
    t.(categoryId := None)
  }

  /**
   * The snapshot after `handleCategoryDeletion(categoryId)`: the tasks in
   * that category become uncategorised, every other task stays as it is.
   */
  function ClearCategory(s: seq<Task>, categoryId: int): (r: seq<Task>)
    ensures |r| == |s|
    ensures forall i :: 0 <= i < |s| ==> r[i].categoryId != Some(categoryId)
    ensures forall i :: 0 <= i < |s| && s[i].categoryId != Some(categoryId) ==> r[i] == s[i]
    ensures forall i :: 0 <= i < |s| && s[i].categoryId == Some(categoryId) ==> r[i] == Uncategorized(s[i])
  {
    seq(|s|, i requires 0 <= i < |s| => if s[i].categoryId == Some(categoryId) then Uncategorized(s[i]) else s[i])
  }

  /** The task list a stored value stands for; no value (or a category list) stands for none. */
  function StoredTasks(v: Option<Stored>): (r: seq<Task>)
    ensures v.Some? && v.value.TaskList? ==> r == v.value.tasks
    ensures !(v.Some? && v.value.TaskList?) ==> r == []
  {
    match v
    case Some(TaskList(ts)) => ts
    case _ => []
  }

  // ---------------------------------------------------------------------------
  // Newest-first is kept by every mutation
  // ---------------------------------------------------------------------------

  /** Prepending a task created no earlier than every other keeps a snapshot newest first. */
  lemma PrependKeepsNewestFirst(s: seq<Task>, t: Task)
    requires NewestFirst(s)
    requires forall x :: x in s ==> x.created <= t.created
    ensures NewestFirst([t] + s)
  {
  }

  /** A subsequence of a newest-first snapshot is newest first. */
  lemma {:induction false} SubsequenceKeepsNewestFirst(r: seq<Task>, s: seq<Task>)
    requires IsSubsequence(r, s) && NewestFirst(s)
    ensures NewestFirst(r)
    decreases |s|
  {
    if r != [] {
      if r[0] == s[0] && IsSubsequence(r[1..], s[1..]) {
        SubsequenceKeepsNewestFirst(r[1..], s[1..]);
        SubsequenceMembers(r[1..], s[1..]);
        forall j | 0 < j < |r| ensures r[0].created >= r[j].created {
          assert r[j] in r[1..];
        }
      } else {
        SubsequenceKeepsNewestFirst(r, s[1..]);
      }
    }
  }

  /** Deleting keeps a snapshot newest first. */
  lemma RemoveKeepsNewestFirst(s: seq<Task>, id: int)
    requires NewestFirst(s)
    ensures NewestFirst(RemoveTask(s, id))
  {
    SubsequenceKeepsNewestFirst(RemoveTask(s, id), s);
  }

  /** An update that keeps the task's creation time keeps a snapshot newest first. */
  lemma ReplaceKeepsNewestFirst(s: seq<Task>, task: Task)
    requires NewestFirst(s)
    requires forall t :: t in s && t.id == task.id ==> t.created == task.created
    ensures NewestFirst(ReplaceTask(s, task))
  {
  }

  /** The category cascade keeps a snapshot newest first. */
  lemma ClearKeepsNewestFirst(s: seq<Task>, categoryId: int)
    requires NewestFirst(s)
    ensures NewestFirst(ClearCategory(s, categoryId))
  {
  }

  // ---------------------------------------------------------------------------
  // The service
  // ---------------------------------------------------------------------------

  class TaskService {
    const storage: StorageService
    /** The published snapshot (the subject's current value). */
    var tasks: seq<Task>

    ghost predicate Valid()
      reads this, storage
    {
      storage.Valid()
    }

    /** A registry over `storage` whose subject starts out empty. */
    constructor (storage: StorageService)
      requires storage.Valid()
      ensures Valid() && this.storage == storage && tasks == []
    {
      this.storage := storage;
      tasks := [];
    }

    /**
     * Publishes the stored task list (none when storage holds null) sorted
     * newest first.
     */
    method LoadTasks()
      requires Valid()
      modifies this, storage
      ensures Valid()
      ensures storage.initialized
      ensures storage.ReadThrough(old(storage.cache), old(storage.medium), old(storage.mediumReads), TasksKey)
      ensures tasks == SortNewestFirst(StoredTasks(old(storage.Peek(TasksKey))))
      ensures NewestFirst(tasks) && multiset(tasks) == multiset(StoredTasks(old(storage.Peek(TasksKey))))
    {
      var stored := storage.Get(TasksKey);
      tasks := SortNewestFirst(StoredTasks(stored));
    }

    /** Prepends a new task with id `now` created at `createdAt`, persists the snapshot and publishes it. */
    method AddTask(title: string, categoryId: Option<int>, now: int, createdAt: int)
      requires Valid()
      modifies this, storage
      ensures Valid()
      ensures tasks == [NewTask(title, categoryId, now, createdAt)] + old(tasks)
      ensures storage.Wrote(old(storage.cache), old(storage.medium), TasksKey, TaskList(tasks))
      ensures storage.mediumReads == old(storage.mediumReads)
      ensures storage.initialized
    {
      var updated := [NewTask(title, categoryId, now, createdAt)] + tasks;
      storage.Set(TasksKey, TaskList(updated));
      tasks := updated;
    }

    /**
     * Replaces the first task with `task.id` by `task` with a trimmed title,
     * persists and publishes; with no such task nothing happens at all.
     */
    method UpdateTask(task: Task)
      requires Valid()
      modifies this, storage
      ensures Valid()
      ensures tasks == ReplaceTask(old(tasks), task)
      ensures HasTaskId(old(tasks), task.id) ==>
        storage.Wrote(old(storage.cache), old(storage.medium), TasksKey, TaskList(tasks))
        && storage.mediumReads == old(storage.mediumReads)
        && storage.initialized
      ensures !HasTaskId(old(tasks), task.id) ==> unchanged(this) && unchanged(storage)
    {
      var index := FindTaskIndex(tasks, task.id);
      if index.Some? {
        var updated := ReplaceTask(tasks, task);
        storage.Set(TasksKey, TaskList(updated));
        tasks := updated;
      }
    }

    /** Drops every task with id `id`, then persists and publishes, even when none was dropped. */
    method DeleteTask(id: int)
      requires Valid()
      modifies this, storage
      ensures Valid()
      ensures tasks == RemoveTask(old(tasks), id)
      ensures storage.Wrote(old(storage.cache), old(storage.medium), TasksKey, TaskList(tasks))
      ensures storage.mediumReads == old(storage.mediumReads)
      ensures storage.initialized
    {
      var updated := RemoveTask(tasks, id);
      storage.Set(TasksKey, TaskList(updated));
      tasks := updated;
    }

    /** Makes the tasks of category `categoryId` uncategorised, then persists and publishes. */
    method HandleCategoryDeletion(categoryId: int)
      requires Valid()
      modifies this, storage
      ensures Valid()
      ensures tasks == ClearCategory(old(tasks), categoryId)
      ensures storage.Wrote(old(storage.cache), old(storage.medium), TasksKey, TaskList(tasks))
      ensures storage.mediumReads == old(storage.mediumReads)
      ensures storage.initialized
    {
      var updated := ClearCategory(tasks, categoryId);
      storage.Set(TasksKey, TaskList(updated));
      tasks := updated;
    }
  }
}
