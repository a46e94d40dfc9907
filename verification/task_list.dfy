/** The list transforms the dashboard hands to `setTasks`: prepend, remove by id,
    merge by id, and the effect of "Mark all done". */
module TaskList {
  import opened TaskModel
  import opened Seqs

  /** The ids of a list, position by position. */
  function IdsOf(ts: seq<Task>): (r: seq<Id>)
    ensures |r| == |ts|
    ensures forall k :: 0 <= k < |ts| ==> r[k] == ts[k].id
  {
    seq(|ts|, k requires 0 <= k < |ts| => ts[k].id)
  }

  /** No task of `ts` carries `id`, as a freshly generated uuid would. */
  predicate FreshId(ts: seq<Task>, id: Id) {
    forall t :: t in ts ==> t.id != id
  }

  function IdIsNot(id: Id): Task -> bool {
    (t: Task) => t.id != id
  }

  /** `prev.filter(t => t.id !== id)`: the revert of `addTask` and the removal of `deleteTask`. */
  function WithoutId(ts: seq<Task>, id: Id): (r: seq<Task>)
    ensures |r| <= |ts|
    ensures forall t :: t in r <==> t in ts && t.id != id
  {
    Filter(ts, IdIsNot(id))
  }

  /** `prev.map(t => t.id === id ? { ...t, ...changes } : t)`. */
  function MergeById(ts: seq<Task>, id: Id, c: Changes): (r: seq<Task>)
    ensures IdsOf(r) == IdsOf(ts)
  {
    seq(|ts|, k requires 0 <= k < |ts| => if ts[k].id == id then Merge(ts[k], c) else ts[k])
  }

  /** The active tasks, each of which "Mark all done" updates. */
  function ActiveTasks(ts: seq<Task>): (r: seq<Task>)
    ensures |r| <= |ts|
    ensures forall t :: t in r <==> t in ts && !t.completed
  {
    Filter(ts, IsActive)
  }

  /** Every task of the list marked completed, nothing else touched. */
  function CompleteAll(ts: seq<Task>): (r: seq<Task>)
    ensures forall t :: t in r ==> t.completed
    ensures IdsOf(r) == IdsOf(ts)
  {
    seq(|ts|, k requires 0 <= k < |ts| => ts[k].(completed := true))
  }

  /** Removing by id leaves exactly the tasks with another id, in their original order and
      with their original multiplicity. */
  lemma WithoutIdExactly(ts: seq<Task>, id: Id)
    ensures forall t :: t in WithoutId(ts, id) <==> t in ts && t.id != id
    ensures forall t: Task :: t.id != id ==> multiset(WithoutId(ts, id))[t] == multiset(ts)[t]
    ensures IsSubsequence(WithoutId(ts, id), ts)
    ensures FreshId(WithoutId(ts, id), id)
  {
    FilterIsSubsequence(ts, IdIsNot(id));
  }

  /** Removing an id that no task carries changes nothing. */
  lemma WithoutFreshId(ts: seq<Task>, id: Id)
    requires FreshId(ts, id)
    ensures WithoutId(ts, id) == ts
  {
    FilterKeepsAll(ts, IdIsNot(id));
  }

  /** The optimistic prepend followed by the revert restores the list, element by element and
      in order, when the new task's id was fresh. */
  lemma PrependThenRevert(ts: seq<Task>, t: Task)
    requires FreshId(ts, t.id)
    ensures WithoutId([t] + ts, t.id) == ts
  {
    assert ([t] + ts)[1..] == ts;
    WithoutFreshId(ts, t.id);
  }

  /** The optimistic update keeps the length and the id at every position; tasks with another
      id are untouched and tasks with this id take the patch. */
  lemma MergeByIdShape(ts: seq<Task>, id: Id, c: Changes)
    ensures IdsOf(MergeById(ts, id, c)) == IdsOf(ts)
    ensures forall k :: 0 <= k < |ts| && ts[k].id != id ==> MergeById(ts, id, c)[k] == ts[k]
    ensures forall k :: 0 <= k < |ts| && ts[k].id == id ==> MergeById(ts, id, c)[k] == Merge(ts[k], c)
  {
  }

  /** Updating an id that no task carries changes nothing. */
  lemma MergeByFreshId(ts: seq<Task>, id: Id, c: Changes)
    requires FreshId(ts, id)
    ensures MergeById(ts, id, c) == ts
  {
    assert forall k :: 0 <= k < |ts| ==> ts[k] in ts;
  }

  /** Two successive optimistic updates of one id equal one update with the combined patch. */
  lemma MergeByIdOverlay(ts: seq<Task>, id: Id, c1: Changes, c2: Changes)
    ensures MergeById(MergeById(ts, id, c1), id, c2) == MergeById(ts, id, Overlay(c1, c2))
  {
    forall k | 0 <= k < |ts|
      ensures MergeById(MergeById(ts, id, c1), id, c2)[k] == MergeById(ts, id, Overlay(c1, c2))[k]
    {
      MergeOverlay(ts[k], c1, c2);
    }
  }

  /** Every task of a list is in it, so its id is among the list's ids. */
  lemma IdOfMember(ts: seq<Task>, t: Task)
    requires t in ts
    ensures t.id in IdsOf(ts)
  {
    var k :| 0 <= k < |ts| && ts[k] == t;
    assert IdsOf(ts)[k] == t.id;
  }

  /** `tasks` is `before` with the tasks whose id is in `done` marked completed: the state
      while "Mark all done" works through the ids of the active tasks. */
  predicate CompletedFor(before: seq<Task>, tasks: seq<Task>, done: seq<Id>) {
    |tasks| == |before| &&
    forall k :: 0 <= k < |before| ==>
      tasks[k] == if before[k].id in done then before[k].(completed := true) else before[k]
  }

  /** One more `updateTask(ids[i], { completed: true })` extends the ids already done to
      `ids[..i + 1]`. */
  lemma CompletedForStep(before: seq<Task>, tasks: seq<Task>, ids: seq<Id>, i: nat)
    requires i < |ids| && CompletedFor(before, tasks, ids[..i])
    ensures CompletedFor(before, MergeById(tasks, ids[i], CompletedChange(true)), ids[..i + 1])
  {
    var next := MergeById(tasks, ids[i], CompletedChange(true));
    assert ids[..i + 1] == ids[..i] + [ids[i]];
    forall k | 0 <= k < |before|
      ensures next[k] == if before[k].id in ids[..i + 1] then before[k].(completed := true) else before[k]
    {
      assert tasks[k].id == before[k].id;
    }
  }

  /** Once every active task's id is done, the whole list is completed. */
  lemma CompletedForActive(before: seq<Task>, tasks: seq<Task>)
    requires CompletedFor(before, tasks, IdsOf(ActiveTasks(before)))
    ensures tasks == CompleteAll(before)
  {
    forall k | 0 <= k < |before|
      ensures tasks[k] == CompleteAll(before)[k]
    {
      if !before[k].completed {
        IdOfMember(ActiveTasks(before), before[k]);
      }
    }
  }

  /** After marking everything done, every task is completed; length, order and all other
      fields are kept. */
  lemma CompleteAllShape(ts: seq<Task>)
    ensures forall t :: t in CompleteAll(ts) ==> t.completed
    ensures IdsOf(CompleteAll(ts)) == IdsOf(ts)
    ensures forall k :: 0 <= k < |ts| ==> CompleteAll(ts)[k] == Merge(ts[k], CompletedChange(true))
  {
  }
}
