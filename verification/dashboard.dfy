/** The dashboard's task-list state and the handlers that overwrite it: an optimistic write,
    the remote call, then a rollback or a refetch. Every remote answer is a parameter, and
    each handler runs to completion before the next one starts. */
module DashboardState {
  import opened TaskModel
  import opened Seqs
  import opened TaskList

  /** What the `select` of all task rows returned. */
  datatype FetchResult = Fetched(data: seq<Task>) | FetchError(message: string)

  /** The two state variables the handlers write: `tasks` and `loading`. */
  datatype ListState = ListState(tasks: seq<Task>, loading: bool)

  /** `fetchTasks`: on success the rows replace the list and loading ends; on error the
      state stays as it was. */
  function AfterFetch(s: ListState, r: FetchResult): (e: ListState)
    ensures r.Fetched? ==> e.tasks == r.data && !e.loading
    ensures r.FetchError? ==> e == s
  {
    match r
    case Fetched(data) => ListState(data, false)
    case FetchError(_) => s
  }

  /** Fetching twice with the same answer is fetching once: a refresh is idempotent. */
  lemma FetchTwice(s: ListState, r: FetchResult)
    ensures AfterFetch(AfterFetch(s, r), r) == AfterFetch(s, r)
  {
  }

  /** A successful fetch forgets the state it started from. */
  lemma FetchForgetsState(s1: ListState, s2: ListState, r: FetchResult)
    requires r.Fetched?
    ensures AfterFetch(s1, r) == AfterFetch(s2, r)
  {
  }

  /** The responses to a batch of updates, handled in order: each failed update refetches
      with the matching fetch result, each successful one leaves the state alone. */
  function Settled(s: ListState, oks: seq<bool>, fetches: seq<FetchResult>): (e: ListState)
    requires |oks| == |fetches|
    ensures e.loading ==> e == s
    decreases |oks|
  {
    if oks == [] then s
    else Settled(if oks[0] then s else AfterFetch(s, fetches[0]), oks[1..], fetches[1..])
  }

  /** When every update succeeds the optimistic state is kept. */
  lemma {:induction false} SettledAllSucceeded(s: ListState, oks: seq<bool>, fetches: seq<FetchResult>)
    requires |oks| == |fetches|
    requires forall j :: 0 <= j < |oks| ==> oks[j]
    ensures Settled(s, oks, fetches) == s
    decreases |oks|
  {
    if oks != [] {
      SettledAllSucceeded(s, oks[1..], fetches[1..]);
    }
  }

  /** After the responses, the state is either the optimistic one or exactly what one of the
      refetches of a failed update returned. */
  lemma {:induction false} SettledOptimisticOrFetched(s: ListState, oks: seq<bool>, fetches: seq<FetchResult>)
    requires |oks| == |fetches|
    ensures var e := Settled(s, oks, fetches);
              e == s || exists j :: 0 <= j < |oks| && !oks[j] && fetches[j] == Fetched(e.tasks) && !e.loading
    decreases |oks|
  {
    if oks != [] {
      var s' := if oks[0] then s else AfterFetch(s, fetches[0]);
      SettledOptimisticOrFetched(s', oks[1..], fetches[1..]);
      var e := Settled(s, oks, fetches);
      if e != s' {
        var j :| 0 <= j < |oks[1..]| && !oks[1..][j] && fetches[1..][j] == Fetched(e.tasks) && !e.loading;
        assert !oks[j + 1] && fetches[j + 1] == Fetched(e.tasks);
      } else if e != s {
        assert !oks[0] && fetches[0] == Fetched(e.tasks) && !e.loading;
      }
    }
  }

  /** The `Dashboard` component's task state, for the signed-in user `userId`. */
  class Dashboard {
    const userId: Id
    var tasks: seq<Task>
    var loading: bool

    function State(): ListState
      reads this
    {
      ListState(tasks, loading)
    }

    /** `useState([])` and `useState(true)`: no tasks yet, and loading. */
    constructor (userId: Id)
      ensures this.userId == userId && tasks == [] && loading
    {
      this.userId := userId;
      tasks := [];
      loading := true;
    }

    /** `fetchTasks`, run on mount, on every realtime change event and by "Refresh". */
    method FetchTasks(r: FetchResult)
      modifies this
      ensures r.Fetched? ==> tasks == r.data && !loading
      ensures r.FetchError? ==> tasks == old(tasks) && loading == old(loading)
    {
      match r
      case Fetched(data) =>
        tasks := data;
        loading := false;
      case FetchError(_) =>
    }

    /** `addTask(payload)`, with `id` the generated uuid and `inserted` whether the insert
        succeeded. `shown` is the list while the insert is pending. */
    method AddTask(payload: Payload, id: Id, inserted: bool) returns (ghost shown: seq<Task>)
      modifies this
      ensures shown == [NewTask(id, userId, payload)] + old(tasks) && |shown| == |old(tasks)| + 1
      ensures loading == old(loading)
      ensures inserted ==> tasks == shown
      ensures !inserted ==> tasks == WithoutId(shown, id)
      ensures !inserted && FreshId(old(tasks), id) ==> tasks == old(tasks)
    {
      var newTask := NewTask(id, userId, payload);
      tasks := [newTask] + tasks;
      shown := tasks;
      if !inserted {
        tasks := WithoutId(tasks, newTask.id);
        if FreshId(old(tasks), id) {
          PrependThenRevert(old(tasks), newTask);
        }
      }
    }

    /** `updateTask(id, changes)`, with `updated` whether the remote update succeeded and
        `refetch` what the refetch after a failure returns. */
    method UpdateTask(id: Id, changes: Changes, updated: bool, refetch: FetchResult)
      returns (ghost shown: seq<Task>)
      modifies this
      ensures shown == MergeById(old(tasks), id, changes)
      ensures updated ==> State() == ListState(shown, old(loading))
      ensures !updated ==> State() == AfterFetch(ListState(shown, old(loading)), refetch)
    {
      tasks := MergeById(tasks, id, changes);
      shown := tasks;
      if !updated {
        FetchTasks(refetch);
      }
    }

    /** `deleteTask(id)`, with `confirmed` the answer to the confirmation dialog, `deleted`
        whether the remote delete succeeded and `refetch` what the refetch after a failure
        returns. */
    method DeleteTask(id: Id, confirmed: bool, deleted: bool, refetch: FetchResult)
      returns (ghost shown: seq<Task>)
      modifies this
      ensures !confirmed ==> shown == old(tasks) && State() == old(State())
      ensures confirmed ==> shown == WithoutId(old(tasks), id)
      ensures confirmed && deleted ==> State() == ListState(shown, old(loading))
      ensures confirmed && !deleted ==> State() == AfterFetch(ListState(shown, old(loading)), refetch)
    {
      shown := tasks;
      if !confirmed {
        return;
      }
      tasks := WithoutId(tasks, id);
      shown := tasks;
      if !deleted {
        FetchTasks(refetch);
      }
    }

    /** "Mark all done": `updateTask(t.id, { completed: true })` for every active task.
        The optimistic writes of all the calls happen first; then the responses are handled
        in list order, `updated[j]` and `refetches[j]` answering the call for the j-th
        active task. Afterwards every task of `shown` is completed. */
    method MarkAllDone(updated: seq<bool>, refetches: seq<FetchResult>) returns (ghost shown: seq<Task>)
      requires |updated| == |refetches| == |ActiveTasks(tasks)|
      modifies this
      ensures shown == CompleteAll(old(tasks))
      ensures State() == Settled(ListState(shown, old(loading)), updated, refetches)
    {
      CompleteActive();
      shown := tasks;
      SettleResponses(updated, refetches);
    }

    /** The optimistic writes of "Mark all done", one active task's id after another. */
    method CompleteActive()
      modifies this
      ensures tasks == CompleteAll(old(tasks)) && loading == old(loading)
    {
      ghost var before := tasks;
      var ids := IdsOf(ActiveTasks(tasks));
      var i := 0;
      while i < |ids|
        invariant 0 <= i <= |ids| && loading == old(loading)
        invariant CompletedFor(before, tasks, ids[..i])
      {
        CompletedForStep(before, tasks, ids, i);
        tasks := MergeById(tasks, ids[i], CompletedChange(true));
        i := i + 1;
      }
      assert ids[..i] == ids;
      CompletedForActive(before, tasks);
    }

    /** The responses of a batch of updates, handled in order: a failed update refetches. */
    method SettleResponses(updated: seq<bool>, refetches: seq<FetchResult>)
      requires |updated| == |refetches|
      modifies this
      ensures State() == Settled(old(State()), updated, refetches)
    {
      var j := 0;
      while j < |updated|
        invariant 0 <= j <= |updated|
        invariant Settled(State(), updated[j..], refetches[j..]) == Settled(old(State()), updated, refetches)
      {
        if !updated[j] {
          FetchTasks(refetches[j]);
        }
        j := j + 1;
      }
    }

    /** The editor's save callback: an update of the edited task with the form's payload, or
        the creation of a new task. The remote outcome parameters are those of the handler
        that runs. */
    method Save(editing: Option<Task>, payload: Payload, id: Id, ok: bool, refetch: FetchResult)
      returns (ghost shown: seq<Task>)
      modifies this
      ensures editing.Some? ==> shown == MergeById(old(tasks), editing.value.id, AsChanges(payload))
      ensures editing.Some? && !ok ==> State() == AfterFetch(ListState(shown, old(loading)), refetch)
      ensures editing.None? ==> shown == [NewTask(id, userId, payload)] + old(tasks)
      ensures editing.None? && !ok ==> tasks == WithoutId(shown, id) && loading == old(loading)
      ensures ok ==> State() == ListState(shown, old(loading))
    {
      if editing.Some? {
        shown := UpdateTask(editing.value.id, AsChanges(payload), ok, refetch);
      } else {
        shown := AddTask(payload, id, ok);
      }
    }
  }
}
