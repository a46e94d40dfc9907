/** The records the dashboard keeps: a task row, the shallow patch an update applies to it,
    and the form payload the task editor hands to its save callback. */
module TaskModel {

  /** A value that may be missing: a JavaScript property that is absent, `null` or `undefined`. */
  datatype Option<T> = None | Some(value: T) {
    /** The value when present, otherwise `d`. For a string field with `d == ""` this is
        JavaScript's `x || ''`; with another `d` it is not, since `||` also replaces `''`. */
    function GetOr(d: T): T {
      match this
      case Some(v) => v
      case None => d
    }

    /** The value when present, otherwise `other`: the winner of one key in a spread. */
    function OrElse(other: Option<T>): Option<T> {
      if this.Some? then this else other
    }
  }

  /** Task and user identifiers (uuid strings). */
  type Id = string

  /** One row of the `tasks` table as the dashboard holds it. A row built locally by
      `addTask` has no `priority` and no `deadline`; a row read back may have either. */
  datatype Task = Task(
    id: Id,
    user_id: Id,
    title: string,
    description: Option<string>,
    completed: bool,
    priority: Option<string>,
    deadline: Option<string>)

  /** The `changes` object passed to `updateTask`: `Some` marks a key that is present. */
  datatype Changes = Changes(
    title: Option<string>,
    description: Option<string>,
    completed: Option<bool>,
    priority: Option<string>,
    deadline: Option<string>)

  /** What the task editor submits: `{ title, description, priority, deadline }`. */
  datatype Payload = Payload(title: string, description: Option<string>, priority: string, deadline: string)

  const NoChanges := Changes(None, None, None, None, None)

  /** `{ completed: done }`, the patch of the checkbox and of "Mark all done". */
  function CompletedChange(done: bool): Changes {
    NoChanges.(completed := Some(done))
  }

  /** The editor's payload used as an update patch: every key of the form is present.
      A `None` description becomes an absent key, which keeps the task's description; in
      JavaScript a key present with value `undefined` would overwrite it instead. The editor
      always submits a description, so that case does not arise from `Editor.Submit`. */
  function AsChanges(p: Payload): Changes {
    Changes(Some(p.title), p.description, None, Some(p.priority), Some(p.deadline))
  }

  /** `{ ...t, ...c }`: every key present in `c` wins, every other field of `t` is kept. */
  function Merge(t: Task, c: Changes): (r: Task)
    ensures r.id == t.id && r.user_id == t.user_id
    ensures c.title.Some? ==> r.title == c.title.value
    ensures c.title.None? ==> r.title == t.title
    ensures c.description.Some? ==> r.description == c.description
    ensures c.description.None? ==> r.description == t.description
    ensures c.completed.Some? ==> r.completed == c.completed.value
    ensures c.completed.None? ==> r.completed == t.completed
    ensures c.priority.Some? ==> r.priority == c.priority
    ensures c.priority.None? ==> r.priority == t.priority
    ensures c.deadline.Some? ==> r.deadline == c.deadline
    ensures c.deadline.None? ==> r.deadline == t.deadline
  {
    Task(t.id, t.user_id,
         c.title.GetOr(t.title),
         c.description.OrElse(t.description),
         c.completed.GetOr(t.completed),
         c.priority.OrElse(t.priority),
         c.deadline.OrElse(t.deadline))
  }

  /** `{ ...c1, ...c2 }`: two patches combined, the later one winning on shared keys. */
  function Overlay(c1: Changes, c2: Changes): Changes {
    Changes(
      c2.title.OrElse(c1.title),
      c2.description.OrElse(c1.description),
      c2.completed.OrElse(c1.completed),
      c2.priority.OrElse(c1.priority),
      c2.deadline.OrElse(c1.deadline))
  }

  /** The empty patch leaves a task as it was. */
  lemma MergeNothing(t: Task)
    ensures Merge(t, NoChanges) == t
  {
  }

  /** Applying the same patch twice is the same as applying it once. */
  lemma MergeIdempotent(t: Task, c: Changes)
    ensures Merge(Merge(t, c), c) == Merge(t, c)
  {
  }

  /** Two successive spreads equal one spread of the combined patch. */
  lemma MergeOverlay(t: Task, c1: Changes, c2: Changes)
    ensures Merge(Merge(t, c1), c2) == Merge(t, Overlay(c1, c2))
  {
  }

  /** The object `addTask` builds from a payload, with `id` standing for `uuidv4()`. Only
      the title and the description (defaulting to `''`) are copied; priority and deadline
      from the payload are dropped, and the task starts not completed. */
  function NewTask(id: Id, userId: Id, p: Payload): (r: Task)
    ensures r.id == id && r.user_id == userId && r.title == p.title
    ensures r.description == Some(p.description.GetOr(""))
    ensures !r.completed && r.priority == None && r.deadline == None
  {
    Task(id, userId, p.title, Some(p.description.GetOr("")), false, None, None)
  }

  predicate IsDone(t: Task) {
    t.completed
  }

  predicate IsActive(t: Task) {
    !t.completed
  }
}
