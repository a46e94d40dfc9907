/** The task editor form: the values it opens with and the payload it submits. */
module Editor {
  import opened TaskModel
  import opened Text

  /** The four text fields of the form. */
  datatype Form = Form(title: string, description: string, priority: string, deadline: string)

  /** `x || d` for a field that may be missing: an empty string also falls back to `d`. */
  function OrDefault(x: Option<string>, d: string): string {
    if x.Some? && x.value != "" then x.value else d
  }

  /** The form's initial state: the edited task's fields, or empty fields and priority
      `'medium'` for a new task. A missing description or deadline opens as `''`, a missing
      or empty priority as `'medium'`. */
  function Open(task: Option<Task>): (f: Form)
    ensures task.None? ==> f == Form("", "", "medium", "")
    ensures task.Some? ==> f.title == task.value.title
    ensures task.Some? ==> f.description == task.value.description.GetOr("")
    ensures task.Some? ==> f.deadline == task.value.deadline.GetOr("")
    ensures task.Some? && task.value.priority.Some? && task.value.priority.value != "" ==>
              f.priority == task.value.priority.value
    ensures task.Some? && (task.value.priority.None? || task.value.priority.value == "") ==>
              f.priority == "medium"
    ensures f.priority != ""
  {
    match task
    case None => Form("", "", "medium", "")
    case Some(t) =>
      Form(OrDefault(Some(t.title), ""), OrDefault(t.description, ""),
           OrDefault(t.priority, "medium"), OrDefault(t.deadline, ""))
  }

  /** Submitting: a title that is empty after trimming is refused and nothing is saved;
      otherwise title and description are trimmed and priority and deadline passed on. */
  function Submit(f: Form): (r: Option<Payload>)
    ensures r.None? <==> IsBlank(f.title)
    ensures r.Some? ==> r.value.title != "" && IsTrimmed(r.value.title)
    ensures r.Some? ==> r.value.description.Some? && IsTrimmed(r.value.description.value)
    ensures r.Some? ==> r.value.title == Trim(f.title) && r.value.description == Some(Trim(f.description))
    ensures r.Some? ==> r.value.priority == f.priority && r.value.deadline == f.deadline
  {
    var title := Trim(f.title);
    if title == "" then None
    else Some(Payload(title, Some(Trim(f.description)), f.priority, f.deadline))
  }

  /** A new task cannot be saved from the untouched form: its title is empty. */
  lemma NewFormRefused()
    ensures Submit(Open(None)) == None
  {
  }

  /** Opening a task whose fields are all set fills the form with them unchanged. */
  lemma OpenSetFields(t: Task)
    requires t.title != "" && t.priority.Some? && t.priority.value != ""
    requires t.description.Some? && t.deadline.Some?
    ensures Open(Some(t)) == Form(t.title, t.description.value, t.priority.value, t.deadline.value)
  {
  }

  /** Submitting a form whose title and description are already trimmed passes them on as
      they are. */
  lemma SubmitTrimmed(f: Form)
    requires f.title != "" && IsTrimmed(f.title) && IsTrimmed(f.description)
    ensures Submit(f) == Some(Payload(f.title, Some(f.description), f.priority, f.deadline))
  {
    TrimOfTrimmed(f.title);
    TrimOfTrimmed(f.description);
  }

  /** Opening a task whose fields are all set and already trimmed, and saving without
      editing, gives a patch that leaves the task as it was. */
  lemma SaveUneditedKeepsTask(t: Task)
    requires t.title != "" && IsTrimmed(t.title)
    requires t.description.Some? && IsTrimmed(t.description.value)
    requires t.priority.Some? && t.priority.value != ""
    requires t.deadline.Some?
    ensures Submit(Open(Some(t))).Some?
    ensures Merge(t, AsChanges(Submit(Open(Some(t))).value)) == t
  {
    OpenSetFields(t);
    SubmitTrimmed(Open(Some(t)));
  }
}
