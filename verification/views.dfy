/** What the dashboard derives from its task list when it renders: the filtered and
    searched list, the shortened description of each row, and the overview counts. */
module Views {
  import opened TaskModel
  import opened Seqs
  import opened Text
  import opened TaskList

  /** The status buttons: `'active'` keeps open tasks, `'completed'` keeps done ones,
      and any other value of the filter keeps every task. */
  function MatchesStatus(filter: string, t: Task): (b: bool)
    ensures b <==> (filter == "active" ==> !t.completed) && (filter == "completed" ==> t.completed)
  {
    if filter == "active" then !t.completed
    else if filter == "completed" then t.completed
    else true
  }

  /** `t.description || ''`. */
  function DescriptionOrEmpty(t: Task): string {
    t.description.GetOr("")
  }

  /** The search box: a task passes exactly when the lowercased query is a substring of its
      lowercased title or of its lowercased description (a missing one counting as empty). */
  function MatchesSearch(query: string, t: Task): (b: bool)
    ensures b <==> (exists i :: OccursAt(Lower(t.title), Lower(query), i))
                   || (exists i :: OccursAt(Lower(DescriptionOrEmpty(t)), Lower(query), i))
  {
    ContainsIffOccurs(Lower(t.title), Lower(query));
    ContainsIffOccurs(Lower(DescriptionOrEmpty(t)), Lower(query));
    Contains(Lower(t.title), Lower(query)) || Contains(Lower(DescriptionOrEmpty(t)), Lower(query))
  }

  function StatusTest(filter: string): Task -> bool {
    (t: Task) => MatchesStatus(filter, t)
  }

  function SearchTest(query: string): Task -> bool {
    (t: Task) => MatchesSearch(query, t)
  }

  /** The list the dashboard shows: the status filter, then the search filter. */
  function Filtered(ts: seq<Task>, filter: string, query: string): (r: seq<Task>)
    ensures |r| <= |ts|
    ensures forall t :: t in r <==> t in ts && MatchesStatus(filter, t) && MatchesSearch(query, t)
    ensures forall t :: multiset(r)[t] ==
              if MatchesStatus(filter, t) && MatchesSearch(query, t) then multiset(ts)[t] else 0
  {
    Filter(Filter(ts, StatusTest(filter)), SearchTest(query))
  }

  /** The shown list is a subsequence of the task list: nothing reordered, nothing invented. */
  lemma FilteredKeepsOrder(ts: seq<Task>, filter: string, query: string)
    ensures IsSubsequence(Filtered(ts, filter, query), ts)
  {
    var byStatus := Filter(ts, StatusTest(filter));
    FilterIsSubsequence(ts, StatusTest(filter));
    FilterIsSubsequence(byStatus, SearchTest(query));
    SubsequenceTransitive(Filtered(ts, filter, query), byStatus, ts);
  }

  /** Under "Active" only open tasks are shown, under "Done" only completed ones. */
  lemma FilteredStatus(ts: seq<Task>, filter: string, query: string)
    ensures filter == "active" ==> forall t :: t in Filtered(ts, filter, query) ==> !t.completed
    ensures filter == "completed" ==> forall t :: t in Filtered(ts, filter, query) ==> t.completed
  {
  }

  /** An empty search keeps every task the status filter keeps. */
  lemma EmptyQueryKeepsStatusMatches(ts: seq<Task>, filter: string)
    ensures Filtered(ts, filter, "") == Filter(ts, StatusTest(filter))
  {
    var byStatus := Filter(ts, StatusTest(filter));
    forall t | t in byStatus
      ensures SearchTest("")(t)
    {
      assert Lower("") == "";
    }
    FilterKeepsAll(byStatus, SearchTest(""));
  }

  /** With neither a status filter nor a query the whole list is shown, as it is. */
  lemma NoFilterShowsAll(ts: seq<Task>, filter: string)
    requires filter != "active" && filter != "completed"
    ensures Filtered(ts, filter, "") == ts
  {
    EmptyQueryKeepsStatusMatches(ts, filter);
    FilterKeepsAll(ts, StatusTest(filter));
  }

  /** The search ignores the case of the query. */
  lemma SearchIgnoresQueryCase(ts: seq<Task>, filter: string, query: string)
    ensures Filtered(ts, filter, Lower(query)) == Filtered(ts, filter, query)
  {
    LowerIdempotent(query);
    FilterCongruent(Filter(ts, StatusTest(filter)), SearchTest(Lower(query)), SearchTest(query));
  }

  /** The longest description shown without "Read More". */
  const PreviewLength := 80

  function Min(a: int, b: int): int {
    if a < b then a else b
  }

  /** The shortened description of a row: the first 80 characters and `"..."` when the
      description is longer, otherwise the description itself. */
  function ShortDescription(d: string): (r: string)
    ensures |r| == if |d| > PreviewLength then PreviewLength + 3 else |d|
    ensures r[..Min(|d|, PreviewLength)] == d[..Min(|d|, PreviewLength)]
    ensures |d| > PreviewLength ==> r[PreviewLength..] == "..."
  {
    if |d| > PreviewLength then d[..PreviewLength] + "..." else d
  }

  /** The short form equals the description exactly when the description fits in 80
      characters, or is 83 long and already ends in `"..."`. */
  lemma ShortDescriptionUnchangedIff(d: string)
    ensures ShortDescription(d) == d <==>
              |d| <= PreviewLength || (|d| == PreviewLength + 3 && d[PreviewLength..] == "...")
  {
    if |d| == PreviewLength + 3 && d[PreviewLength..] == "..." {
      assert d == d[..PreviewLength] + d[PreviewLength..];
    }
  }

  /** The "Completed" figure of the overview. */
  function CompletedCount(ts: seq<Task>): (n: nat)
    ensures n <= |ts|
  {
    |Filter(ts, IsDone)|
  }

  /** The "Completed" figure reaches the "Total" exactly when every task is completed. */
  lemma AllCompletedIff(ts: seq<Task>)
    ensures CompletedCount(ts) == |ts| <==> forall t :: t in ts ==> t.completed
  {
    if CompletedCount(ts) == |ts| {
      FilterFullLength(ts, IsDone);
    }
    if forall t :: t in ts ==> t.completed {
      FilterKeepsAll(ts, IsDone);
    }
  }

  /** After "Mark all done" has applied its updates, Completed equals Total. */
  lemma CompleteAllCounts(ts: seq<Task>)
    ensures CompletedCount(CompleteAll(ts)) == |ts|
  {
    CompleteAllShape(ts);
    AllCompletedIff(CompleteAll(ts));
  }
}
