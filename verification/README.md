# Smart To-Do dashboard: a Dafny model of its task-list state

The Smart To-Do client keeps the signed-in user's tasks in the `Dashboard` component
(`todo_app/src/App.jsx`). Every change to the list is optimistic. The handler first
rewrites the local list. It then calls the hosted `tasks` table. On failure it rolls back
(create) or refetches the whole table (update, delete). The screen shows a view derived
from the list: a status filter, a case-insensitive search, descriptions cut to 80
characters, and the Total and Completed counts. The task editor trims its fields and
refuses a blank title.

This project models that state and those views and proves what they guarantee:

- `task_model.dfy` (`TaskModel`): a task row, an update patch whose optional fields stand
  for the keys present in the JavaScript object, and the editor payload. It also defines
  the shallow merge `{ ...t, ...changes }` and the row `addTask` builds.
- `seqs.dfy` (`Seqs`): `Array.prototype.filter` and the subsequence relation.
- `task_list.dfy` (`TaskList`): the list transforms passed to `setTasks`. These are the
  prepend, the remove-by-id filter, the merge-by-id map and the result of "Mark all done".
- `text.dfy` (`Text`): `toLowerCase`, `includes` and `trim`.
- `views.dfy` (`Views`): the `filtered` list, the shortened description and the counts.
- `editor.dfy` (`Editor`): the editor's initial fields and its submit rule.
- `dashboard.dfy` (`DashboardState`): the class `Dashboard`. Its fields are `tasks` and
  `loading`, and its methods are the handlers `fetchTasks`, `addTask`, `updateTask`,
  `deleteTask`, "Mark all done" and the editor's save callback.

Every answer from outside is a parameter of the handler that receives it. This covers the
generated uuid, the `confirm` answer, whether an insert, update or delete succeeded, and
what a `select` returned. Each handler's ghost out-parameter `shown` is the list displayed
while the remote call is pending.

Points where the code behaves in ways a reader might not expect, all modelled as written:
- A new task is put at the front of the list (`App.jsx:221`).
- A new task carries no priority and no deadline, even though the editor asks for both.
  Only title and description are copied (`App.jsx:213-219`).
- `updateTask` does not check that the id is present. With an unknown id it changes
  nothing locally (`App.jsx:231`).
- The list is an ordered array, and every removal and update goes by the `id` field.

## Model

| member | source | states |
|---|---|---|
| `Seqs.Filter` | todo_app/src/App.jsx:244-248 | `filter` keeps exactly the elements passing the test, with their multiplicity, and never grows the list |
| `Seqs.FilterIsSubsequence` | todo_app/src/App.jsx:244-248 | the result of `filter` is a subsequence of its input |
| `Seqs.SubsequenceTransitive` | todo_app/src/App.jsx:244-248 | chaining two filters still gives a subsequence of the original list |
| `Seqs.FilterKeepsAll` | todo_app/src/App.jsx:247 | a filter every element passes returns the list unchanged |
| `Seqs.FilterFullLength` | todo_app/src/App.jsx:377 | a filter that keeps as many elements as it got passed every element |
| `Seqs.FilterCongruent` | todo_app/src/App.jsx:248 | two tests that agree on every element filter the same way |
| `TaskModel.Merge` | todo_app/src/App.jsx:231 | each field present in the patch wins, every other field is kept, and id and user id never change |
| `TaskModel.MergeNothing` | todo_app/src/App.jsx:231 | the empty patch leaves a task unchanged |
| `TaskModel.MergeIdempotent` | todo_app/src/App.jsx:231 | applying one patch twice equals applying it once |
| `TaskModel.MergeOverlay` | todo_app/src/App.jsx:231 | two successive patches equal one patch made by spreading the second over the first |
| `TaskModel.NewTask` | todo_app/src/App.jsx:213-219 | the new task has the given id and user id and the payload's title; its description defaults to `''`; it is not completed and has no priority or deadline |
| `TaskList.WithoutId` | todo_app/src/App.jsx:226 | removal by id keeps exactly the tasks with another id and never grows the list; `WithoutIdExactly` adds multiplicity and order |
| `TaskList.MergeById` | todo_app/src/App.jsx:231 | the optimistic update keeps the length and the id at every position; `MergeByIdShape` states which positions take the patch |
| `TaskList.ActiveTasks` | todo_app/src/App.jsx:382 | the tasks "Mark all done" updates are exactly the open tasks of the list |
| `TaskList.CompleteAll` | todo_app/src/App.jsx:380-383 | the list after "Mark all done" has every task completed and the same ids in the same order; `CompletedForActive` proves the per-id updates produce it |
| `TaskList.WithoutIdExactly` | todo_app/src/App.jsx:239 | deleting keeps exactly the tasks with another id, with their multiplicity and order, and no task with that id is left |
| `TaskList.WithoutFreshId` | todo_app/src/App.jsx:226 | removing an id no task carries changes nothing |
| `TaskList.PrependThenRevert` | todo_app/src/App.jsx:221-226 | for a fresh id, the optimistic prepend followed by the revert gives back the original list, same elements in the same order |
| `TaskList.MergeByIdShape` | todo_app/src/App.jsx:231 | the optimistic update keeps length and the id at every position; tasks with another id are untouched, tasks with the id take the patch |
| `TaskList.MergeByFreshId` | todo_app/src/App.jsx:231 | updating an id no task carries changes nothing |
| `TaskList.MergeByIdOverlay` | todo_app/src/App.jsx:231 | two optimistic updates of one id equal one update with the combined patch |
| `TaskList.IdOfMember` | todo_app/src/App.jsx:382 | every active task's id is among the ids "Mark all done" updates |
| `TaskList.CompletedForStep` | todo_app/src/App.jsx:382 | one more `{ completed: true }` update by id marks every task with that id completed and leaves the rest as they were |
| `TaskList.CompletedForActive` | todo_app/src/App.jsx:380-383 | once the updates of all active tasks' ids are applied, the list is the old list with every task completed |
| `TaskList.CompleteAllShape` | todo_app/src/App.jsx:380-383 | after "Mark all done" every task is completed; ids, order and every other field are kept; each task is the `{ completed: true }` merge of the old one |
| `Text.LowerChar` | todo_app/src/App.jsx:248 | no upper-case ASCII letter survives case folding, and only such letters change, to their lower-case partner |
| `Text.Lower` | todo_app/src/App.jsx:248 | lowercasing keeps the length and folds each character |
| `Text.LowerIdempotent` | todo_app/src/App.jsx:248 | lowercasing twice equals lowercasing once |
| `Text.ContainsIffOccurs` | todo_app/src/App.jsx:248 | `includes` holds exactly when the needle occurs at some position of the haystack |
| `Text.Contains` | todo_app/src/App.jsx:248 | `includes` of the empty string always holds, and a found needle is no longer than the haystack; `ContainsIffOccurs` gives the full meaning |
| `Text.TrimStart` | todo_app/src/App.jsx:416 | the result is a suffix of the input that starts with non-white space, and only white space was removed |
| `Text.TrimEnd` | todo_app/src/App.jsx:416 | the result is a prefix of the input that ends with non-white space, and only white space was removed |
| `Text.Trim` | todo_app/src/App.jsx:416-420 | `trim` returns a slice of the input with white space only on both sides and none at its own ends; it is empty exactly when the input is all white space |
| `Text.TrimOfTrimmed` | todo_app/src/App.jsx:419-420 | a string without surrounding white space is its own trim |
| `Text.TrimIdempotent` | todo_app/src/App.jsx:419-420 | trimming twice equals trimming once |
| `Views.Filtered` | todo_app/src/App.jsx:244-248 | a task is shown exactly when it is in the list and passes both the status filter and the search, as many times as the list holds it; the shown list is never longer |
| `Views.FilteredKeepsOrder` | todo_app/src/App.jsx:244-248 | the shown list is a subsequence of the task list |
| `Views.FilteredStatus` | todo_app/src/App.jsx:245-246 | under `'active'` every shown task is open; under `'completed'` every shown task is done |
| `Views.MatchesStatus` | todo_app/src/App.jsx:245-247 | a task passes the status test unless the filter is `'active'` and the task is done, or `'completed'` and the task is open |
| `Views.MatchesSearch` | todo_app/src/App.jsx:248 | a task passes the search exactly when the lowercased query occurs in its lowercased title or in its lowercased description, a missing description counting as `''` |
| `Views.EmptyQueryKeepsStatusMatches` | todo_app/src/App.jsx:248 | an empty query keeps every task the status filter keeps |
| `Views.NoFilterShowsAll` | todo_app/src/App.jsx:247 | any filter value other than `'active'` and `'completed'`, with an empty query, shows the whole list as it is |
| `Views.SearchIgnoresQueryCase` | todo_app/src/App.jsx:248 | lowercasing the query does not change what is shown |
| `Views.ShortDescription` | todo_app/src/App.jsx:288-291 | a description over 80 characters is shown as its first 80 and `"..."`, 83 in all; a shorter one is shown as it is |
| `Views.ShortDescriptionUnchangedIff` | todo_app/src/App.jsx:288-291 | the shown text equals the description exactly when it has at most 80 characters, or has 83 and already ends in `"..."` |
| `Views.CompletedCount` | todo_app/src/App.jsx:376-377 | the Completed figure never exceeds the Total |
| `Views.AllCompletedIff` | todo_app/src/App.jsx:376-377 | Completed equals Total exactly when every task is completed |
| `Views.CompleteAllCounts` | todo_app/src/App.jsx:376-383 | after "Mark all done" has applied its updates, Completed equals Total |
| `Editor.Open` | todo_app/src/App.jsx:408-411 | a new task's form is empty with priority `'medium'`; an edited task opens with its title, its description and deadline or `''` when missing, and its priority or `'medium'` when missing or empty |
| `Editor.Submit` | todo_app/src/App.jsx:414-423 | submitting is refused exactly when the title is blank; otherwise the payload's title and description are the trims of the form's fields (so the title is non-empty and neither has surrounding white space), and priority and deadline are passed on |
| `Editor.NewFormRefused` | todo_app/src/App.jsx:408-416 | the untouched new-task form cannot be saved |
| `Editor.OpenSetFields` | todo_app/src/App.jsx:408-411 | a task whose fields are all set opens with exactly those values |
| `Editor.SubmitTrimmed` | todo_app/src/App.jsx:416-423 | already trimmed fields are submitted unchanged |
| `Editor.SaveUneditedKeepsTask` | todo_app/src/App.jsx:393-423 | saving an opened task without editing it leaves the task unchanged, when its fields are set and already trimmed |
| `DashboardState.AfterFetch` | todo_app/src/App.jsx:203-208 | a successful fetch makes the list exactly the fetched rows and ends loading; an error changes nothing |
| `DashboardState.FetchTwice` | todo_app/src/App.jsx:196-209 | fetching twice with the same answer equals fetching once |
| `DashboardState.FetchForgetsState` | todo_app/src/App.jsx:203-208 | after a successful fetch the state no longer depends on what it was before |
| `DashboardState.Settled` | todo_app/src/App.jsx:233 | once the responses of a batch are handled, loading can still be on only if the state is the optimistic one; `SettledAllSucceeded` and `SettledOptimisticOrFetched` say more |
| `DashboardState.SettledAllSucceeded` | todo_app/src/App.jsx:380-383 | when every update of a batch succeeds, the optimistic state is kept |
| `DashboardState.SettledOptimisticOrFetched` | todo_app/src/App.jsx:233 | after the responses, the state is either the optimistic one or exactly the list one refetch returned after a failed update, with loading off |
| `DashboardState.Dashboard.constructor` | todo_app/src/App.jsx:165-168 | the dashboard starts with no tasks and loading |
| `DashboardState.Dashboard.FetchTasks` | todo_app/src/App.jsx:196-209 | on success the list becomes exactly the fetched rows and loading ends; on error neither changes |
| `DashboardState.Dashboard.AddTask` | todo_app/src/App.jsx:212-228 | the new task is put first and the list grows by one; a successful insert keeps it; a failed one removes every task with its id, which for a fresh id restores the old list; loading is untouched |
| `DashboardState.Dashboard.UpdateTask` | todo_app/src/App.jsx:230-234 | the list is the merge-by-id of the patch; a failed update ends in the refetch |
| `DashboardState.Dashboard.DeleteTask` | todo_app/src/App.jsx:236-242 | without confirmation nothing changes; with it the tasks with that id are removed, and a failed delete ends in the refetch |
| `DashboardState.Dashboard.MarkAllDone` | todo_app/src/App.jsx:380-383 | the optimistic writes turn the list into the same list with every task completed; the responses then settle in order, each failure refetching |
| `DashboardState.Dashboard.CompleteActive` | todo_app/src/App.jsx:382 | applying `{ completed: true }` by id to every active task, one after another, gives the old list with every task completed and leaves loading alone |
| `DashboardState.Dashboard.SettleResponses` | todo_app/src/App.jsx:233 | handling a batch of responses in order, each failure refetching, ends in the state `Settled` describes |
| `DashboardState.Dashboard.Save` | todo_app/src/App.jsx:393-400 | saving from an edited task updates it with the form's payload; saving from a new form adds a task |

## Left out

- Sign-in, sign-up, magic link, sign-out and the session in `App` and `AuthCard` are not modelled. They copy what the identity service returns into component state.
- The realtime channel is not modelled. Its callback only calls `fetchTasks`, so a change event is `Dashboard.FetchTasks` with the fetched result. Removing the channel on unmount is not modelled either.
- The remote table is not modelled. The rows sent by insert and update, including the `updated_at` stamp, are not represented; only the success or failure of each call is.
- `uuidv4()` and `confirm()` are parameters. The clock and the locale formatting of dates are left out, and so are the `inserted_at` and `updated_at` columns.
- Rendering is not modelled: the priority colours, the checkbox and strike-through, the "Read More" toggle map `showFull`, scrolling and `console` logging.
- Overlapping handlers are not modelled. Each handler runs to completion. A refetch racing a realtime refetch is not modelled.
- `Dashboard.MarkAllDone`: the responses to the concurrent updates are settled in list order only. Other arrival orders are not modelled.
- `Text.LowerChar`: folds ASCII letters only. JavaScript's `toLowerCase` also folds other scripts.
- `Text.Lower`: inherits the ASCII-only folding of `Text.LowerChar`.
- `Views.ShortDescription`: counts characters as Unicode scalar values. JavaScript's `length` and `slice` count UTF-16 code units.
- A row whose description is `null` would make the truncation at line 289 throw. The model's description preview takes a present description only.
- `TaskModel.Changes` has no `id` or `user_id` keys. No caller passes a patch with them.
