# Task store of the Retro Todo frontend, in Dafny

This project models the client-side core of a small React to-do application:

- the `useTasks` hook, a store over `{tasks, loading, error}` with the
  operations load, add, edit (rename) and toggle, whose update policy is
  confirm-then-apply: the cached tasks change only after the server call
  succeeds;
- the edit-in-place state machine of `TaskItem` (`isEditing`, `editValue`);
- the submit guard of `TaskInput` (`value`).

Every network call is replaced by an abstract outcome `Ok(value) | Err(message)`
(`Wrappers.Outcome`). Each store operation is split at its call into a begin
step (blank-title guard, clearing the error, raising `loading`, and the request
issued, if any) and a complete step that applies the outcome to the store as it
is when the call completes, the way the functional updater `prevTasks => ...`
does. The whole operation with nothing interleaved (`TaskStore.Add` and so on)
is the complete step applied to the begin step's state. The components are pure
steps `(state, event) -> (state', callback fired or none)`.

"Blank" is `Text.IsBlank`: every character belongs to the fixed set that
JavaScript's `String.prototype.trim` removes (the ECMAScript WhiteSpace and
LineTerminator characters). `Text.Trim` models `trim` itself, and
`Text.BlankIffTrimEmpty` proves that `s.trim()` is empty exactly for blank `s`.

Modules: `Wrappers` (Option, Outcome), `Text` (whitespace, trim),
`Tasks` (Task, by-id replacement, id uniqueness), `TaskStore`,
`TaskItem`, `TaskInput`.

Two behaviours of the code are worth stating:

- The error is cleared when an operation begins, not when its call succeeds.
  A success therefore ends with no error only when nothing else failed while
  the call was in flight (`TaskStore.AddComplete` keeps whatever error the
  store holds at completion; `TaskStore.Add` ends with none).
- Rename and toggle replace EVERY task carrying the id, and replace nothing
  when no task carries it (`TaskStore.ReconcileMissingIdKeepsTasks`). "Exactly
  one task changes" holds when ids are unique (`Tasks.ReplaceUniqueIsPointUpdate`).

## Model

| member | source | states |
|---|---|---|
| Text.TrimStart | todo_frontend/src/hooks/useTasks.js:41 | the result is a suffix of the input, everything dropped is whitespace, and it does not start with whitespace |
| Text.TrimEnd | todo_frontend/src/hooks/useTasks.js:41 | the result is a prefix of the input, everything dropped is whitespace, and it does not end with whitespace |
| Text.Trim | todo_frontend/src/hooks/useTasks.js:41 | the result is the infix of the input left once its leading and trailing whitespace is removed, and it neither starts nor ends with whitespace |
| Text.BlankIffTrimEmpty | todo_frontend/src/hooks/useTasks.js:41 | `s.trim()` is empty (falsy) exactly when every character of `s` is whitespace, in both directions |
| Tasks.ReplaceById | todo_frontend/src/hooks/useTasks.js:62-64 | length is kept; every element with the target id becomes the server's task; every other element stays in place |
| Tasks.ReplaceMissingIsIdentity | todo_frontend/src/hooks/useTasks.js:62-64 | an id no element carries leaves the list unchanged |
| Tasks.ReplaceUniqueIsPointUpdate | todo_frontend/src/hooks/useTasks.js:78-80 | with unique ids, the replacement changes exactly the one position holding the id, to the server's task |
| Tasks.ReplaceKeepsUniqueIds | todo_frontend/src/hooks/useTasks.js:78-80 | replacing with a task that keeps its id keeps ids unique |
| Tasks.AppendFreshKeepsUniqueIds | todo_frontend/src/hooks/useTasks.js:46 | appending a task with a new id keeps ids unique |
| Tasks.ReplaceTwiceLastWins | todo_frontend/src/hooks/useTasks.js:62-64 | two answers for the same id: the one applied last is what the list holds |
| Tasks.ReplaceDistinctCommute | todo_frontend/src/hooks/useTasks.js:78-80 | answers for two different ids give the same list in either completion order |
| TaskStore.Initial | todo_frontend/src/hooks/useTasks.js:14-16 | the mounted store has no tasks, is not loading and has no error |
| TaskStore.LoadBegin | todo_frontend/src/hooks/useTasks.js:19-21 | a load raises `loading`, clears the error, keeps the tasks and always issues the list request |
| TaskStore.LoadComplete | todo_frontend/src/hooks/useTasks.js:22-29 | success replaces the tasks wholesale; failure keeps them and records the message; either way `loading` ends false |
| TaskStore.Load | todo_frontend/src/hooks/useTasks.js:19-30 | a whole load: success gives the returned list and no error, failure keeps the tasks with the message as error; `loading` ends false |
| TaskStore.AddBegin | todo_frontend/src/hooks/useTasks.js:40-43 | a blank title issues no request and changes nothing (not even the error); otherwise the error is cleared and the create request carries the title |
| TaskStore.AddComplete | todo_frontend/src/hooks/useTasks.js:44-49 | success appends the server's task after the current tasks (one longer, old tasks as prefix); failure keeps the tasks and records the message; `loading` untouched |
| TaskStore.Add | todo_frontend/src/hooks/useTasks.js:40-50 | a whole add: blank title is a no-op; success appends the server's task and ends with no error; failure keeps the tasks with the message as error; `loading` untouched |
| TaskStore.EditBegin | todo_frontend/src/hooks/useTasks.js:56-59 | a blank title issues no request and changes nothing; otherwise the error is cleared and the update request carries id and title |
| TaskStore.ReconcileById | todo_frontend/src/hooks/useTasks.js:60-67 | success replaces every current task with the id by the server's task and keeps the others in place; failure keeps the tasks and records the message; `loading` untouched |
| TaskStore.Edit | todo_frontend/src/hooks/useTasks.js:56-68 | a whole rename: blank title is a no-op; success replaces the matching tasks and ends with no error; failure keeps the tasks with the message as error |
| TaskStore.ToggleBegin | todo_frontend/src/hooks/useTasks.js:74-75 | a toggle has no guard: it always clears the error and issues the toggle request |
| TaskStore.Toggle | todo_frontend/src/hooks/useTasks.js:74-84 | a whole toggle: success replaces the matching tasks and ends with no error; failure keeps the tasks with the message as error; `loading` untouched |
| TaskStore.ReconcileMissingIdKeepsTasks | todo_frontend/src/hooks/useTasks.js:62-64 | a successful rename or toggle for an id the store does not hold changes no task |
| TaskStore.LastCompletionWins | todo_frontend/src/hooks/useTasks.js:60-64 | with two successful calls for the same id in flight, the store ends exactly as if only the call that completes last had completed |
| TaskStore.FailureDoesNotUndoSuccess | todo_frontend/src/hooks/useTasks.js:60-67 | with one successful and one failing call for the same id in flight, either completion order applies the server's answer and leaves the failure's message as the error |
| TaskStore.AddKeepsUniqueIds | todo_frontend/src/hooks/useTasks.js:40-50 | an add keeps the cached ids unique when the server assigns a new id |
| TaskStore.EditKeepsUniqueIds | todo_frontend/src/hooks/useTasks.js:56-68 | a rename keeps the cached ids unique when the server answers with the requested id |
| TaskStore.ToggleKeepsUniqueIds | todo_frontend/src/hooks/useTasks.js:74-84 | a toggle keeps the cached ids unique when the server answers with the requested id |
| TaskStore.Apply | todo_frontend/src/hooks/useTasks.js:19-84 | only a load touches `loading`; an operation stopped by its guard changes nothing; a successful call ends with no error; a failed one keeps the tasks and records the message |
| TaskStore.ApplyShowsOnlyConfirmed | todo_frontend/src/hooks/useTasks.js:19-84 | after any operation every cached task was cached before or was answered by the server in this call |
| TaskStore.RunShowsOnlyConfirmed | todo_frontend/src/hooks/useTasks.js:19-84 | from the mounted store, every task shown after any sequence of operations is a value the server returned |
| TaskStore.RunNeverLeavesLoading | todo_frontend/src/hooks/useTasks.js:15-29 | after any sequence of whole operations from mount, `loading` is false |
| TaskStore.RunWithoutLoadKeepsLoading | todo_frontend/src/hooks/useTasks.js:40-84 | any number of adds, renames and toggles leave `loading` as they find it |
| TaskStore.LoadingHeldWhileLoadInFlight | todo_frontend/src/hooks/useTasks.js:19-29 | with one load in flight and other operations completing meanwhile, `loading` stays raised until the load completes and is lowered by its completion |
| TaskItem.Mount | todo_frontend/src/components/TaskItem.js:15-16 | a mounted item is not editing and its field holds the title |
| TaskItem.HandleEdit | todo_frontend/src/components/TaskItem.js:18-21 | entering edit mode sets `isEditing` and resets the field to the current title, firing nothing |
| TaskItem.HandleSave | todo_frontend/src/components/TaskItem.js:23-28 | `onEdit(id, editValue)` with the untrimmed value fires exactly when the value is non-blank and differs from the title; edit mode always ends |
| TaskItem.HandleCancel | todo_frontend/src/components/TaskItem.js:30-33 | cancel fires nothing, restores the title and leaves edit mode |
| TaskItem.HandleKeyDown | todo_frontend/src/components/TaskItem.js:35-41 | Enter saves, Escape cancels, any other key keeps the state and fires nothing |
| TaskItem.ItemStep | todo_frontend/src/components/TaskItem.js:43-80 | the toggle button always fires `onToggle(id)` and keeps the state; the title and edit button act only outside edit mode, and typing, keys and losing focus only inside it; outside edit mode only `onToggle` can fire; any `onEdit` names the task and carries a non-blank, changed title |
| TaskItem.EmittedEditsAreGenuine | todo_frontend/src/components/TaskItem.js:24-25 | over any event sequence, every `onEdit` fired names the item's task with a non-blank title different from its own |
| TaskItem.EditThenSaveEmitsNothing | todo_frontend/src/components/TaskItem.js:18-25 | entering edit mode and saving without typing fires no `onEdit` |
| TaskItem.CancelThenSaveEmitsNothing | todo_frontend/src/components/TaskItem.js:23-41 | Escape in edit mode leaves it with the title restored and fires nothing; losing focus afterwards fires nothing, and neither does re-entering edit mode and leaving it without typing |
| TaskInput.HandleChange | todo_frontend/src/components/TaskInput.js:30 | a change sets the field to exactly the typed text and fires nothing |
| TaskInput.InputStep | todo_frontend/src/components/TaskInput.js:24-30 | the field's change event runs the change handler and the form's submit event runs the submit guard |
| TaskInput.HandleSubmit | todo_frontend/src/components/TaskInput.js:15-21 | `onAdd` fires exactly for a non-blank value, with the untrimmed value, and then the field is empty; a blank value fires nothing and stays |
| TaskInput.SubmitTwiceAddsAtMostOnce | todo_frontend/src/components/TaskInput.js:17-19 | two submits with no change in between fire `onAdd` at most once |
| TaskInput.AddedAreBoundedByChanges | todo_frontend/src/components/TaskInput.js:13-30 | over any event sequence, every added title is non-blank and there are no more of them than change events, plus one for a non-blank starting value |
| TaskInput.MountedAddsAtMostPerChange | todo_frontend/src/components/TaskInput.js:13-19 | from the empty mounted field, `onAdd` fires at most once per change event |

## Left out

- The HTTP client (`todo_frontend/src/api/todoApi.js`): fetch, base URL, headers, JSON and the `statusText` wording of errors. Each call is an abstract `Ok`/`Err` outcome; only "an error with the failure's message" versus "no error" is modelled.
- Task ids are a number or a string (`Tasks.TaskId`) compared structurally; JavaScript number quirks such as `NaN !== NaN` are not modelled.
- `App.js` and `TaskList.js`: rendering, styling, the loading/empty message selection, the retry button wiring and the completed-count footer are presentation only.
- React runtime behaviour: the `useEffect` load on mount, re-render scheduling, `useCallback` identity, and whether a blur event follows an Enter or Escape once the edit field unmounts.
- Concurrency: calls in flight are modelled only through the begin/complete split (`TaskStore.LastCompletionWins`); result delivery after unmount is not modelled.
- `loading` is a single boolean as in the source: with two loads in flight, the first to complete lowers it; no lemma is stated about overlapping loads.
