# Todo list controller, modelled in Dafny

This project models the state handling of a React todo-list client that keeps
its list in sync with a remote todo service. Three components hold the logic:

- `App` (`src/App.tsx`) owns the list of todos, the chosen filter, the error
  banner, the placeholder of a todo being created, the list of ids with a
  request in flight (`processedId`) and the "all completed" flag. Its handlers
  update, toggle, add and delete todos.
- `TodoUser` (`src/components/TodoUser/TodoUser.tsx`) is one row. It keeps its
  own editing state and decides, when an edit is committed, whether to delete
  the todo, update its title or just close the editor.
- `TodoHeader` (`src/components/TodoHeader/TodoHeader.tsx`) is the new-todo
  form. It validates the title, shows an id-0 placeholder while the create
  request is out, and appends the server's todo when the request succeeds.

The model, one module per part:

- `Wrappers` (`wrappers.dfy`): `Option`, and `Outcome` (`Success(result)` or
  `Failure`), which says how a remote call settled.
- `Model` (`model.dfy`): the `Todo` record, the filter, the error messages, and
  the four requests the client sends (`Fetch`, `Post`, `Patch`, `Delete`).
- `Text` (`text.dfy`): JavaScript's `String.prototype.trim`, with the
  ECMAScript white-space and line-terminator characters written out. Its
  contract pins `trim` down completely (`TrimCharacterization`).
- `TodoLists` (`todo_lists.dfy`): the array operations the handlers apply, as
  functions with JavaScript's semantics. These are `findIndex`,
  `splice(index, 1, item)` (a negative start counts from the end), `filter` and
  `every`, plus the list updates built from them.
- `App` (`app.dfy`): class `Controller`, holding the `App` state slots as
  fields. Each handler that awaits the service becomes two methods. A start
  method returns the request it issues. A settle method takes the call's
  `Outcome`.
- `TodoUser` (`todo_user.dfy`): the commit decision as a function, the busy
  predicate the row computes from `processedId`, and class `Item` with the
  row's `isEditing`, `editedTitle` and `isLoading` and the loader flag. Its
  methods call into the `Controller` as the row's callbacks do.
- `TodoHeader` (`todo_header.dfy`): the submit validation as a function, and
  class `Header` with the form's `title` and `isSubmitting`.
- `Scenarios` (`scenarios.dfy`): client methods that drive these classes
  through whole runs, stated for arbitrary todos. Renaming a todo to blank
  text empties a one-item list. Adding to an empty list leaves only the
  server's todo. The Completed view of a mixed list holds only the completed
  todo. One settle clears the busy mark of another request. Toggling a
  missing id sends nothing. An update for a missing id overwrites the last
  todo.

The model keeps these quirks of the code as they are:

- When an update or toggle settles for an id that is no longer in the list,
  `findIndex` gives -1. `splice(-1, 1, todo)` then overwrites the last todo,
  or inserts the todo into an empty list (`ReplaceById`).
- `handleCompletedStatus` marks the id busy even when no todo has it. It then
  sends nothing (`ToggleStart`).
- Every settle, success or failure, empties the whole busy list, not just its
  own id (`UpdateSettled`, `ToggleSettled`, `DeleteSettled`).
- `deleteTodo` catches its own failure, so the promise the row awaits always
  resolves. The row's catch branch for a delete therefore cannot run, and
  committing an empty title always closes the editor (`Item.DeleteSettled`).
- An update sends the whole todo (the row's todo with the new title, or the
  found todo with `completed` negated), not only the changed field.
- A failed `handleUpdateTodo` re-raises its error. The row catches it, puts
  the original title back in the field and leaves the editor open.
- `isActive` is written only by the effect React runs after every change of
  `todos` (`ActiveEffect`). The settle methods change `todos` and leave
  `isActive` alone; a client runs `ActiveEffect` after them, as the Completed
  view scenario does.
- `App` renders only the `UserWarning` screen when no user is configured
  (`USER_ID` is 0), so no row or form exists to start a request.
  `UpdateStart`, `ToggleStart`, `DeleteStart`, `Item.CommitStart` and
  `SubmitStart` therefore require a configured user. `LoadStart` checks for
  the user itself and fetches nothing without one.

## Model

| member | source | states |
|---|---|---|
| `Text.Trim` | src/components/TodoUser/TodoUser.tsx:39 | the trimmed text is empty exactly when the input is all white space, and otherwise starts and ends with a character that is not white space |
| `Text.TrimCharacterization` | src/components/TodoHeader/TodoHeader.tsx:40 | any split of the text into white space, a core that neither starts nor ends with white space, and white space trims to that core, so `trim` is fully determined |
| `Text.TrimIdempotent` | src/components/TodoUser/TodoUser.tsx:39 | trimming an already trimmed title changes nothing |
| `TodoLists.FindIndex` | src/App.tsx:51 | -1 exactly when no todo has the id; otherwise the position of the first todo with that id |
| `TodoLists.SpliceOne` | src/App.tsx:53 | `splice(i, 1, item)` replaces position `i` and keeps all others when `i` is in range, replaces the last element for -1, and yields `[item]` on an empty list |
| `TodoLists.ReplaceById` | src/App.tsx:49-56 | when the id is present, the length is kept, the first todo with that id becomes the server's todo and every other position is unchanged; with the id missing, the last todo is overwritten, or the todo is inserted into an empty list; nothing but the server's todo enters the list |
| `TodoLists.Filter` | src/App.tsx:122-124 | the result holds exactly the elements of the list that pass the predicate and is no longer than the list |
| `TodoLists.FilterAppend` | src/App.tsx:119-128 | filtering commutes with concatenation, so the kept elements stay in their relative order |
| `TodoLists.FilterKeepsAll` | src/App.tsx:122-124 | a filter that every element passes returns the list unchanged |
| `TodoLists.FilterIdempotent` | src/App.tsx:122-124 | filtering a filtered list again by the same predicate changes nothing |
| `TodoLists.FilterSplit` | src/App.tsx:122-124 | a predicate and its negation together keep as many elements as the list has |
| `TodoLists.RemoveById` | src/App.tsx:107 | after a successful delete, a todo is in the list exactly when it was before and its id is not the deleted one, and the list is no longer than before |
| `TodoLists.RemoveAbsentId` | src/App.tsx:104-108 | deleting an id that no todo has leaves the list exactly as it was |
| `TodoLists.RemoveByIdAppend` | src/App.tsx:107 | removal by id commutes with concatenation, so the survivors keep their relative order |
| `TodoLists.View` | src/App.tsx:119-128 | the Active view holds exactly the todos with `completed == false`, the Completed view exactly those with `completed == true`, and the All view is the list itself |
| `TodoLists.ViewsPartition` | src/App.tsx:119-128 | the Active and Completed views together hold as many todos as the list |
| `TodoLists.ViewAppend` | src/App.tsx:119-128 | every view commutes with concatenation, so it keeps the order of the list |
| `TodoLists.AllCompleted` | src/App.tsx:24 | `every(t => t.completed)` holds exactly when every todo is completed, and so holds for the empty list |
| `TodoLists.AllCompletedIffNoneActive` | src/App.tsx:23-27 | every todo is completed exactly when the Active view is empty |
| `App.Controller.constructor` | src/App.tsx:15-21 | the initial state: no todos, filter All, no error, no placeholder, nothing busy, `isActive` true |
| `App.Controller.FilteredTodos` | src/App.tsx:119-128 | the view shows only todos from the list and never changes the list |
| `App.Controller.ActiveEffect` | src/App.tsx:23-27 | `isActive` becomes true exactly when every todo is completed |
| `App.Controller.SetFilter` | src/App.tsx:16 | the chosen filter is stored |
| `App.Controller.LoadStart` | src/App.tsx:29-36 | with no user configured nothing is fetched and nothing changes; otherwise the banner is cleared and the list is fetched |
| `App.Controller.LoadSettled` | src/App.tsx:35-41 | a successful fetch replaces the list; a failed one keeps it and shows the load error |
| `App.Controller.UpdateStart` | src/App.tsx:44-47 | with a user configured (without one `App` renders only `UserWarning`, src/App.tsx:130-132), the id is appended to the busy list and the whole todo is sent as a patch for its id |
| `App.Controller.UpdateSettled` | src/App.tsx:47-63 | on success the server's todo replaces the todo with that id (`ReplaceById`); on failure the list is kept, 'Unable to update a todo' is shown and the error is re-raised; the busy list is emptied in both cases; a list without id-0 todos keeps that property when the server's todo has a real id |
| `App.Controller.ToggleStart` | src/App.tsx:66-78 | with a user configured, the id is appended to the busy list even when missing; when a todo has the id, the first such todo is sent with only `completed` negated; otherwise nothing is sent |
| `App.Controller.ToggleSettled` | src/App.tsx:79-93 | on success the server's todo replaces the todo with that id; on failure the list is kept and the update error shown, with nothing re-raised; the busy list is emptied in both cases |
| `App.Controller.AddTodo` | src/App.tsx:97-99 | the todo is appended at the end and every earlier todo is unchanged |
| `App.Controller.DeleteStart` | src/App.tsx:101-105 | with a user configured, the id is appended to the busy list and a delete for it is sent |
| `App.Controller.DeleteSettled` | src/App.tsx:104-116 | the returned promise never rejects; on success exactly the todos with that id are removed; on failure the list is kept and the delete error shown; the busy list is emptied in both cases |
| `TodoUser.CommitDecision` | src/components/TodoUser/TodoUser.tsx:37-63 | when not editing, nothing happens; an all-white-space title requests only a delete of this id; a trimmed title that differs requests an update with the same id, userId and completed and the trimmed, non-empty title; an equal trimmed title just closes the editor |
| `TodoUser.ReopenAfterUpdateCloses` | src/components/TodoUser/TodoUser.tsx:51-62 | once the list holds the updated todo, committing its title again issues no request |
| `TodoUser.PaddedTitleCloses` | src/components/TodoUser/TodoUser.tsx:39-62 | when the current title is trimmed and non-empty, a title that differs from it only by surrounding white space issues no request |
| `TodoUser.Busy` | src/components/TodoUser/TodoUser.tsx:27 | the id-0 placeholder is always busy, and a busy real id implies some request is in flight |
| `TodoUser.BusyIffPending` | src/components/TodoUser/TodoUser.tsx:27 | a row is busy exactly when its id is 0 or at least one request for its id is in flight (`Pending` counts them) |
| `TodoUser.BusyAcrossRequests` | src/components/TodoUser/TodoUser.tsx:27 | a started request makes its id busy and adds exactly one to its pending count; once a settle empties the list, only the placeholder id is busy |
| `TodoUser.Item.LoaderShown` | src/components/TodoUser/TodoUser.tsx:132-136 | the loader overlay is shown exactly when the row waits on its own request (`isLoading`), is the id-0 placeholder, or has at least one request for its id in flight (`Pending`) |
| `TodoUser.Item.constructor` | src/components/TodoUser/TodoUser.tsx:22-25 | a row starts not editing, not loading, with the todo's title in the field |
| `TodoUser.Item.ReceiveProps` | src/components/TodoUser/TodoUser.tsx:15-22 | the row, keyed by id, receives the todo the list now holds for its id |
| `TodoUser.Item.StartEditing` | src/components/TodoUser/TodoUser.tsx:113-116 | a double-click opens the editor with the current title |
| `TodoUser.Item.Edit` | src/components/TodoUser/TodoUser.tsx:101-102 | typing sets the edited title |
| `TodoUser.Item.Escape` | src/components/TodoUser/TodoUser.tsx:75-78 | Escape puts the current title back and closes the editor, with no request |
| `TodoUser.Item.CommitStart` | src/components/TodoUser/TodoUser.tsx:37-64 | with a user configured, the request issued is the one `CommitDecision` chooses; a delete or update shows the loader and marks the id busy, so the row is busy (`processedId` holds its id) and its loader shows; closing or ignoring issues nothing |
| `TodoUser.Item.DeleteSettled` | src/components/TodoUser/TodoUser.tsx:42-50 | since the delete never rejects, the editor closes and the loader hides, whether the delete succeeded or failed; a success leaves the error banner as it was, a failure shows the delete error |
| `TodoUser.Item.UpdateSettled` | src/components/TodoUser/TodoUser.tsx:52-60 | for the todo the row sent (same id as the row's todo, TodoUser.tsx:54), a success closes the editor and puts the server's todo in the list, leaving the error banner as it was; a failure puts the original title back and leaves the editor open with the list unchanged; the loader hides in both cases |
| `TodoHeader.SubmitDecision` | src/components/TodoHeader/TodoHeader.tsx:40-52 | an all-white-space title yields no placeholder; any other yields one with id 0, the configured user, `completed == false` and the trimmed, non-empty title |
| `TodoHeader.Header.constructor` | src/components/TodoHeader/TodoHeader.tsx:30-31 | the form starts empty and not submitting |
| `TodoHeader.Header.Type` | src/components/TodoHeader/TodoHeader.tsx:87-89 | typing sets the title; the field is disabled while submitting |
| `TodoHeader.Header.SubmitStart` | src/components/TodoHeader/TodoHeader.tsx:37-53 | with a user configured, an empty title only shows the empty-title error, with no placeholder, no post and `isSubmitting` still false; otherwise the form is marked submitting, the placeholder is shown and the trimmed title is posted; a submit needs the form not submitting, so at most one create is in flight |
| `TodoHeader.Header.SubmitSettled` | src/components/TodoHeader/TodoHeader.tsx:54-66 | on success the server's todo, not the placeholder, is appended and the field cleared; on failure the list and the typed text are kept and the add error is shown; afterwards there is no placeholder and the form is enabled; a list without id-0 todos keeps that property |

## Left out

- The remote service: `src/api/todos` (`getTodos`, `postTodos`, `patchTodo`, `deleteTodos`, `USER_ID`) is not part of this model. Its answers are the `Outcome` values passed to the settle methods, and `USER_ID` is the controller's `userId`, with 0 standing for a missing user.
- The text of the `ErrorMessages` members: `src/types/Error` is not part of this model, so the messages are the constructors of `ErrorMessage`.
- The 3000 ms timers that clear the error banner, and the banner's own close button: wall-clock timing and rendering. The model keeps `errorMessage` as a slot that each failure overwrites.
- Interleaving of promises: each settle is one atomic step. `handleCompletedStatus` looks the todo up in the list of the last render; the model reads the current list.
- The busy flag is advisory: nothing in the code or the model stops a second request for a busy id.
- Toggle-all: `TodoHeader` expects `handleToggleAll` and `isLoading` props that `App` never passes, and no toggle-all handler exists.
- `isSubmittingEnter` and its flipping after a create or delete: it only triggers a focus refresh.
- Rendering: `TodoList`, the `CSSTransition` rows, the placeholder row, class names, refs and focus effects, and the `UserWarning` screen shown without a user. The check-box and delete-button handlers only forward to `ToggleStart` and `DeleteStart`.
