# Task page of the todo web client, modelled in Dafny

The client's home page (`frontend/src/app/page.tsx`) checks the session,
shows the user's task list, and lets the user create, toggle and delete
tasks against a remote task store. The model keeps the page's state and
handlers and drops the HTTP calls. Each remote call becomes an outcome
argument given to the step that runs after it.

- `Wrappers.dfy`: `Option` (TypeScript's `T | null`) and `Remote<T>`, the outcome of one remote call (`Ok(value)` or `Failed`).
- `JsString.dfy`: JavaScript's `String.prototype.trim` over the ECMAScript WhiteSpace and LineTerminator code points, and string truthiness. The submit handler's blank-title guard rests on these.
- `TodoList.dfy`: the `Todo` record and the three pure list updaters the handlers pass to `setTodos`: prepend (create), a `map` that writes a completion flag onto the records with a given identifier (toggle and its rollback), and a `filter` (delete). The lemmas about them live here too.
- `HomePage.dfy`: the class `TaskView`. Its fields are the component's state (`user`, `todos`, `loading`, `error`, `title`, `description`, `submitting`), the stored access token, and the routes pushed to the router. It has one method per handler. A handler that awaits a call is split at the await: `BeginSubmit`/`FinishSubmit` and `BeginToggle`/`SettleToggle`. So the state while the call is in flight can be stated, for example the optimistically flipped list that is ahead of the server. `HandleSubmit` and `ToggleComplete` then chain the two halves with nothing in between. At the end of the file, three client methods replay the page's scenarios: a toggle the server refuses, "Buy milk" created on an empty page, and a rejected session probe.

Where the code and its prose description differ, the model follows the code:

- The comment at line 101 says the new task "appears from bottom". The code puts it at the front of the list (`[res.data, ...prev]`), and the list is drawn above the form.
- The title is only trimmed for the blank check. The request carries it as typed.
- A failed toggle writes back the flag handed in by the checkbox. It does not restore the record's own earlier value. The two agree when the handler is called from a row's checkbox and identifiers are unique (`ClickCheckbox`, `FlagOfUniqueRecord`). `RollbackRestores` says exactly when the original list comes back.
- Submission clears an earlier error when it starts. Load, toggle and delete never clear the error on success.
- The handler itself does not refuse a second submit while one is in flight. Only the disabled button does that (line 272). So `BeginSubmit` does not require `!submitting`.

## Model

| member | source | states |
|---|---|---|
| `JsString.TrimStart` | frontend/src/app/page.tsx:85 | the result is a suffix of the input, everything cut off is whitespace, and the result does not start with whitespace |
| `JsString.TrimEnd` | frontend/src/app/page.tsx:85 | the result is a prefix of the input, everything cut off is whitespace, and the result does not end with whitespace |
| `JsString.Trim` | frontend/src/app/page.tsx:85 | the trimmed title is the contiguous block of the title after its leading whitespace, with only whitespace before and after it, and begins and ends with a non-whitespace character unless it is empty |
| `JsString.TrimFalsyIffBlank` | frontend/src/app/page.tsx:85 | `!title.trim()` holds exactly when every character of the title is whitespace (both directions) |
| `HomePage.NewTodoRequest` | frontend/src/app/page.tsx:93 | the create request carries the title untrimmed; the description is present exactly when it is non-empty, and then verbatim |
| `TodoList.Prepend` | frontend/src/app/page.tsx:102 | the created record is first, the old records follow in their order, length grows by one, and the multiset grows by exactly that record |
| `TodoList.SetCompleted` | frontend/src/app/page.tsx:115-119 | length is kept; each record with the given id has its flag set to the given value and every other field kept; all other records are unchanged |
| `TodoList.SetCompletedWrites` | frontend/src/app/page.tsx:115-119 | after a toggle step every matching record carries the written flag and no identifier changed |
| `TodoList.SetCompletedKeepsUniqueIds` | frontend/src/app/page.tsx:115-119 | a toggle step keeps identifiers unique |
| `TodoList.SetCompletedAbsent` | frontend/src/app/page.tsx:115-119 | toggling an id that no record has leaves the list equal to the original |
| `TodoList.SetCompletedLastWins` | frontend/src/app/page.tsx:113-139 | rollback after the optimistic step equals writing the captured flag once (the last write wins) |
| `TodoList.RollbackRestores` | frontend/src/app/page.tsx:113-139 | optimistic flip then rollback gives back the original list if and only if every matching record carried the captured flag |
| `TodoList.FlagOfUniqueRecord` | frontend/src/app/page.tsx:216 | with unique ids, the flag a row's checkbox hands to the handler is the flag of every record with that id |
| `TodoList.RemoveId` | frontend/src/app/page.tsx:150 | no record with the id remains; a record is in the result if and only if it was in the list with a different id; length does not grow |
| `TodoList.RemoveIdIsSubsequence` | frontend/src/app/page.tsx:150 | the surviving records keep their relative order (a subsequence of the old list) |
| `TodoList.RemoveIdAppend` | frontend/src/app/page.tsx:150 | the filter distributes over concatenation |
| `TodoList.RemoveIdCount` | frontend/src/app/page.tsx:150 | exactly the matching records are removed: the new length is the old length minus their number |
| `TodoList.RemoveIdAbsent` | frontend/src/app/page.tsx:150 | deleting an id that is not on the page leaves the list unchanged |
| `TodoList.RemoveIdIdempotent` | frontend/src/app/page.tsx:150 | deleting twice is the same as deleting once |
| `TodoList.RollbackAfterDelete` | frontend/src/app/page.tsx:134-150 | a rollback that settles after the record was deleted changes nothing |
| `TodoList.DeleteAfterToggle` | frontend/src/app/page.tsx:115-150 | deleting a record after it was toggled gives the same list as deleting it alone |
| `TodoList.RemoveOtherAfterCreate` | frontend/src/app/page.tsx:102-150 | a created record survives the deletion of any other id, at the front |
| `HomePage.TaskView.constructor` | frontend/src/app/page.tsx:32-39 | a fresh page has no user, no tasks, is loading, has no error, empty fields, is not submitting and has not navigated |
| `HomePage.TaskView.CheckAuth` | frontend/src/app/page.tsx:46-67 | probe success sets the session user (`SessionUser`, the placeholder record of lines 54-59 stamped with the clock reading) and starts a load; probe failure pushes "/signin", leaves the user unset and starts no load; `loading` ends false either way; nothing else changes |
| `HomePage.TaskView.FetchTodos` | frontend/src/app/page.tsx:70-81 | success replaces the list verbatim in server order and keeps the error; failure keeps the list and sets "Failed to load todos" |
| `HomePage.TaskView.EditTitle` | frontend/src/app/page.tsx:257 | the title field holds the typed text |
| `HomePage.TaskView.EditDescription` | frontend/src/app/page.tsx:264 | the description field holds the typed text |
| `HomePage.TaskView.BeginSubmit` | frontend/src/app/page.tsx:83-93 | no request is built if and only if the title is blank, and then `submitting` and `error` are unchanged; otherwise `submitting` is true, `error` is cleared and the request is built from the fields |
| `HomePage.TaskView.FinishSubmit` | frontend/src/app/page.tsx:90-110 | success prepends the created record and empties both fields; failure keeps list and fields and sets "Failed to create todo"; `submitting` is false after either |
| `HomePage.TaskView.HandleSubmit` | frontend/src/app/page.tsx:83-111 | blank title: nothing changes; success: one record more, in front, old records as they were, fields emptied, error cleared; failure: list and fields kept and "Failed to create todo" set; `submitting` false afterwards |
| `HomePage.TaskView.BeginToggle` | frontend/src/app/page.tsx:113-125 | the optimistic list has the negated captured flag on the matching records; the flag sent is that negation |
| `HomePage.TaskView.SettleToggle` | frontend/src/app/page.tsx:121-140 | confirmation leaves list and error as they are; failure writes the captured flag back onto the matching records and sets "Failed to update todo" |
| `HomePage.TaskView.ToggleComplete` | frontend/src/app/page.tsx:113-141 | confirmed: the flipped list stands; failed: matching records carry the captured flag, the error is set, and the list equals the original if and only if the captured flag was theirs |
| `HomePage.TaskView.ClickCheckbox` | frontend/src/app/page.tsx:213-217 | a confirmed click writes the negation of that row's flag onto the records with its id and keeps the error; a failed one writes the row's rendered flag back onto them, sets "Failed to update todo" and, with unique ids, gives back the list exactly |
| `HomePage.TaskView.DeleteTodo` | frontend/src/app/page.tsx:143-154 | only a confirmed delete changes the list, removing every record with the id; a failed one keeps the list and sets "Failed to delete todo" |
| `HomePage.TaskView.Logout` | frontend/src/app/page.tsx:156-159 | the stored token is cleared and "/signin" is pushed; nothing else changes |

## Left out

- HTTP: the axios calls, URL building from `API_BASE` (lines 25-26) and the `Authorization` header. Each call is an outcome argument. Whether the server accepts the stored token is part of that outcome.
- Local storage holds one value here, the optional `access_token`, in `TaskView.token`. Reading it for each request header is part of the HTTP layer.
- React machinery: `useState`, `useEffect` running `checkAuth` on mount (lines 42-44), `e.preventDefault()`, and the router, which is reduced to the list of pushed routes.
- Rendering (lines 161-297): the loading screen, the empty page when there is no user, the list markup, the form, and the animation. The checkbox handler (`ClickCheckbox`) and the text-field handlers (`EditTitle`, `EditDescription`) are the only pieces of the markup kept.
- Concurrency: requests in flight at the same time, such as two toggles of one record before either settles. The split steps can be called in any order, and `RollbackAfterDelete` and `DeleteAfterToggle` cover two such orders. But the model keeps no record of which requests are pending.
- The load started by `CheckAuth` is not awaited in the source and settles after `loading` is false. The model returns `loadStarted`, and the caller then hands the load's outcome to `FetchTodos`.
- Server-assigned data: the timestamps are uninterpreted strings. The `new Date().toISOString()` reading in `checkAuth` is the `now` argument. The server's payload is taken to be a list of well-formed records, which the source never checks.
- Identifiers are unbounded integers, not JavaScript double-precision numbers.
- Characters are Unicode scalar values, not UTF-16 code units. Every character `trim` removes lies in the Basic Multilingual Plane, so well-formed strings trim the same way. Lone surrogates are not modelled.
- The landing components (`HeroSection.tsx`, `HowItWorks.tsx`, `CallToAction.tsx`) are static markup and links with no behaviour, so they are not part of this model.
