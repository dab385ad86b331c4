# Todo frontend: session gate, list synchronisation and feedback, in Dafny

This project models the client-side logic of a small Next.js todo application.

The todos page holds six pieces of component state:

- the list of todos;
- the title input buffer, shared by creating a todo and editing a todo's title;
- the description input buffer;
- the id of the todo being edited, if any;
- whether the user is logged in;
- whether the list is still loading.

Its handlers are modelled as steps. Each step takes that state and the server's answer, and gives the new state plus the effects the handler causes, in order. An effect is one of three things:

- a request sent (verb, path, JSON body);
- a toast (success or error, with its text);
- a navigation (destination, with an immediate or delayed start).

The handlers are:

- the two activation effects: loading the list, and checking the session;
- typing into the inputs;
- add, delete, edit-click, save and logout.

The login and register pages are modelled too. Each has a form-record update and a submit handler that turns the server's answer into toasts and a delayed navigation.

The server's answer is an abstract `Response`: either `Threw` (the `fetch` or `res.json()` raised), or `Parsed(ok, message, success, todo, todos)`. Here `ok` is `res.ok`, the other fields are the fields of `data`, and `todos` is `None` when `data.todos` is not an array.

Layout:

- `text.dfy` (`Text`): JavaScript's `trim`, with the ECMAScript set of white-space and line-terminator characters.
- `todo_list.dfy` (`TodoList`): the `Todo` record and the three list updates (append, `filter`, `map`), with lemmas about them.
- `effects.dfy` (`Effects`): effects, responses and the toast prefixes.
- `todos_page.dfy` (`TodosPage`): `PageState`, one step function per handler, and the class `Page`. `Page` keeps the state in fields, and each of its methods is proved to follow its step function.
- `todos_trace.dfy` (`TodosTrace`): runs of the page as sequences of events, and two properties of every run. First, while the session check fails, no write request is ever sent. Second, every listed id was listed at the start or came from the server; from the first render, with its empty list, every listed id came from the server. The per-todo buttons and the logout button are offered exactly where the page renders them.
- `login_page.dfy` (`LoginPage`), `register_page.dfy` (`RegisterPage`): the form records, `handleChange` and `handleSubmit`.

The model keeps the code's behaviour where it is looser than a cleaned-up design would be:

- Create appends `data.todo` for any parsed answer, without checking `res.ok`.
- Delete and save always show a success toast with the server's message, even when `res.ok` is false.
- Save has no session gate.
- A list answer whose `todos` is not an array leaves the list as it was. It is not emptied.
- Nothing enforces that ids are unique, or that `editingId` names a listed todo. Delete does not clear `editingId`.

## Model

| member | source | states |
|---|---|---|
| `Text.TrimStart` | app/todos/page.tsx:89 | The result is the suffix of the input left after its leading white space: the dropped prefix is all white space, and the result is empty or starts with a non-white-space character. |
| `Text.TrimEnd` | app/todos/page.tsx:89 | The result is the prefix of the input left after its trailing white space: the dropped suffix is all white space, and the result is empty or ends with a non-white-space character. |
| `Text.Trim` | app/todos/page.tsx:89 | `trim()` is the middle of its input: a slice of it whose dropped prefix and dropped suffix are all white space, and which neither starts nor ends with white space. |
| `Text.TrimEmptyIffBlank` | app/todos/page.tsx:89 | `!s.trim()` holds exactly when every character of `s` is white space (both directions). |
| `TodoList.Appended` | app/todos/page.tsx:109 | The created todo goes last. The length grows by one, the earlier records are unchanged and in order, and the id set gains exactly that todo's id. |
| `TodoList.RemoveId` | app/todos/page.tsx:143 | A record is in the result exactly when it was in the list and its id differs from the deleted one. The result is never longer than the list. |
| `TodoList.RetitleId` | app/todos/page.tsx:184-186 | The length is kept, and every record keeps its id and description. Records with the saved id take the new title. All other records are unchanged. |
| `TodoList.RemoveIdConcat` | app/todos/page.tsx:143 | Filtering distributes over concatenation, so the kept records keep their relative order. |
| `TodoList.RemoveIdAbsent` | app/todos/page.tsx:143 | Deleting an id that is not listed leaves the list unchanged. |
| `TodoList.RemoveIdIds` | app/todos/page.tsx:143 | After a delete, the listed ids are the old ones minus the deleted id. |
| `TodoList.RetitleIdIds` | app/todos/page.tsx:184-186 | Saving a title neither adds nor removes an id. |
| `TodoList.RetitleIdAbsent` | app/todos/page.tsx:184-186 | Saving a title for an id that is not listed leaves the list unchanged. |
| `TodosPage.GateEffects` | app/todos/page.tsx:82-85 | The gate gives the error toast "Please login to <action> Todo.", then a navigation to `/login` after 1600 ms, and no request. |
| `TodosPage.CheckAuth` | app/todos/page.tsx:64-78 | Fail-closed: an exception means not logged in. A parsed answer means logged in exactly when `res.ok && data.success`. |
| `TodosPage.FetchTodosStep` | app/todos/page.tsx:36-53 | One GET of the list. `loading` stays true only if fetch or parse threw. The list is replaced exactly when `data.todos` is an array, and unchanged otherwise. Nothing else changes. |
| `TodosPage.VerifyAuthStep` | app/todos/page.tsx:57-61 | One GET of check-auth. `isLoggedIn` becomes true exactly when the answer parsed with `res.ok` and `data.success`. Nothing else changes. |
| `TodosPage.TitleTypedStep` | app/todos/page.tsx:261 | Typing replaces only the title buffer, with no effect. |
| `TodosPage.DescriptionTypedStep` | app/todos/page.tsx:267 | Typing replaces only the description buffer, with no effect. |
| `TodosPage.AddTodoStep` | app/todos/page.tsx:80-115 | See "Add todo" below the table. |
| `TodosPage.DeleteStep` | app/todos/page.tsx:117-148 | See "Delete" below the table. |
| `TodosPage.EditClickStep` | app/todos/page.tsx:150-163 | Logged out: the gate's effects ("edit"). Logged in: no effect, and `editingId` and the title buffer become the clicked id and its title, replacing any earlier edit target. The list, the description and the session are never changed. |
| `TodosPage.SaveStep` | app/todos/page.tsx:165-193 | See "Save" below the table. |
| `TodosPage.LogoutStep` | app/todos/page.tsx:195-215 | The state is never changed, `isLoggedIn` included. There is one GET of logout. `res.ok`: a success toast "✅ " + message, then an immediate navigation to `/login`. Not ok: an error toast "⚠️ " + message. Exception: an error toast "❌ Logout failed. Please try again.". |
| `TodosPage.FetchTodosIdempotent` | app/todos/page.tsx:44-45 | Loading twice with the same answer leaves the same state as loading once. |
| `TodosPage.Page.constructor` | app/todos/page.tsx:23-31 | The initial state: empty list and buffers, no edit target, logged out, loading. No effects yet. |
| `TodosPage.Page.FetchTodos` | app/todos/page.tsx:36-53 | The fields become `FetchTodosStep` of their old values, and its effects are appended to the log. |
| `TodosPage.Page.VerifyAuth` | app/todos/page.tsx:56-62 | The fields and the effect log follow `VerifyAuthStep`. |
| `TodosPage.Page.SetTitle` | app/todos/page.tsx:261 | The fields follow `TitleTypedStep`, and the log is unchanged. |
| `TodosPage.Page.SetDescription` | app/todos/page.tsx:267 | The fields follow `DescriptionTypedStep`, and the log is unchanged. |
| `TodosPage.Page.HandleAddTodo` | app/todos/page.tsx:80-115 | The fields and the effect log follow `AddTodoStep`. |
| `TodosPage.Page.PostTodo` | app/todos/page.tsx:93-114 | The create request carries the buffers as they were. If it throws, only the request is logged. On any parsed body, the body's todo is appended, both buffers are cleared, and the message is toasted. |
| `TodosPage.Page.HandleDelete` | app/todos/page.tsx:117-148 | The fields and the effect log follow `DeleteStep`. |
| `TodosPage.Page.HandleEditClick` | app/todos/page.tsx:150-163 | The fields and the effect log follow `EditClickStep`. |
| `TodosPage.Page.HandleSave` | app/todos/page.tsx:165-193 | The fields and the effect log follow `SaveStep`. |
| `TodosPage.Page.HandleLogout` | app/todos/page.tsx:195-215 | The fields and the effect log follow `LogoutStep`. |
| `TodosTrace.Enabled` | app/todos/page.tsx:225-333 | The controls the rendered page offers. Logout is offered exactly when logged in (line 225). Delete is offered exactly when loading is over and the todo is listed (lines 278-291). Save is offered exactly on the listed todo being edited. Edit is offered exactly on the other listed todos, carrying that todo's own title (lines 313-333). Typing and the activation effects are always possible. |
| `TodosTrace.LoggedOutRunSendsNoWrites` | app/todos/page.tsx:80-327 | Take any run of events the rendered page offers, in which the session check never answers "logged in". Started logged out with no edit target, the page stays logged out with no edit target, and no POST, PUT or DELETE is ever sent. |
| `TodosTrace.NoWritesWithoutSession` | app/todos/page.tsx:23-193 | From the first render, if the session check never succeeds, no create, update or delete request is ever sent. |
| `TodosTrace.IdsComeFromServer` | app/todos/page.tsx:35-193 | After any run, every listed id was listed at the start or came from a server answer (a created todo or a fetched list). The client never invents an id. |
| `TodosTrace.ListedIdsComeFromServer` | app/todos/page.tsx:23-193 | From the first render, whose list is empty, every id listed after any run came from a server answer. |
| `LoginPage.Changed` | app/login/page.tsx:14-16 | The named field takes the typed value, and the other field is unchanged. |
| `LoginPage.Submit` | app/login/page.tsx:18-42 | See "Login submit" below the table. |
| `LoginPage.ChangeThenSubmit` | app/login/page.tsx:14-27 | After typing into a field, the posted body carries the typed value in that field and the old value in the other. |
| `LoginPage.Page.constructor` | app/login/page.tsx:12 | The form starts with both fields empty. |
| `LoginPage.Page.HandleChange` | app/login/page.tsx:14-16 | `formData` becomes `Changed` of its old value. |
| `LoginPage.Page.HandleSubmit` | app/login/page.tsx:18-42 | The effects are those of `Submit` on the current `formData`. |
| `RegisterPage.Changed` | app/register/page.tsx:17-19 | The named field among the three takes the typed value, and the other two are unchanged. |
| `RegisterPage.Submit` | app/register/page.tsx:21-40 | See "Register submit" below the table. |
| `RegisterPage.Page.constructor` | app/register/page.tsx:11-15 | The form starts with all three fields empty. |
| `RegisterPage.Page.HandleChange` | app/register/page.tsx:17-19 | `formData` becomes `Changed` of its old value. |
| `RegisterPage.Page.HandleSubmit` | app/register/page.tsx:21-40 | The outcome is that of `Submit` on the current `formData`. |

**Add todo** (`TodosPage.AddTodoStep`):

- Logged out: the gate's effects ("add"), and no state change.
- Logged in, with a blank title or description: only the toast "All fields are required.". The session is checked before the fields.
- Otherwise a POST is sent, carrying the untrimmed buffers.
- If the POST or the parse throws, nothing else happens.
- Any parsed answer gives a success toast with the message. The answer's todo is appended, and both buffers are cleared. Nothing else changes.

**Delete** (`TodosPage.DeleteStep`):

- Logged out: the gate's effects ("delete").
- Logged in: a DELETE is sent.
- Any parsed answer gives a success toast with the message.
- On `res.ok` the records with that id are removed. Otherwise the list is unchanged.
- Only the list can change.

**Save** (`TodosPage.SaveStep`):

- There is no session gate: a PUT with the title buffer is always sent.
- If the PUT or the parse throws, the state is unchanged.
- Any parsed answer gives a success toast.
- Not `res.ok`: no state change.
- `res.ok`: the length, the ids and the descriptions are kept. Only the records with the saved id take the buffered title. The edit target is cleared and the title buffer emptied. The description buffer is kept.

**Login submit** (`LoginPage.Submit`):

- A POST to `/api/auth/login` is sent, with exactly the form's email and password.
- Then there is exactly one toast. It is a success exactly on `res.ok`.
- Its text is "✅ " + message when ok, "⚠️ " + message when not ok, and "❌ Login failed. Please try again." on an exception.
- Navigation happens only on `res.ok`: to `/todos`, after 2000 ms.

**Register submit** (`RegisterPage.Submit`):

- A POST to `/api/auth/register` is sent, with the three form fields.
- The handler escapes exactly when fetch or parse throws. It then causes no toast and no navigation.
- `res.ok`: a success toast "✅ " + message, then a navigation to `/login` after 2000 ms.
- Not ok: an error toast "⚠️ " + message, and no navigation.

## Left out

- Markup, styling and `ToastContainer`. The model records which toast is shown and which navigation is started. Of the rendering, only the conditions under which the buttons appear are modelled (`TodosTrace.Enabled`).
- The network, `res.json()` and `NEXT_PUBLIC_API_URL`. They are replaced by the abstract `Response`. Paths are relative to the configured API origin.
- Timers. A delayed navigation is recorded with its delay in milliseconds, not run later.
- React rendering, batching and functional-updater semantics. Each setter is applied at once to the state fields.
- Concurrency. The two activation effects write disjoint fields and are separate steps. Interleaving of a handler's request with other events is not modelled: each handler runs to completion with its response.
- Console logging (`console.error`, `console.log`). It is diagnostics only.
- The commented-out 401 handling in the todos page. It is dead code.
- JSON values of other types. `data.success` is taken as a boolean, and `data.message` as a string. A missing `data.todo` (JavaScript's `undefined` appended to the list) cannot be represented: `todo` is always a `Todo`.
- Arbitrary input names in `handleChange`. The field names are the inputs the pages render (`email`, `password`, `fullName`). A computed key outside them, which would add a new property, is not modelled.
- `e.preventDefault()`. It only stops the browser's own form submission.
- `app/page.tsx` (a static page of links) and `next.config.ts` (build configuration) are not part of this model.
