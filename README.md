# PrimePlanner client core in Dafny

A model of the logic inside the PrimePlanner web client, a Next.js front end for a todo-list REST backend. It covers three parts:

- **HTTP adapter** (`api.dfy`, with `browser.dfy` and `decimal.dfy`).
  - The base URL default.
  - The request interceptor, which attaches `Authorization: Bearer <token>` when a token is stored.
  - The response interceptor. On a 401 it removes `token` and `user` from `localStorage` and redirects to `/login`. It passes every reply on unchanged.
  - `getErrorMessage`, which normalises errors through a fallback chain.
  - The id-based request paths `/todos/{id}`, `/admin/{id}/role` and `/admin/{id}`. Their decimal rendering is proved injective.
- **Session store** (`session.dfy`), from `AuthContext`.
  - Each transition (init/rehydrate, login, register, logout) is first a function over a `Session` value. A `Session` holds `user`, `loading`, storage and the navigation target.
  - The class `AuthProvider` performs the same steps with key-value writes on a `Window` object. It is proved to reach exactly the state those functions give.
  - `isAuthenticated` is `user != null`.
  - `useAuth` fails outside a provider.
- **Todos page** (`todos_page.dfy`, with `todo_list.dfy`).
  - The class `TodosPage` holds the page state: `todos`, `loading`, `error`, `success`, the add-form fields and `showAddForm`.
  - Its handlers call pure list updates: append, replace by id (`map`) and remove by id (`filter`).
  - It redirects when the visitor is not authenticated.
  - It also holds the priority label and colour mappings.

How outside effects are represented:

- A server reply is an input to each operation, as `Outcome<T>` (`Success(value)` or `Failure(error)`).
- Every reply first passes through the response interceptor, as it does in axios. So a 401 during any call clears the session and sets the location to `/login`.
- Router pushes and `window.location.href` assignments both set `Window.location`.
- `window.confirm` is a boolean input.
- `JSON.parse` is a parameter `string -> Option<User>` (None when it throws).
- `JSON.stringify` is a parameter `User -> string`.

Assumptions and choices where the sources disagree:

- **Auth reply.** `AuthContext` reads `response.token` and `response.user` from both `authApi.login` and `authApi.register`. The code does not deliver that. `authApi.login` returns the reply body, whose declared type `AuthenticationResponse` has only `token`. The body of `authApi.register` (src/lib/api.ts:102-104) awaits the POST and returns nothing, so the reply is discarded. As written, `register` therefore always rejects after a successful POST: reading `.token` of `undefined` throws a TypeError, which the catch turns into an `Error`. The model follows what `AuthContext` expects: both calls settle to a `(token, user)` pair (`Session.AuthResponse`). `Session.AuthProvider.Register` therefore models that intended reading, not the code as written.
- **Priority range.** `Todo.priority` is an unbounded `number`. The form offers 1–3, and the label and colour switches know only 1, 2 and 3. Any other value is "Unknown" with the gray badge.
- **Failed login.** A login or register that fails with status 401 passes through the response interceptor, so it does clear both keys and redirect to `/login`. The model keeps that composition. `Session.SignInFailureKeepsState` states that the state is unchanged for every other status.

## Model

| member | source | states |
|---|---|---|
| `Browser.Lookup` | src/context/AuthContext.tsx:26-27 | `getItem` yields a value exactly when the key is stored, and then the stored value |
| `Browser.ClearSession` | src/context/AuthContext.tsx:69-70 | removing `token` then `user` leaves neither key and every other key as it was |
| `Browser.ClearSessionIdempotent` | src/context/AuthContext.tsx:68-73 | clearing twice is clearing once; afterwards the two keys are paired (both absent) |
| `Decimal.NatToDecimal` | src/lib/api.ts:125 | an id renders to a non-empty run of digits with no leading zero except for 0 itself |
| `Decimal.DigitsValueOfDecimal` | src/lib/api.ts:125 | reading the rendered digits back gives the number |
| `Decimal.ParseIntToString` | src/lib/api.ts:125 | reading a rendered, possibly negative id back gives the id |
| `Decimal.IntToString` | src/lib/api.ts:125 | `${id}` for an integer: non-empty, made only of digits and '-'; `ParseIntToString` and `IntToStringInjective` state that it reads back and is injective |
| `Decimal.IntToStringInjective` | src/lib/api.ts:125 | distinct ids render to distinct text |
| `Api.BaseUrl` | src/lib/api.ts:4 | the configured URL when set and non-empty, else `http://localhost:8080/api`; never empty |
| `Api.ServerMessage` | src/lib/api.ts:171 | no contract; the definition is `response?.data?.message`, None when the response, its body or the message is missing |
| `Api.GetErrorMessage` | src/lib/api.ts:168-177 | for HTTP-client errors a non-empty message drawn from server message, transport message or the generic fallback; an `Error`'s own message; `An unexpected error occurred` for anything else |
| `Api.ErrorMessageFallbackChain` | src/lib/api.ts:169-172 | server message if non-empty, else transport message if non-empty, else `An error occurred` |
| `Api.RethrowKeepsMessage` | src/lib/api.ts:173-174 | wrapping the normalised message in a new `Error`, as login and register do, preserves the message a later handler extracts |
| `Api.WithBearer` | src/lib/api.ts:16-19 | with a non-empty stored token the `Authorization` header becomes `Bearer ` + token; otherwise the headers are unchanged; no other header changes |
| `Api.BearerCarriesToken` | src/lib/api.ts:18 | the header is the `Bearer ` prefix followed by exactly the stored token |
| `Api.OnRequest` | src/lib/api.ts:14-21 | the interceptor returns the same config, with headers as `WithBearer` gives them from the stored token and the URL untouched |
| `Api.OnRequestError` | src/lib/api.ts:22-24 | a request error is rejected again, unchanged |
| `Api.Unauthorized` | src/lib/api.ts:31 | no contract; the definition is `error.response?.status === 401`, false for errors with no response |
| `Api.AfterError` | src/lib/api.ts:30-36 | a 401 removes both session keys and targets `/login`, keeping other keys; any other error leaves storage and location as they were |
| `Api.AfterCall` | src/lib/api.ts:28-38 | a successful reply leaves the browser state untouched; a failed one has the effect `AfterError` gives |
| `Api.AfterErrorIdempotent` | src/lib/api.ts:31-36 | handling the same 401 again changes nothing more |
| `Api.OnResponse` | src/lib/api.ts:28-39 | the reply is passed on unchanged (a failure is never turned into success), and the browser ends in the state `AfterCall` gives |
| `Api.TodoPath` | src/lib/api.ts:125 | no contract; the definition is `/todos/` followed by the rendered id (also used at line 130); `TodoPathRoundTrip` and `IdPathsDistinct` state its properties |
| `Api.PromotePath` | src/lib/api.ts:158 | no contract; the definition is `/admin/` + rendered id + `/role`; `AdminPathsRoundTrip` and `IdPathsDistinct` state its properties |
| `Api.AdminUserPath` | src/lib/api.ts:163 | no contract; the definition is `/admin/` + rendered id; `AdminPathsRoundTrip` and `IdPathsDistinct` state its properties |
| `Api.ToggleCompleteRequest` | src/lib/api.ts:124-127 | no contract; the definition is `PUT` on `TodoPath(id)` |
| `Api.DeleteTodoRequest` | src/lib/api.ts:129-131 | no contract; the definition is `DELETE` on `TodoPath(id)` |
| `Api.PromoteToAdminRequest` | src/lib/api.ts:157-160 | no contract; the definition is `PUT` on `PromotePath(userId)` |
| `Api.DeleteUserRequest` | src/lib/api.ts:162-164 | no contract; the definition is `DELETE` on `AdminUserPath(userId)` |
| `Api.TodoPathRoundTrip` | src/lib/api.ts:124-131 | the id is recovered from `/todos/{id}` |
| `Api.AdminPathsRoundTrip` | src/lib/api.ts:157-164 | the user id is recovered from `/admin/{id}` and from `/admin/{id}/role` |
| `Api.IdPathsDistinct` | src/lib/api.ts:124-164 | each id-based path determines its id, and todo paths, role paths and user paths never coincide |
| `Session.Authenticated` | src/context/AuthContext.tsx:83 | no contract; the definition is `!!user` (a user is present); `RehydrateAuthenticates`, `SignInStoresSession` and `SignOutClears` state when it holds |
| `Session.Rehydrated` | src/context/AuthContext.tsx:25-39 | no contract; the transition every `InitAuth` contract is stated against; the Rehydrate lemmas state its cases |
| `Session.SignedIn` | src/context/AuthContext.tsx:44-66 | no contract; the login/register transition (including the 401 interceptor on failure); `SignInStoresSession` and `SignInFailureKeepsState` state its cases |
| `Session.SignInResult` | src/context/AuthContext.tsx:51-53 | no contract; resolve on success, reject with `new Error(getErrorMessage(e))` on failure; `SignInFailureKeepsState` states the message is kept |
| `Session.SignedOut` | src/context/AuthContext.tsx:68-73 | no contract; the logout transition; `SignOutClears` states its properties |
| `Session.RehydrateRestoresUser` | src/context/AuthContext.tsx:29-31 | both keys present and parseable: `user` becomes the parsed value, storage and location unchanged, `loading` false |
| `Session.RehydrateDiscardsMalformed` | src/context/AuthContext.tsx:32-36 | both keys present but unparseable: both keys removed, `user` not set, `loading` false; a repeated init then changes nothing |
| `Session.RehydrateIdempotent` | src/context/AuthContext.tsx:25-39 | running init on its own result changes nothing, in every case |
| `Session.RehydrateWithoutSession` | src/context/AuthContext.tsx:29-38 | a missing or empty key: only `loading` changes, to false |
| `Session.RehydrateAuthenticates` | src/context/AuthContext.tsx:24-42 | after init on a fresh provider, `isAuthenticated` holds exactly when both keys are non-empty and the stored user parses |
| `Session.SignInStoresSession` | src/context/AuthContext.tsx:46-50 | a successful login stores the token and the serialised user, sets `user` (so `isAuthenticated`), targets `/todos`, and leaves other keys alone |
| `Session.SignInFailureKeepsState` | src/context/AuthContext.tsx:51-53 | a failed login keeps `user` and `loading`, changes the browser only as the 401 interceptor does (not at all for other statuses), and rejects with an error carrying the normalised message |
| `Session.SignOutClears` | src/context/AuthContext.tsx:68-73 | logout removes both keys, sets `user` to null and targets `/login` whatever the prior state; logging out twice equals once |
| `Session.TransitionsKeepKeysPaired` | src/context/AuthContext.tsx:25-73 | init, login/register and logout keep `token` and `user` both stored or both absent |
| `Session.ReloadAfterSignIn` | src/context/AuthContext.tsx:44-50 | when parsing inverts serialisation, a reload after login rehydrates the same user |
| `Session.ReloadAfterSignOut` | src/context/AuthContext.tsx:68-73 | a reload after logout comes up anonymous |
| `Session.AuthProvider.IsAuthenticated` | src/context/AuthContext.tsx:83 | no contract; the definition is `Authenticated` of the provider's state, i.e. a user is held |
| `Session.AuthProvider.constructor` | src/context/AuthContext.tsx:19-20 | a new provider has no user and is loading |
| `Session.AuthProvider.InitAuth` | src/context/AuthContext.tsx:25-39 | the reads, the parse and the two removals reach exactly the rehydrated state |
| `Session.AuthProvider.Login` | src/context/AuthContext.tsx:44-54 | issues `POST /auth/login`, reaches the signed-in state for the reply (or its failure) and resolves or rejects accordingly |
| `Session.AuthProvider.Register` | src/context/AuthContext.tsx:56-66 | issues `POST /auth/register`; same transition and result as login |
| `Session.AuthProvider.SignIn` | src/context/AuthContext.tsx:45-53 | the shared body: interceptor, two writes, user and navigation on success; a normalised `Error` on failure |
| `Session.AuthProvider.Logout` | src/context/AuthContext.tsx:68-73 | two removals, null user, navigation to `/login` reach exactly the signed-out state |
| `Session.UseAuth` | src/context/AuthContext.tsx:91-97 | yields the provider exactly when there is one; otherwise fails with `useAuth must be used within an AuthProvider` |
| `TodoList.ReplaceById` | src/app/todos/page.tsx:62 | same length and order; each entry is the server record if its id matches, else unchanged |
| `TodoList.RemoveById` | src/app/todos/page.tsx:74 | filtering never lengthens the list |
| `TodoList.RemoveByIdMembers` | src/app/todos/page.tsx:74 | no entry with the id remains; an entry survives exactly when it was there with another id |
| `TodoList.RemoveByIdDistributes` | src/app/todos/page.tsx:74 | removal acts piecewise on a concatenation, so survivors keep their original order |
| `TodoList.RemoveAbsentId` | src/app/todos/page.tsx:74 | removing an id no entry has returns the list unchanged |
| `TodoList.RemoveSoleEntry` | src/app/todos/page.tsx:74 | removing the id of an entry no other entry shares drops that entry and keeps the rest in order |
| `TodoList.RemoveExactlyOne` | src/app/todos/page.tsx:73-74 | with unique ids, removing entry k's id removes entry k and nothing else |
| `TodoList.ReplaceExactlyOne` | src/app/todos/page.tsx:61-62 | with unique ids, replacing by entry k's id changes entry k only |
| `TodoList.ReplaceAbsentId` | src/app/todos/page.tsx:62 | replacing an id no entry has changes nothing |
| `TodoList.UpdatesKeepIdsUnique` | src/app/todos/page.tsx:48-74 | append of a new id, replace by the same id, and remove all keep ids unique |
| `TodoList.RemoveKeepsIdsUnique` | src/app/todos/page.tsx:74 | removal keeps ids unique |
| `Todos.Failed` | src/app/todos/page.tsx:54-56 | no contract; the shared catch branch: `error` becomes the normalised message |
| `Todos.Fetched` | src/app/todos/page.tsx:32-42 | no contract; the fetch transition `FetchTodos` is proved to reach; `FetchReplacesList` states its properties |
| `Todos.Added` | src/app/todos/page.tsx:44-57 | no contract; the add transition; `AddAppendsCreated` states its properties |
| `Todos.Toggled` | src/app/todos/page.tsx:59-67 | no contract; the toggle transition; `ToggleReplacesEntry` and `TodoList.ReplaceById` state its properties |
| `Todos.Deleted` | src/app/todos/page.tsx:69-79 | no contract; the confirmed-delete transition; `DeleteRemovesEntry` and `TodoList.RemoveByIdMembers` state its properties |
| `Todos.FailedCallKeepsList` | src/app/todos/page.tsx:37-78 | every failed call leaves the list and all other state as it was except `error`, which becomes the normalised message (and `loading` for a fetch) |
| `Todos.FetchReplacesList` | src/app/todos/page.tsx:32-42 | a fetch replaces the list wholesale on success, keeps it on failure, and ends with `loading` false either way |
| `Todos.AddAppendsCreated` | src/app/todos/page.tsx:47-53 | a successful add appends exactly the returned todo after the unchanged earlier entries and resets title, description, priority 1 and the form |
| `Todos.ToggleReplacesEntry` | src/app/todos/page.tsx:61-62 | with unique ids, a successful toggle puts the server record at that entry's index only |
| `Todos.DeleteRemovesEntry` | src/app/todos/page.tsx:73-74 | with unique ids, a successful delete removes exactly that entry |
| `Todos.PriorityColor` | src/app/todos/page.tsx:81-88 | no contract; the definition is the switch; `PriorityColorFollowsLabel` states the table and its partition |
| `Todos.PriorityLabel` | src/app/todos/page.tsx:90-97 | no contract; the definition is the switch; `PriorityLabelTotal` states the table and its totality |
| `Todos.PriorityLabelTotal` | src/app/todos/page.tsx:90-97 | 1→Low, 2→Medium, 3→High; the label is always one of Low/Medium/High/Unknown; Unknown exactly outside 1..3; known labels are distinct |
| `Todos.PriorityColorFollowsLabel` | src/app/todos/page.tsx:81-97 | 1→green, 2→yellow, 3→red badge; two priorities share a colour exactly when they share a label; gray exactly for Unknown |
| `Todos.TodosPage.constructor` | src/app/todos/page.tsx:11-22 | empty list, loading, no messages, hidden form with empty fields and priority 1 |
| `Todos.TodosPage.OnAuthChange` | src/app/todos/page.tsx:24-30 | unauthenticated: target `/login`, no request, page unchanged; authenticated: the fetch |
| `Todos.TodosPage.FetchTodos` | src/app/todos/page.tsx:32-42 | issues `GET /todos` and reaches the fetched view |
| `Todos.TodosPage.HandleAddTodo` | src/app/todos/page.tsx:44-57 | issues `POST /todos` with the form's title, description and priority and reaches the added view |
| `Todos.TodosPage.HandleToggleComplete` | src/app/todos/page.tsx:59-67 | issues `PUT /todos/{id}` and reaches the toggled view |
| `Todos.TodosPage.HandleDeleteTodo` | src/app/todos/page.tsx:69-79 | declined: no request, nothing changes; confirmed: issues `DELETE /todos/{id}` and reaches the deleted view |
| `Todos.TodosPage.ToggleAddForm` | src/app/todos/page.tsx:116 | flips `showAddForm` and nothing else |

## Left out

- Transport: axios and request sending are not modelled. A reply is an input. `async`/`await` and promise timing are also left out, and operations are strictly sequential.
- Overlapping handlers: page.tsx:62 and 74 read the `todos` captured when the handler started. So when handlers overlap, the last reply wins. This race is not modelled.
- Reload after a 401: assigning `window.location.href` reloads the page at `/login`. The model only records the target. The in-memory `user` of a mounted provider is not reset.
- JSON parsing: `JSON.parse` and `JSON.stringify` are opaque parameters. A stored user that parses to a non-object JSON value (such as `null` or a number) is not modelled. Parsing either yields a `User` or fails.
- Storage failures: `localStorage` operations never throw in the model. In the program, a `setItem('user', …)` that throws after `setItem('token', …)` succeeded (a full quota, or storage disabled) leaves `token` stored without `user`. Login then does not set `user`, does not navigate, and rejects with that exception's message. So `Session.TransitionsKeepKeysPaired` holds only when storage writes succeed.
- Console logging: the `console.error` call when a stored user fails to parse is not modelled.
- Session.AuthProvider.Register: does not model the TypeError the code as written raises after every successful registration, nor the `undefined` user that login stores when the reply carries only a token (see the auth reply note above).
- Login and register request bodies: these are not modelled. Credentials only reach the server, whose reply is an input. Each method returns the method and path it calls.
- Calls with no id: `authApi.getCurrentUser`, `userApi.getUserInfo`, `userApi.updatePassword`, `userApi.deleteAccount` and `adminApi.getAllUsers` are not modelled. The pages modelled here never call them, and none has an id in its path.
- The default `Content-Type: application/json` header: not modelled. Nothing in the model depends on it.
- Form inputs: the `onChange` bindings of title, description and the priority `<select>` are not modelled (including the `Number(...)` conversion). The same goes for the toast close handlers and all rendering. Navbar, ConfirmDialog, LoadingSpinner and the landing page are not part of this model.
- Todos.TodosPage.HandleAddTodo: accepts any title and description. The form's `required` attributes (src/app/todos/page.tsx:136, 150) stop the browser submitting an empty field, and that check is not modelled. The empty-state "+ Add Todo" button (src/app/todos/page.tsx:208), which sets `showAddForm` to true, is not modelled either.
- Decimal.IntToString: covers integer ids only. It does not model JavaScript's exponent notation for magnitudes of 1e21 and above, or non-integer numbers.
