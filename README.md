# A verified model of the Nodewave todo client

The client is a small Next.js application with:

- a sign-in form and a sign-up form;
- a todo page for signed-in users;
- a read-only admin page listing every user's todos;
- a session store backed by the browser's `localStorage`;
- two HTTP clients, one of which attaches the stored token as a bearer credential.

This project models the client's event handlers as small state machines in Dafny and proves what each handler does.

Everything a handler does to the outside world is appended to an **effect log** (`Wire.Effect`):

- `Request(client, verb, path, payload)`;
- `Navigate(route)`;
- `Toast(kind, message)`;
- `Confirm(message)`.

Everything the outside world answers comes back as an input to the handler:

- a list response;
- the outcome of a call;
- the answer to a confirmation dialog.

An asynchronous handler is split at its `await` into a `BeginSubmit` that sends the request and a `CompleteSubmit` that receives the outcome. The sign-in form's `BeginSubmit` sets `loading` and sends at once. The sign-up form's `BeginSubmit` sets `loading` and sends only once the two passwords match; otherwise it reports the mismatch and leaves `loading` as it was. Only `CompleteSubmit` carries the `finally` reset of `loading`.

Modules, following the source files:

| module | models |
|---|---|
| `Wrappers` | Option and Result |
| `Text` | JavaScript's `trim` and the decimal `toString` of a non-negative integer |
| `Json` | the string and boolean literals `JSON.stringify` writes, and a decoder that reads string literals back |
| `Wire` | effects, request payloads and the error-message rule the forms share |
| `BrowserStorage` | `localStorage` as a class over a `map<string, string>` |
| `AuthStore` | the user record and its stored form, the store's hydration, `setToken`, `setUser` and `logout` |
| `AuthApi` | the two clients' defaults and the bearer-token request interceptor |
| `OrderedSet` | a JavaScript `Set` of strings as an insertion-ordered sequence without duplicates |
| `TodoModel` | the todo record and the status filter shared by both lists |
| `TodoPage` | the todo view (`src/app/todo/page.tsx`) |
| `AdminPage` | the admin view (`src/app/admin/page.tsx`) |
| `LoginForm` | the sign-in form (`src/components/LoginForm.tsx`) |
| `RegisterForm` | the sign-up form (`src/components/RegisterForm.tsx`) |

The model follows the code on these points:

- A new todo is sent with its text **untrimmed**. The trim is only the guard.
- Failed create and mark calls raise no error notification, and a failed create keeps the text box.
- "Delete selected" sends one `DELETE /todos/{id}` per selected id, in insertion order. There is no bulk call. The selection is emptied as soon as the requests are issued, whatever their outcome.
- The admin page number is not reset when the filter or the search term changes. It can therefore lie beyond the last page, and "next" then jumps back to the last page (`AdminPage.NextFromBeyondLastPage`).
- The admin view's hydration guard is the single `isClient` flag set by a mount effect.

## Model

| member | source | states |
|---|---|---|
| `Text.TrimStart` | src/app/todo/page.tsx:82 | the result is a suffix of the input that starts with a non-whitespace character, and everything cut off is whitespace |
| `Text.TrimEnd` | src/components/RegisterForm.tsx:49 | the result is a prefix of the input that ends with a non-whitespace character, and everything cut off is whitespace |
| `Text.Trim` | src/components/RegisterForm.tsx:49 | the result is no longer than the input, and a non-empty result has non-whitespace characters at both ends |
| `Text.TrimBothEnds` | src/components/RegisterForm.tsx:49 | the trimmed string is the slice of the input that starts where the leading whitespace ends, and only whitespace lies before and after it |
| `Text.HasText` | src/app/todo/page.tsx:82 | `trim()` is truthy exactly when the input holds a character that is not whitespace |
| `Text.TrimEmptyIff` | src/app/todo/page.tsx:82 | `trim()` yields the empty (falsy) string exactly when the input is all whitespace; both directions are proved |
| `Text.TrimIdempotent` | src/components/RegisterForm.tsx:49 | trimming an already trimmed string changes nothing |
| `Text.DecimalString` | src/app/admin/page.tsx:50 | `toString()` of a non-negative integer: digits only, no leading zero, one digit exactly below 10 |
| `Text.DecimalRoundTrip` | src/app/admin/page.tsx:50 | reading the decimal digits back gives the number |
| `Text.DecimalInjective` | src/app/admin/page.tsx:50 | different page numbers give different `page` parameters |
| `Json.EscapeChar` | src/app/admin/page.tsx:57 | a character is written as it is unless it is a quote, a backslash or a control character |
| `Json.Escape` | src/app/admin/page.tsx:57 | the escaped body is at least as long as the text and holds no control character |
| `Json.Quote` | src/app/admin/page.tsx:57 | `JSON.stringify` of a string is delimited by quotes |
| `Json.Unescape` | src/store/auth.ts:19 | an escape that `JSON.parse` accepts takes between 2 and the remaining number of characters |
| `Json.DecodeBody` | src/store/auth.ts:19 | what follows a decoded literal body is a proper suffix of the input |
| `Json.DecodeString` | src/store/auth.ts:19 | a decoded string literal starts with a quote, and what follows it is a suffix shorter than the input by at least the two quotes |
| `Json.SurrogatePairDecodes` | src/store/auth.ts:19 | the escaped surrogate pair `\ud83d\ude00` reads as the single character U+1F600 |
| `Json.DecodeEscapeChar` | src/components/LoginForm.tsx:37 | decoding one escaped character puts that character in front of what the rest decodes to |
| `Json.EscapeRoundTrip` | src/components/LoginForm.tsx:37 | decoding the escaped body followed by a closing quote gives back the text and what follows |
| `Json.QuoteRoundTrip` | src/app/admin/page.tsx:57 | a serialized string literal reads back as the same string, whatever follows it |
| `Json.QuoteInjective` | src/app/admin/page.tsx:57 | different strings serialize to different literals |
| `Wire.ErrorMessage` | src/components/LoginForm.tsx:51-55 | an HTTP error with a non-empty server message shows that message; an HTTP error without one, or with an empty one, shows the form's fallback; any other error shows the generic message |
| `BrowserStorage.Lookup` | src/store/auth.ts:18 | `getItem` is present exactly when the key is stored, and then holds the stored value |
| `BrowserStorage.LocalStorage.GetItem` | src/lib/authApi.ts:19 | `getItem` on the live storage: present exactly when the key is stored, with that value |
| `BrowserStorage.LocalStorage.SetItem` | src/components/LoginForm.tsx:36-37 | the key is bound to the value and nothing else changes |
| `BrowserStorage.LocalStorage.RemoveItem` | src/store/auth.ts:27-28 | the key is gone and nothing else changes |
| `AuthStore.EncodeUser` | src/components/LoginForm.tsx:37 | the stored form of a user is delimited by `{` and `}`; `UserRoundTrip` states that it means the user |
| `AuthStore.DecodeUser` | src/store/auth.ts:19 | only text that starts with `{` can decode to a user |
| `AuthStore.UserRoundTrip` | src/store/auth.ts:19 | `JSON.parse` of the stored text gives back the user `JSON.stringify` wrote |
| `AuthStore.ParseStoredUser` | src/store/auth.ts:19 | the text `null` is no user; any other text is an error exactly when it does not decode, and otherwise gives the user it decodes to; the error carries the text |
| `AuthStore.InitialSession` | src/store/auth.ts:18-23 | outside a browser both fields are null; in a browser the token is the stored token or null; a missing, empty or `null` stored user gives no user; a decodable one gives that user; creation fails exactly when the stored user is some other text, with that text in the error |
| `AuthStore.ClearedStorage` | src/store/auth.ts:26-30 | after logout the storage holds exactly its other keys, with their values |
| `AuthStore.HydrateAfterLogin` | src/components/LoginForm.tsx:36-37 | what login writes to storage is restored as the same token and user when the store is next created |
| `AuthStore.HydrateAfterLogout` | src/store/auth.ts:26-30 | after logout a newly created store starts with no token and no user |
| `AuthStore.LogoutIdempotent` | src/store/auth.ts:26-30 | clearing the storage twice gives the same storage as clearing it once |
| `AuthStore.SessionStore.constructor` | src/store/auth.ts:21-23 | the store starts with the given token and user |
| `AuthStore.SessionStore.Hydrate` | src/store/auth.ts:18-23 | the store is created from storage as `InitialSession` says, or creation fails on a malformed stored user |
| `AuthStore.SessionStore.SetToken` | src/store/auth.ts:24 | only the token changes; the user and storage are untouched |
| `AuthStore.SessionStore.SetUser` | src/store/auth.ts:25 | only the user changes; the token and storage are untouched |
| `AuthStore.SessionStore.Logout` | src/store/auth.ts:26-30 | both session keys are removed from storage, all other keys kept, and both fields become null |
| `AuthStore.LogoutTwice` | src/store/auth.ts:26-30 | two logouts leave store and storage as one logout does |
| `AuthApi.Truthy` | src/lib/authApi.ts:20 | a null token and the empty token are falsy; every other token is truthy |
| `AuthApi.DefaultHeaders` | src/lib/authApi.ts:3-15 | both clients send exactly `Content-Type: application/json` by default |
| `AuthApi.StoredToken` | src/lib/authApi.ts:19 | the interceptor reads the stored token in a browser and null outside one |
| `AuthApi.WithBearer` | src/lib/authApi.ts:20-22 | a truthy token sets `Authorization` to `Bearer <token>`; otherwise the headers are unchanged; no other header changes |
| `AuthApi.SentHeaders` | src/lib/authApi.ts:3-24 | every request carries the JSON content type; the anonymous client never carries `Authorization`; the authenticated one carries it exactly when the token is truthy |
| `AuthApi.NoBearerAfterLogout` | src/lib/authApi.ts:19 | after logout, authenticated requests carry no credential, because the token is read at request time |
| `AuthApi.BearerAfterLogin` | src/lib/authApi.ts:19-22 | after login stored a non-empty token, authenticated requests carry it as the bearer credential |
| `AuthApi.Intercept` | src/lib/authApi.ts:18-24 | the interceptor returns the same configuration without rejecting, and only its headers change, as `WithBearer` says |
| `AuthApi.OnRequestError` | src/lib/authApi.ts:25-27 | a request-setup error is passed through unchanged as the rejection |
| `AuthApi.Send` | src/lib/authApi.ts:3-24 | a request goes to the shared base URL with the chosen method, path and payload, and carries the headers `SentHeaders` gives for its client |
| `OrderedSet.Add` | src/app/todo/page.tsx:96 | the id joins the set, all other members stay, an existing member changes nothing, and the insertion order is kept |
| `OrderedSet.Remove` | src/app/todo/page.tsx:98 | the id leaves the set, all other members stay, and an absent id changes nothing |
| `OrderedSet.RemoveAt` | src/app/todo/page.tsx:98 | removing the only occurrence of the id, at index `i`, gives the elements before `i` followed by those after it |
| `OrderedSet.RemoveKeepsOrder` | src/app/todo/page.tsx:98 | deleting a member of a set leaves the remaining members in their insertion order |
| `TodoModel.IsDoneFilter` | src/app/admin/page.tsx:54 | `JSON.stringify({ isDone })` is the `isDone` key, then `true` exactly for a done filter and `false` otherwise, then `}` |
| `TodoModel.IsDoneFilterText` | src/app/admin/page.tsx:54 | `JSON.stringify({ isDone })` is the literal filter text the todo view writes |
| `TodoPage.ListParams` | src/app/todo/page.tsx:30-35 | no parameter for "all"; exactly `filters={"isDone":true}` for "done" and `filters={"isDone":false}` for "undone" |
| `TodoPage.ListRequest` | src/app/todo/page.tsx:30-36 | a `GET /todos` through the authenticated client carrying exactly `ListParams(filter)`, so the parameters are empty exactly for the "all" filter |
| `TodoPage.CreateRequest` | src/app/todo/page.tsx:44 | a `POST /todos` through the authenticated client whose body has the single key `item`, holding the text |
| `TodoPage.MarkRequest` | src/app/todo/page.tsx:56 | a `PUT` through the authenticated client to `/todos/` + id + `/mark`, whose body has the single key `action`: `UNDONE` for a done todo, `DONE` otherwise |
| `TodoPage.DeleteRequest` | src/app/todo/page.tsx:67 | a `DELETE` without a body through the authenticated client to `/todos/` + id |
| `TodoPage.ConfirmMessage` | src/app/todo/page.tsx:112 | the dialog asks the fixed question around a run of decimal digits that reads back as the number of selected items |
| `TodoPage.MarkAction` | src/app/todo/page.tsx:87-90 | the action is `UNDONE` exactly when the todo is done, and `DONE` exactly when it is not |
| `TodoPage.DeleteRequests` | src/app/todo/page.tsx:115-117 | one `DELETE /todos/{id}` per id, in order |
| `TodoPage.DeleteRequestInjective` | src/app/todo/page.tsx:67 | different ids are deleted through different paths |
| `TodoPage.DeletesMatchSelection` | src/app/todo/page.tsx:115-117 | deleting a selection issues no request twice, a request for every selected id and none for any other id |
| `TodoPage.TodoView.constructor` | src/app/todo/page.tsx:19-23 | an empty text box, an empty selection, the "all" filter, no todos and no effects |
| `TodoPage.TodoView.DeleteSelectedDisabled` | src/app/todo/page.tsx:247 | the delete-selected button is disabled exactly when nothing is selected |
| `TodoPage.TodoView.SetFilter` | src/app/todo/page.tsx:165 | only the filter changes |
| `TodoPage.TodoView.EditNewTodoText` | src/app/todo/page.tsx:189 | only the text box changes |
| `TodoPage.TodoView.FetchTodos` | src/app/todo/page.tsx:29-36 | the list is requested through the authenticated client with the filter's parameters, and nothing else changes |
| `TodoPage.TodoView.ReceiveTodos` | src/app/todo/page.tsx:37 | the response's entries replace the displayed list |
| `TodoPage.TodoView.HandleCreateTodo` | src/app/todo/page.tsx:80-85 | a create request is sent exactly when the text is not all whitespace, it carries the untrimmed text, and no state changes |
| `TodoPage.TodoView.CreateSettled` | src/app/todo/page.tsx:46-50 | the text box is cleared and success reported only when the call succeeded; a failure changes nothing |
| `TodoPage.TodoView.HandleMarkTodo` | src/app/todo/page.tsx:87-90 | one `PUT /todos/{id}/mark` carrying the opposite of the current state |
| `TodoPage.TodoView.MarkSettled` | src/app/todo/page.tsx:58-61 | only a success is reported, and no state changes |
| `TodoPage.TodoView.HandleToggleSelectTodo` | src/app/todo/page.tsx:92-102 | the id is in the selection exactly when it was checked, every other id keeps its membership, a newly checked id joins at the end, an unchecked id leaves without moving the others, and nothing is sent |
| `TodoPage.TodoView.HandleSingleDeleteTodo` | src/app/todo/page.tsx:104-106 | exactly one `DELETE /todos/{id}` and no state change |
| `TodoPage.TodoView.DeleteSettled` | src/app/todo/page.tsx:69-76 | a success and a failure each give their own notification |
| `TodoPage.TodoView.HandleDeleteSelected` | src/app/todo/page.tsx:108-121 | with nothing selected or the dialog refused there are no requests and no state change; after confirmation there is one delete per selected id in insertion order, and the selection ends empty |
| `TodoPage.TodoView.HandleLogout` | src/app/todo/page.tsx:123-126 | the session is cleared from store and storage, and the login page is shown |
| `AdminPage.SearchFilter` | src/app/admin/page.tsx:57 | `JSON.stringify({ item: term })` is the `item` key, then the term as a string literal, then `}` |
| `AdminPage.SearchFilterRoundTrip` | src/app/admin/page.tsx:57 | the `search` parameter carries the search term so that it reads back unchanged, whatever characters it holds |
| `AdminPage.RowsText` | src/app/admin/page.tsx:51 | `rows.toString()` is `10` |
| `AdminPage.ListParamsShape` | src/app/admin/page.tsx:49-58 | where each parameter name's values sit in the appended list, and that the list holds no other name |
| `AdminPage.ListParams` | src/app/admin/page.tsx:49-58 | exactly one `page` with the page number and one `rows=10`; `filters` exactly when the status is not "all", with `isDone` equal to "status is done"; `search` exactly when the term is non-empty, as `{"item":term}`; no other name |
| `AdminPage.TotalPages` | src/app/admin/page.tsx:67 | at least 1; 1 without data or with no entries; otherwise the integer ceiling of total over 10 |
| `AdminPage.DisplayedTodos` | src/app/admin/page.tsx:66 | missing data gives an empty list; otherwise the response's entries |
| `AdminPage.PrevPage` | src/app/admin/page.tsx:159 | `max(page - 1, 1)`: never below 1, one page back from any page above 1 |
| `AdminPage.NextPage` | src/app/admin/page.tsx:168 | `min(page + 1, totalPages)`: never beyond the last page, one page on from any earlier page |
| `AdminPage.PagingStaysInRange` | src/app/admin/page.tsx:159-169 | from a page within range both clicks stay within range, and a click on a disabled button would not move |
| `AdminPage.NextFromBeyondLastPage` | src/app/admin/page.tsx:168 | from a page beyond the last one, "next" moves back to the last page |
| `AdminPage.Redirects` | src/app/admin/page.tsx:40 | the gate redirects only when mounted and signed in, and then exactly when the role is not `ADMIN` |
| `AdminPage.FetchEnabled` | src/app/admin/page.tsx:63 | the query runs only when mounted and signed in, and then exactly when the role is `ADMIN` |
| `AdminPage.GateExclusive` | src/app/admin/page.tsx:39-63 | the redirect and the fetch are never both enabled, and with no user or outside a browser neither is |
| `AdminPage.AdminView.constructor` | src/app/admin/page.tsx:29-33 | page 1, the "all" filter, an empty search term, not yet mounted, no data |
| `AdminPage.AdminView.Mount` | src/app/admin/page.tsx:35-37 | only `isClient` changes, and it becomes true |
| `AdminPage.AdminView.RunGate` | src/app/admin/page.tsx:39-44 | an access-denied notification and a redirect to `/todo` exactly when mounted, signed in and not an admin; no state change |
| `AdminPage.AdminView.BuildListParams` | src/app/admin/page.tsx:49-58 | the parameters appended one after another are those `ListParams` describes |
| `AdminPage.AdminView.Fetch` | src/app/admin/page.tsx:46-64 | the list is requested exactly when the query is enabled (mounted and an admin), with the page, rows, filter and search parameters |
| `AdminPage.AdminView.ReceivePage` | src/app/admin/page.tsx:61 | the response's content replaces the data |
| `AdminPage.AdminView.SetFilter` | src/app/admin/page.tsx:112 | only the filter changes; the page stays |
| `AdminPage.AdminView.SetSearchTerm` | src/app/admin/page.tsx:106 | only the search term changes; the page stays |
| `AdminPage.AdminView.CurrentTotalPages` | src/app/admin/page.tsx:67 | there is always at least one page |
| `AdminPage.AdminView.PrevDisabled` | src/app/admin/page.tsx:160 | the previous button is disabled exactly where a click would not move the page |
| `AdminPage.AdminView.NextDisabled` | src/app/admin/page.tsx:169 | the next button is disabled exactly where a click would not move the page |
| `AdminPage.AdminView.GoToPreviousPage` | src/app/admin/page.tsx:159-160 | the page becomes `max(page - 1, 1)` and stays at least 1; on page 1, where the button is disabled, it does not move |
| `AdminPage.AdminView.GoToNextPage` | src/app/admin/page.tsx:168-169 | the page becomes `min(page + 1, totalPages)` and is at most the last page; on the last page, where the button is disabled, it does not move |
| `LoginForm.RouteForRole` | src/components/LoginForm.tsx:44-48 | `/admin` exactly for the role `ADMIN`, `/todo` for every other role |
| `LoginForm.LoginErrorMessage` | src/components/LoginForm.tsx:50-55 | the server's message, else "Email atau password salah." for an HTTP error, else the generic message |
| `LoginForm.LoginRequest` | src/components/LoginForm.tsx:33 | a `POST /login` through the anonymous client with the whole form data as its body |
| `LoginForm.LoginView.SubmitDisabled` | src/components/LoginForm.tsx:87 | the submit button is disabled exactly while `loading` |
| `LoginForm.LoginView.constructor` | src/components/LoginForm.tsx:17-21 | empty e-mail and password, not loading, no effects |
| `LoginForm.LoginView.HandleChange` | src/components/LoginForm.tsx:25-27 | only the field named by the input id changes |
| `LoginForm.LoginView.BeginSubmit` | src/components/LoginForm.tsx:29-33 | `loading` becomes true, which disables the button, and one `POST /login` carries exactly the current form through the anonymous client |
| `LoginForm.LoginView.CompleteSubmit` | src/components/LoginForm.tsx:33-59 | on success storage and store get the returned token and user, success is reported and the route follows the role; on failure storage and store are unchanged and the error message is shown; `loading` ends false either way, which enables the button |
| `RegisterForm.InitialForm` | src/components/RegisterForm.tsx:16-26 | the nine fields, all empty |
| `RegisterForm.FullNameToSend` | src/components/RegisterForm.tsx:49-51 | the trimmed "first last" name unless that is all whitespace, else the `fullName` field |
| `RegisterForm.RegisterPayload` | src/components/RegisterForm.tsx:49-54 | exactly the keys `fullName`, `email` and `password`, with the derived name and the typed e-mail and password; the confirmation, phone, country and about are never sent |
| `RegisterForm.TypedNameWins` | src/components/RegisterForm.tsx:49-51 | a first or last name that is not blank always wins over the `fullName` field and is sent trimmed and non-empty |
| `RegisterForm.RegisterRequest` | src/components/RegisterForm.tsx:56 | a `POST /register` through the anonymous client whose body has exactly the keys `fullName`, `email` and `password`, with the typed e-mail and password and the register payload's name |
| `RegisterForm.RegisterErrorMessage` | src/components/RegisterForm.tsx:59-64 | the server's message, else "Terjadi kesalahan saat pendaftaran." for an HTTP error, else the generic message |
| `RegisterForm.RegisterView.constructor` | src/components/RegisterForm.tsx:16-27 | the initial form, not loading, no effects |
| `RegisterForm.RegisterView.SubmitDisabled` | src/components/RegisterForm.tsx:140 | the submit button is disabled exactly while `loading` |
| `RegisterForm.RegisterView.HandleChange` | src/components/RegisterForm.tsx:30-32 | only the field named by the input id changes |
| `RegisterForm.RegisterView.HandleCountryChange` | src/components/RegisterForm.tsx:34-36 | only the country changes |
| `RegisterForm.RegisterView.BeginSubmit` | src/components/RegisterForm.tsx:38-56 | with different passwords: an error notification, no request, `loading` unchanged; with equal ones: `loading` true, which disables the button, and one `POST /register` with the register payload |
| `RegisterForm.RegisterView.CompleteSubmit` | src/components/RegisterForm.tsx:56-68 | success is reported and leads to `/login` with no storage write; a failure shows the error message; `loading` ends false either way, which enables the button |

## Left out

- Rendering (JSX, styling, loading and error screens) and `src/app/layout.tsx` are not modelled.
- The react-query cache, `invalidateQueries`, refetching and stale responses are not modelled. A list fetch is a request in the log plus a response given as input.
- The HTTP transport, the server and the router are represented only by the effect log and by inputs. `console.error` is not modelled because it has no observable effect on state.
- `window.confirm` is a boolean input to `HandleDeleteSelected`, and its question appears in the log as a `Confirm` effect.
- The admin page's `handleLogout` is not modelled because it is not part of the modelled core. It is the same as the todo page's `HandleLogout`.
- URL percent-encoding of query parameters is not modelled. Parameters are kept as name/value pairs in append order.
- `AuthStore.EncodeUser`: the user keeps only the four fields of the `User` interface, in declaration order. A server reply with more fields, or with another field order, is not modelled.
- `AuthStore.ParseStoredUser`: the model treats every stored user that is not in `EncodeUser`'s form as an error. That form is `EncodeUser`'s key order and spacing, with any JSON string escapes in the values. The error case therefore includes JSON that the source loads as `user` without throwing: other spacing or key order, `{}`, a number such as `123`, `true`, or an object missing a field. The source then creates the store with that value as its user. The admin gate redirects on it unless the value is falsy or its `role` is `ADMIN`; in the latter case the admin list is fetched. The model does not represent such a non-user value.
- `Json.Unescape`: only a lone surrogate escape is rejected, since a Dafny string cannot hold one; a high-surrogate escape followed by a low-surrogate escape is combined into one character by the UTF-16 formula, which `Json.SurrogatePairDecodes` shows for one worked pair only.
- `LoginForm.LoginView.CompleteSubmit`: a successful response without `token` or `user` is not modelled. A success always carries both.
- `Text.DecimalString` has no upper limit, whereas `Number.prototype.toString` writes exponent form from 1e21 up and JavaScript numbers lose integer precision above 2^53. No value the client formats comes near either limit: the admin page starts at 1 and moves by one per click, and the confirmation count is the size of a `Set`.
- The response total is a natural number, and `rows` is the constant 10 because the source has no setter for it. The floating-point `Math.ceil` is modelled as integer ceiling division.
- A rejected `Hydrate` stands for two source behaviours. One is the exception `JSON.parse` throws when the store module loads. The other is a store created with a stored value that is not a user, as described under `AuthStore.ParseStoredUser`. The model does not go further with either.
