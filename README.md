# Store-rating front end, modelled in Dafny

The store-rating application lets users register, log in, browse stores and
rate them from 1 to 5 stars. Administrators see totals, filter users and
stores, and add new ones. The browser side consists of four React views over
a REST backend. This project models the logic those views hold:

- the registration validator, with its two regular expressions written as
  character-level predicates;
- the login page's role-to-route choice and the order of `login` and
  navigation;
- the user dashboard's store-id → rating map: how it is built from the
  server's list and how a rating updates it;
- the admin dashboard's state: the store-owner choices derived from the user
  list, the `loading` flag, the filters, and the add-user and add-store forms.

Each view is a class whose fields are the view's React state. Each handler is
a method. A handler receives the server's answer to its request as a
`Response<T>` parameter: `Ok(data)`, or `Err(message)` carrying the optional
`response.data.message`. What a handler does outside its own state goes, in
order, into an `effects` log:

- `Send(request)` for each HTTP request;
- `LogIn(token, role)` and `LogOut` for calls into the session store;
- `Navigate(route)` for router navigation.

This is how the model states that no signup is sent when validation fails,
and that `login` comes before navigation. The session store itself is not
part of this model. Its behaviour is modelled as a fold, `SessionAfter`, over
the `LogIn`/`LogOut` effects.

Strings are `seq<char>`, and each `char` stands for one UTF-16 code unit.
That is what JavaScript's `length` counts, and what a regular expression
without the `u` flag matches against.

Two facts about the validator as written:

- The password pattern `^(?=.*[A-Z])(?=.*[!@#$%^&*]).{8,16}$` accepts
  `"PASSWORD!"`: it has 9 characters, an upper-case letter and `!`.
  `Register.PasswordExamples` proves it is accepted.
- The address message says "less than 400", yet the test `address.length > 400`
  accepts an address of exactly 400 characters (`Register.AddressBoundary`).

## Modules

- `common.dfy` (`Common`) holds what the views share: `Option` and
  `Response`, the `msg || fallback` error text, `Message`, `Route`, `Effect`,
  and the session fold with its lemmas.
- `register.dfy` (`Register`) models `src/pages/Register.jsx`.
- `login.dfy` (`Login`) models `src/pages/Login.jsx`.
- `user_dashboard.dfy` (`UserDashboard`) models `src/pages/UserDashboard.jsx`.
- `admin_dashboard.dfy` (`AdminDashboard`) models `src/pages/AdminDashboard.jsx`.

## Model

| member | source | states |
|---|---|---|
| `Common.ErrorText` | frontend/store-rating-frontend/src/pages/Register.jsx:62 | the server's message when it is present and non-empty, otherwise the fallback; never empty when the fallback is not |
| `Common.Apply` | frontend/store-rating-frontend/src/pages/Login.jsx:23 | `login` replaces the session with the given token and role, `logout` clears it, requests and navigation leave it alone |
| `Common.Route.Path` | frontend/store-rating-frontend/src/pages/Login.jsx:26-28 | every route is an absolute path starting with '/' |
| `Common.SessionAfterAppend` | frontend/store-rating-frontend/src/pages/Login.jsx:22-23 | the session after two effect sequences run in turn is the session after their concatenation |
| `Common.LoginThenNavigate` | frontend/store-rating-frontend/src/pages/Login.jsx:21-28 | after any earlier history, sending the login request, calling `login` and then navigating leaves exactly the new credentials in the session |
| `Common.LogoutThenNavigate` | frontend/store-rating-frontend/src/pages/UserDashboard.jsx:22-26 | after any earlier history, a request whose failure calls `logout` and navigates leaves nobody signed in |
| `Register.EmailAcceptedIffRegex` | frontend/store-rating-frontend/src/pages/Register.jsx:32-35 | the validator's e-mail test (no whitespace, exactly one '@', a non-empty part before it, and after it a '.' that is neither first nor last) accepts exactly the strings `^[^\s@]+@[^\s@]+\.[^\s@]+$` matches |
| `Register.PasswordAcceptedIffRegex` | frontend/store-rating-frontend/src/pages/Register.jsx:37-40 | the validator's password test (8–16 characters, no line terminator, an 'A'–'Z', one of `!@#$%^&*`) accepts exactly the strings the look-ahead pattern matches |
| `Register.Validate` | frontend/store-rating-frontend/src/pages/Register.jsx:21-43 | "" iff all four checks pass; the name message iff the name check fails; each later message iff every earlier check passes and its own fails |
| `Register.ValidateIsFirstFailure` | frontend/store-rating-frontend/src/pages/Register.jsx:21-42 | the validator equals a scan of the ordered check list (name, address, e-mail, password) that stops at the first failure, so a non-empty result is the message of the first failing check |
| `Register.NameBounds` | frontend/store-rating-frontend/src/pages/Register.jsx:24-26 | names of length 20 and 60 pass the name check; lengths 19 and 61 yield exactly the name message |
| `Register.AddressBoundary` | frontend/store-rating-frontend/src/pages/Register.jsx:28-30 | with a valid name, an address of exactly 400 characters passes and 401 or more yields the address message |
| `Register.PasswordExamples` | frontend/store-rating-frontend/src/pages/Register.jsx:37-40 | "Passw0rd!" and "PASSWORD!" pass the password test and "password" fails it |
| `Register.EmailExamples` | frontend/store-rating-frontend/src/pages/Register.jsx:32-35 | "a@b.c" passes the e-mail test while "a@b." and "a@@b.c" fail it |
| `Register.Form.With` | frontend/store-rating-frontend/src/pages/Register.jsx:17-19 | a field change sets the named field and keeps every other field |
| `Register.SignupBody` | frontend/store-rating-frontend/src/pages/Register.jsx:54-57 | the signup body carries the form's four fields and role "user" |
| `Register.RegisterView.constructor` | frontend/store-rating-frontend/src/pages/Register.jsx:7-15 | the form starts empty, with no error, no success text and nothing sent |
| `Register.RegisterView.HandleChange` | frontend/store-rating-frontend/src/pages/Register.jsx:17-19 | only the named form field changes; messages and effects stay as they were |
| `Register.RegisterView.HandleSubmit` | frontend/store-rating-frontend/src/pages/Register.jsx:45-64 | a failed validation sets `error` to its message, clears `success` and sends nothing; otherwise exactly one signup with role "user" is sent, then success leaves the fixed success text and failure leaves the server's message or "Signup failed." |
| `Login.RouteFor` | frontend/store-rating-frontend/src/pages/Login.jsx:26-28 | "/admin" iff role is "admin", "/owner" iff role is "store_owner", "/user" for every other role; never the entry route |
| `Login.SubmitEffects` | frontend/store-rating-frontend/src/pages/Login.jsx:21 | a submit always sends the credentials first |
| `Login.SubmitError` | frontend/store-rating-frontend/src/pages/Login.jsx:29-31 | no error after success; after failure the server's message or "Login failed", never empty |
| `Login.SuccessSignsIn` | frontend/store-rating-frontend/src/pages/Login.jsx:22-28 | after a successful submit, the session holds the returned token and role; the only navigation targets the role's route and directly follows `login` |
| `Login.FailureStays` | frontend/store-rating-frontend/src/pages/Login.jsx:29-31 | a failed submit navigates nowhere and leaves the session as it was |
| `Login.Credentials.With` | frontend/store-rating-frontend/src/pages/Login.jsx:12-14 | a field change sets the named field and keeps the other |
| `Login.LoginView.constructor` | frontend/store-rating-frontend/src/pages/Login.jsx:9-10 | the form starts empty, with no error and no effects |
| `Login.LoginView.HandleChange` | frontend/store-rating-frontend/src/pages/Login.jsx:12-14 | only the named field changes |
| `Login.LoginView.HandleSubmit` | frontend/store-rating-frontend/src/pages/Login.jsx:16-32 | the error is cleared, the credentials are sent, and on success `login(token, role)` and then navigation to `RouteFor(role)` happen; on failure only the error text is set |
| `UserDashboard.StoreQuery.With` | frontend/store-rating-frontend/src/pages/UserDashboard.jsx:46-48 | a filter change sets the named filter and keeps the other |
| `UserDashboard.RatingMapKeys` | frontend/store-rating-frontend/src/pages/UserDashboard.jsx:35-38 | the keys of the built map are exactly the store ids in the list |
| `UserDashboard.LastEntryWins` | frontend/store-rating-frontend/src/pages/UserDashboard.jsx:35-38 | each stored rating is the rating of the last list entry with that store id |
| `UserDashboard.BuildRatingMap` | frontend/store-rating-frontend/src/pages/UserDashboard.jsx:35-38 | the `forEach` loop builds the specified map, whose keys are exactly the store ids in the list |
| `UserDashboard.StarChoices` | frontend/store-rating-frontend/src/pages/UserDashboard.jsx:160 | five buttons with values 1, 2, 3, 4, 5 in that order |
| `UserDashboard.YourRating` | frontend/store-rating-frontend/src/pages/UserDashboard.jsx:155 | a rating is shown iff the store has a non-zero stored value, and it is that value; otherwise "Not Rated" |
| `UserDashboard.AverageShown` | frontend/store-rating-frontend/src/pages/UserDashboard.jsx:151 | a present non-zero average is shown as is; a missing average and an average of 0 both read 0 (the admin store table, `AdminDashboard.jsx:314`, applies the same rule) |
| `UserDashboard.RatingsAfterRate` | frontend/store-rating-frontend/src/pages/UserDashboard.jsx:59-65 | a confirmed rating sets one key to the new value and keeps every other entry; a failed one leaves the map unchanged |
| `UserDashboard.RateMessage` | frontend/store-rating-frontend/src/pages/UserDashboard.jsx:59-65 | a success message with the server's text, or an error message with the server's message or "Rating failed" |
| `UserDashboard.RateThenShow` | frontend/store-rating-frontend/src/pages/UserDashboard.jsx:155-167 | after a confirmed click on star k the store shows k and exactly button k is drawn as selected; other stores' labels never change; a failed click changes no label |
| `UserDashboard.UserDashboardView.constructor` | frontend/store-rating-frontend/src/pages/UserDashboard.jsx:10-13 | no stores, empty filters, an empty rating map and no message |
| `UserDashboard.UserDashboardView.FetchStores` | frontend/store-rating-frontend/src/pages/UserDashboard.jsx:15-27 | success replaces the store list; failure keeps it, then calls `logout` and navigates to "/" |
| `UserDashboard.UserDashboardView.FetchMyRatings` | frontend/store-rating-frontend/src/pages/UserDashboard.jsx:29-44 | success replaces the map by the one built from the list; failure leaves it unchanged |
| `UserDashboard.UserDashboardView.HandleFilterChange` | frontend/store-rating-frontend/src/pages/UserDashboard.jsx:46-48 | only the named filter changes |
| `UserDashboard.UserDashboardView.HandleRate` | frontend/store-rating-frontend/src/pages/UserDashboard.jsx:50-67 | one rating request is sent; the map becomes `RatingsAfterRate` of the old map and the message `RateMessage` of the answer |
| `UserDashboard.UserDashboardView.Mount` | frontend/store-rating-frontend/src/pages/UserDashboard.jsx:69-72 | fetches the stores, then the ratings, with each fetch's own effect on state and log |
| `UserDashboard.UserDashboardView.ClickLogout` | frontend/store-rating-frontend/src/pages/UserDashboard.jsx:80 | appends a `logout` call and changes nothing else |
| `UserDashboard.UserDashboardView.ClickStar` | frontend/store-rating-frontend/src/pages/UserDashboard.jsx:160-163 | a star button rates its store with its own value, always between 1 and 5 |
| `AdminDashboard.UserFilters.With` | frontend/store-rating-frontend/src/pages/AdminDashboard.jsx:84-86 | a filter change sets the named filter and keeps the other three |
| `AdminDashboard.StoreFilters.With` | frontend/store-rating-frontend/src/pages/AdminDashboard.jsx:261-275 | a store-filter change sets the named filter and keeps the other two |
| `AdminDashboard.NewUser.With` | frontend/store-rating-frontend/src/pages/AdminDashboard.jsx:344-373 | an add-user input change sets its field and keeps the others |
| `AdminDashboard.NewStore.With` | frontend/store-rating-frontend/src/pages/AdminDashboard.jsx:408-430 | an add-store input change sets its field and keeps the others |
| `AdminDashboard.BlankNewUser` | frontend/store-rating-frontend/src/pages/AdminDashboard.jsx:104 | every add-user field is empty except the role, which is "user" |
| `AdminDashboard.BlankNewStore` | frontend/store-rating-frontend/src/pages/AdminDashboard.jsx:123 | every add-store field, `owner_id` included, is empty |
| `AdminDashboard.StoreOwners` | frontend/store-rating-frontend/src/pages/AdminDashboard.jsx:58 | a user is in the owner list iff it is in the user list with role "store_owner"; the list is no longer than the users |
| `AdminDashboard.StoreOwnersIsOrderedFilter` | frontend/store-rating-frontend/src/pages/AdminDashboard.jsx:57-59 | the owner list is an order-preserving sublist of the users and keeps every store owner as often as it occurs |
| `AdminDashboard.NoOwnersNoChoices` | frontend/store-rating-frontend/src/pages/AdminDashboard.jsx:57-59 | users without a store owner give an empty owner list |
| `AdminDashboard.CreateMessage` | frontend/store-rating-frontend/src/pages/AdminDashboard.jsx:103-108 | a success message with the server's text, or an error message with the server's message or the fallback |
| `AdminDashboard.AdminDashboardView.constructor` | frontend/store-rating-frontend/src/pages/AdminDashboard.jsx:10-36 | zero totals, no users, stores or owners, empty filters, blank forms, no messages, `loading` true; the owner invariant holds |
| `AdminDashboard.AdminDashboardView.FetchStats` | frontend/store-rating-frontend/src/pages/AdminDashboard.jsx:38-49 | success replaces the totals; failure keeps them, then calls `logout` and navigates to "/" |
| `AdminDashboard.AdminDashboardView.FetchUsers` | frontend/store-rating-frontend/src/pages/AdminDashboard.jsx:51-64 | success replaces the users, recomputes the owners and clears `loading`; failure changes none of the three; the owner list always equals the owners of the users |
| `AdminDashboard.AdminDashboardView.FetchStores` | frontend/store-rating-frontend/src/pages/AdminDashboard.jsx:66-76 | success replaces the stores; failure is silently ignored |
| `AdminDashboard.AdminDashboardView.Mount` | frontend/store-rating-frontend/src/pages/AdminDashboard.jsx:78-82 | fetches the totals, the users and the stores in that order, each with its own effect |
| `AdminDashboard.AdminDashboardView.ClickLogout` | frontend/store-rating-frontend/src/pages/AdminDashboard.jsx:137 | appends a `logout` call and changes nothing else |
| `AdminDashboard.AdminDashboardView.HandleFilterChange` | frontend/store-rating-frontend/src/pages/AdminDashboard.jsx:84-86 | only the named user filter changes |
| `AdminDashboard.AdminDashboardView.HandleStoreFilterChange` | frontend/store-rating-frontend/src/pages/AdminDashboard.jsx:261-275 | only the named store filter changes |
| `AdminDashboard.AdminDashboardView.EditNewUser` | frontend/store-rating-frontend/src/pages/AdminDashboard.jsx:344-373 | only the named add-user field changes |
| `AdminDashboard.AdminDashboardView.EditNewStore` | frontend/store-rating-frontend/src/pages/AdminDashboard.jsx:408-430 | only the named add-store field changes |
| `AdminDashboard.AdminDashboardView.HandleAddUser` | frontend/store-rating-frontend/src/pages/AdminDashboard.jsx:93-110 | success reports the server's text, blanks the form and refetches the users; failure keeps the form and the users, and reports the server's message or "Failed to create user" |
| `AdminDashboard.AdminDashboardView.HandleAddStore` | frontend/store-rating-frontend/src/pages/AdminDashboard.jsx:112-129 | success reports the server's text, blanks the form, `owner_id` included, and refetches the stores; failure keeps the form and reports the server's message or "Failed to create store" |

## Left out

- HTTP: the axios calls, the fixed base URL and the `Authorization: Bearer` header are not modelled. A request is a `Send` effect and its answer a `Response` parameter.
- The backend, and any response body without the expected fields. The model assumes every `Ok` body is well-formed. In JavaScript a missing field mostly reads as `undefined` and stays on the success path (`setStores(undefined)`, `setStats` of a partial object, a message text of `undefined`). In `fetchUsers` (`AdminDashboard.jsx:57-58`) `setUsers(undefined)` runs before `.filter` throws, so `users` changes while the owner list and `loading` keep their old values; that partial update is not modelled.
- The session store's persistence and its rehydration on reload. The auth context is not part of this model; `login`/`logout` are effects and `SessionAfter` is their meaning.
- Rendering, CSS classes and table markup, apart from the "Your Rating" and "Avg Rating" fallbacks, the selected-star rule and the star values.
- The two-second delayed redirect after signup (`Register.jsx:60`), and `console.error`.
- Asynchronous ordering. Handlers run to completion one at a time. `UserDashboard.UserDashboardView.Mount` and `AdminDashboard.AdminDashboardView.Mount` run their fetches one after the other, so a failed first fetch's `LogOut, Navigate(Entry)` comes before the later `Send`s; in the source `useEffect` starts every request before any answer is handled. The refetch after add-user or add-store is completed inside the handler, with its answer passed as a second parameter. Races between overlapping fetches are not modelled. So is `handleRate` building on a stale `ratings` closure.
- The filter-form submits (`AdminDashboard.jsx:88-91`, `AdminDashboard.jsx:251-254`, `UserDashboard.jsx:101-105`). Each is a plain call of `FetchUsers` or `FetchStores` and has no member of its own.
- JavaScript's string coercion of object keys: store ids are `int` keys.
- `UserDashboard.AverageShown`: models `avg_rating` as an optional number. A server that sends it as a numeric string would have it shown as sent, and that case is not modelled.
- Characters outside the Basic Multilingual Plane: a surrogate pair counts as two code units in JavaScript, but it cannot be written as two Dafny `char`s.
- `src/main.jsx`: mounting glue with no logic.
