# User management: a Dafny model

This project models the core of a small user-management system in three parts.

- **The client's user list** (`client-app/src/App.jsx`). The component holds `apiUsers`
  (every user loaded), `users` (the users the table shows) and `searchQuery`.
  - Search keeps the loaded users whose lowered full name, company name, company
    title or country includes the lowered query.
  - "+ Add User" appends a fixed user whose id is one more than the largest id.
  - Delete removes a user by id from both lists.
  - The class `ClientApp.App` keeps the invariant that `users` is a sublist of
    `apiUsers`. The "Showing X of Y users" counter relies on it.
- **The data-access layer** (`backend/models/userModel.js`). The class
  `UserModel.Database` holds the `users` table as a map from id to the seven columns.
  It also holds the table's AUTO_INCREMENT counter and the number of pool
  connections taken and not yet given back. Each of the five operations takes a
  connection, runs one statement and gives the connection back on every exit path.
- **The HTTP mapping** (`backend/routes/userRoutes.js`). For each route, a pure
  function maps the request fields and the model's outcome to a status code and a
  JSON envelope. Beside each one, a handler method validates the body, calls the
  `Database` and builds the response.

Environment behaviour is a parameter of each data-access call: a `Fault` that says
whether `pool.getConnection()` rejects, the query rejects, or nothing goes wrong.
A rejected statement leaves the table unchanged. The client's loaded list is an
argument of `App.LoadUsers`.

Files: `wrappers.dfy` (Option), `sequences.dfy` (order-preserving filter and the
sublist relation), `client_app.dfy`, `user_model.dfy`, `user_routes.dfy`.

## Model

| member | source | states |
|---|---|---|
| `Sequences.Filter` | client-app/src/App.jsx:93-94 | `Array.filter`: the result is a sublist of the input, every kept element satisfies the predicate, and each element that satisfies it keeps its full multiplicity |
| `Sequences.SubsequenceReflexive` | client-app/src/App.jsx:83-84 | a list is a sublist of itself, so setting both lists to the same value keeps the invariant |
| `Sequences.SubsequenceLength` | client-app/src/App.jsx:140 | a sublist is never longer than its list |
| `Sequences.FilterMonotone` | client-app/src/App.jsx:93-96 | filtering a sublist and its list with one predicate keeps the sublist relation |
| `Sequences.FilterKeepsAll` | client-app/src/App.jsx:59-66 | a filter whose predicate holds for every element returns the list unchanged |
| `Sequences.FilterCommute` | client-app/src/App.jsx:54-68 | filters with two predicates can be applied in either order |
| `Sequences.FilterAgrees` | client-app/src/App.jsx:54-68 | predicates that agree on every element select the same sublist |
| `ClientApp.Lower` | client-app/src/App.jsx:55-59 | `toLowerCase` keeps the length, leaves no ASCII capital in the result, keeps every other character and maps each capital to its small letter |
| `ClientApp.Includes` | client-app/src/App.jsx:62-65 | `includes`: the empty query is included in every text, and a longer query than the text is never included; `ClientApp.IncludesOccurs` gives its full meaning |
| `ClientApp.IncludesOccurs` | client-app/src/App.jsx:62-65 | `includes` is true exactly when the query occurs at some position of the text |
| `ClientApp.SearchableFields` | client-app/src/App.jsx:55-58 | the four lowered search texts; an absent company name, title or country becomes the empty string, and no text holds an ASCII capital |
| `ClientApp.Matches` | client-app/src/App.jsx:54-66 | the filter callback accepts every user for the empty query; `ClientApp.MatchesOccurs` gives its full meaning |
| `ClientApp.MatchesOccurs` | client-app/src/App.jsx:55-66 | a user matches exactly when the lowered query occurs in one of its four lowered searchable fields |
| `ClientApp.AbsentFieldsNeverMatch` | client-app/src/App.jsx:56-58 | an absent company name, title or country never causes a match; only the full name and the present fields can |
| `ClientApp.SearchResults` | client-app/src/App.jsx:54-67 | the search result is an order-preserving sublist of `apiUsers`, every result matches, and every matching user is kept with its multiplicity |
| `ClientApp.SearchIgnoresCase` | client-app/src/App.jsx:55-59 | a query and any re-cased version of it select the same users |
| `ClientApp.EmptyQuerySelectsAll` | client-app/src/App.jsx:59-66 | the empty query selects every loaded user, in order |
| `ClientApp.MaxId` | client-app/src/App.jsx:76 | `Math.max(...ids, 0)` is at least 0, at least every id, and is 0 or one of the ids |
| `ClientApp.NextId` | client-app/src/App.jsx:76 | the new id is above every existing id, is 1 on an empty list, and is the least such value above the largest id |
| `ClientApp.NewUser` | client-app/src/App.jsx:75-81 | the appended user has the given id and is searchable as "new user", "sample company", "sample role" and "usa" |
| `ClientApp.WithoutId` | client-app/src/App.jsx:93-94 | deleting keeps an order-preserving sublist without the id and keeps every other user with its multiplicity |
| `ClientApp.DeleteAbsentId` | client-app/src/App.jsx:92-96 | deleting an id that no user has changes nothing |
| `ClientApp.DeleteTwice` | client-app/src/App.jsx:92-96 | deleting twice is the same as deleting once |
| `ClientApp.DeleteKeepsSublist` | client-app/src/App.jsx:93-96 | deleting from both lists keeps `users` a sublist of `apiUsers` |
| `ClientApp.DeleteCommutesWithSearch` | client-app/src/App.jsx:93-94 | deleting from the search results equals searching the list after the delete |
| `ClientApp.App.constructor` | client-app/src/App.jsx:16-20 | both lists and the query start empty, and the invariant holds |
| `ClientApp.App.LoadUsers` | client-app/src/App.jsx:30-31 | a successful load sets both lists to the loaded list |
| `ClientApp.App.HandleSearch` | client-app/src/App.jsx:52-69 | records the query, leaves `apiUsers` alone and sets `users` to the search results of `apiUsers`; the invariant is kept |
| `ClientApp.App.HandleAddUser` | client-app/src/App.jsx:74-86 | appends exactly one fixed user, with an id above all earlier ids, at the end of `apiUsers`; `users` becomes the new full list |
| `ClientApp.App.HandleDeleteUser` | client-app/src/App.jsx:92-98 | removes the id from both lists, keeping the rest in order; the invariant is kept |
| `ClientApp.App.Counter` | client-app/src/App.jsx:140 | "Showing X of Y" has X at most Y |
| `UserModel.MinId` | backend/models/userModel.js:10 | the chosen id is in the set and no larger than any other |
| `UserModel.MinExists` | backend/models/userModel.js:10 | a non-empty set of ids has a least element |
| `UserModel.Listing` | backend/models/userModel.js:10 | `SELECT * FROM users` is empty exactly for an empty table; `UserModel.ListingLength`, `UserModel.ListingSound` and `UserModel.ListingComplete` give its full meaning |
| `UserModel.ListingLength` | backend/models/userModel.js:10-11 | `SELECT *` returns one entry per row |
| `UserModel.ListingSound` | backend/models/userModel.js:10-11 | every returned entry is a row of the table, with its stored columns |
| `UserModel.ListingComplete` | backend/models/userModel.js:10-11 | every row of the table is returned |
| `UserModel.ListingSorted` | backend/models/userModel.js:10-11 | in the order this model chooses for the listing (the query itself promises none), ids strictly increase |
| `UserModel.ListingDistinct` | backend/models/userModel.js:10-11 | no row is listed twice: listed ids are pairwise distinct |
| `UserModel.Database.constructor` | backend/config/database.js:6-14 | a new pool has no connection taken; the empty table with the counter at 1 is a chosen starting state, and every method assumes only `Valid()` |
| `UserModel.Database.Acquire` | backend/models/userModel.js:8 | taking a connection raises the outstanding count by one |
| `UserModel.Database.Release` | backend/models/userModel.js:13 | releasing a connection lowers the outstanding count by one |
| `UserModel.Database.GetAllUsers` | backend/models/userModel.js:7-15 | returns the listing of the whole table or the thrown error; connections are balanced |
| `UserModel.Database.GetUserById` | backend/models/userModel.js:22-30 | returns the row with the id, absent when there is none, or the thrown error; connections are balanced |
| `UserModel.Database.CreateUser` | backend/models/userModel.js:37-56 | adds exactly one row under a fresh id and returns the input fields with that id; on an error nothing changes; connections are balanced |
| `UserModel.Database.UpdateUser` | backend/models/userModel.js:64-84 | overwrites all seven columns of the matching row, changes nothing when no row matches, and echoes `{id, ...userData}` either way; connections are balanced |
| `UserModel.Database.DeleteUser` | backend/models/userModel.js:91-99 | returns true exactly when a row had the id; afterwards no row has it; connections are balanced |
| `UserRoutes.OrNull` | backend/routes/userRoutes.js:77-80 | `v \|\| null` is null exactly for a falsy member and the member itself otherwise |
| `UserRoutes.Falsy` | backend/routes/userRoutes.js:66 | a string member is falsy exactly when it is missing, `null` or empty |
| `UserRoutes.Required` | backend/routes/userRoutes.js:63-81 | validation fails exactly when firstName, lastName or email is falsy; otherwise the required fields pass verbatim and the optional ones are null when falsy and verbatim otherwise |
| `UserRoutes.ListResponse` | backend/routes/userRoutes.js:14-30 | 200 with `success:true` and `total` equal to the length of `data`, or 500 with the error's message in `details` |
| `UserRoutes.GetResponse` | backend/routes/userRoutes.js:35-56 | 404 with `success:false` exactly when the model returns nothing, 200 with the user when it returns one, 500 with the message on an error |
| `UserRoutes.PostResponse` | backend/routes/userRoutes.js:61-96 | 400 with the fixed error exactly on failed validation, 201 with the created user and a message on success, 500 with the message on an error |
| `UserRoutes.PutResponse` | backend/routes/userRoutes.js:101-135 | never 404: 400 exactly on failed validation, 200 with the echoed user whenever the model returns, 500 with the message on an error |
| `UserRoutes.DeleteResponse` | backend/routes/userRoutes.js:140-163 | 404 exactly when the model returns false, 200 with a message when it returns true, 500 with the message on an error |
| `UserRoutes.InvalidBodyIgnoresModel` | backend/routes/userRoutes.js:66-71 | a body that fails validation gets the same 400 whatever the model would have done |
| `UserRoutes.HandleList` | backend/routes/userRoutes.js:16 | the list route answers from the listing of the table and changes nothing |
| `UserRoutes.HandleGet` | backend/routes/userRoutes.js:37 | the get route answers from the row with the id and changes nothing |
| `UserRoutes.HandlePost` | backend/routes/userRoutes.js:73-81 | an invalid body gets 400 and the table is not written; a valid one inserts exactly the normalised fields under a fresh id |
| `UserRoutes.HandlePut` | backend/routes/userRoutes.js:112-120 | an invalid body gets 400 and the table is not written; a valid one overwrites the matching row, if any, with the normalised fields |
| `UserRoutes.HandleDelete` | backend/routes/userRoutes.js:142 | the delete route removes the row and answers from whether it existed |
| `UserRoutes.CreateThenGet` | backend/models/userModel.js:52 | a created user is read back by its new id with identical fields |
| `UserRoutes.DeleteThenRetry` | backend/routes/userRoutes.js:142-148 | after a delete, reading the id answers 404 and deleting it again answers 404 |

## Left out

- `fetchUsers` (network fetch, loading flag, error alert) is not modelled; only its success path's state update is, as `App.LoadUsers` with an arbitrary list.
- Toast notifications, the React components and the JSX rendering have no stateable logic.
- `Lower` lowers ASCII capitals only; Unicode case mapping is not modelled.
- `ClientApp.User` has string `firstName`/`lastName`; the text "undefined" that a missing name gives in a template literal is not modelled.
- `MaxId`: ids are integers; floating-point ids and the `RangeError` that spreading a very long array into `Math.max` raises are not modelled.
- `UserRoutes.Body` holds each member as a string or `null`/missing; other JSON values (numbers, booleans, objects), whose falsiness differs, are not modelled.
- Route ids are integers; that `req.params.id` is a string, and how MySQL compares it with the id column, are not modelled. Update echoes whatever id it was given.
- `UserModel.Listing` returns rows in ascending id order. `SELECT * FROM users` has no `ORDER BY`, so the source promises no order; this model fixes one.
- Connection-pool queueing, the limit of 10 connections and the pool's construction from environment variables are not modelled; only the balance of taken and released connections is.
- SQL text and MySQL semantics are abstracted to a map; a rejected statement changes nothing, and an insert that fails does not use up an id.
- `error.message` is always a string here; an error without a message, which omits `details`, is not modelled.
- Concurrency of `async` handlers and `console.error` logging are left out.
- `backend/server.js` (Express wiring, path aliases, health endpoint, catch-all 404 and error middleware) is not part of this model.
