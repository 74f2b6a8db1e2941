# Point-of-sale client: session, order draft and management forms

A Dafny model of the state logic of a React point-of-sale client whose users
manage categories, items, stock and orders through a REST backend. Three
pieces of state are modelled:

- **The session** (`AuthProvider`): `isAuthenticated`, the JWT held in memory,
  the `loading` flag and the durable key `"token"` in browser storage. It has
  three transitions: `login`, `logout` and the restore effect that runs on
  mount. A render gate shows a placeholder until the restore has run.
- **The order draft** (order page): a sparse map `itemId -> quantity`. The
  quantity inputs overwrite one entry at a time. Placing an order posts one
  line per entry whose quantity is positive. Success empties the draft;
  failure keeps it.
- **The item, stock and category forms**: form fields plus `editMode` and the
  id of the row being edited. Editing loads a row, reset clears the form, and
  a save updates the current row or adds a new one. A successful save clears
  the form; a failed one leaves it unchanged.

Modules:

| file | module | what it holds |
|---|---|---|
| wrappers.dfy | `Wrappers` | `Option`, for JavaScript's `T \| null` |
| js_values.dfy | `JsValues` | `parseInt` (integer or NaN), `String(n)`, truthiness |
| requests.dfy | `Requests` | request outcome, `Bearer ${token}` header, the shared update-or-add decision |
| auth_context.dfy | `AuthContext` | session values, `Step`/`Run`, the invariant, class `AuthProvider` |
| pos_management.dfy | `PosManagement` | `Object.entries` key order, the line build, class `PosPage` |
| item_management.dfy, stocks_management.dfy, category_management.dfy | one module each | form values and a page class with its handlers |

How the model replaces what it cannot run:

- Each HTTP call is the request value a handler would send: target id,
  payload and Authorization header. The handler takes the server's answer as
  a parameter `outcome` (`Succeeded` or `Failed`).
- Re-fetching a list after a mutation is not awaited in the source. It is a
  returned flag (`refetch`, `refetchOrders`).
- The management pages read `localStorage.getItem('token')` for every save and
  delete request (and for the category list fetch); there it is the parameter
  `storedToken`. The order page, like the item and stock list fetches, uses the
  in-memory token; there it is the parameter `jwtToken`. In `AuthProvider` the storage is
  the field `storage`. A new process is the constructor applied to the same
  storage map.

Where the code departs from the intended behaviour, the model follows the code:

- The order page sends its post even when no one is logged in. A null token is
  rendered into the header as `Bearer null`. There is no local refusal and no
  latch against a second submission while one is in flight.
- The lines come out in ascending item-id order, not in the order the
  quantities were set. This is the order `Object.entries` gives integer-like
  keys (OrdinaryOwnPropertyKeys, section 10.1.11.1 of ECMAScript 2022).
- An empty or all-zero draft still posts an order with no lines.
- `login` accepts the empty token. A reload then drops the session, because
  the restore effect ignores a falsy stored token (`EmptyTokenLostOnReload`).

## Model

| member | source | states |
|---|---|---|
| `AuthContext.FreshState` | src/context/AuthContext.tsx:14-16 | a new process starts unauthenticated, with no token, loading, consistent, and shows only the placeholder |
| `AuthContext.LoginEffect` | src/context/AuthContext.tsx:18-22 | after `login(t)`: authenticated, token `t` in memory and in storage, `loading` unchanged |
| `AuthContext.LogoutEffect` | src/context/AuthContext.tsx:24-28 | after `logout()`: unauthenticated, no token in memory or storage, `loading` unchanged; a second logout changes nothing |
| `AuthContext.RestoreEffect` | src/context/AuthContext.tsx:30-37 | restore always clears `loading` and leaves storage alone; it adopts a truthy stored token; with an absent or empty stored token it changes nothing else |
| `AuthContext.StepPreservesConsistency` | src/context/AuthContext.tsx:14-37 | each transition keeps the invariant: authenticated iff a token is held, a held token is the stored one, and a settled unauthenticated session has no usable stored token |
| `AuthContext.RunPreservesConsistency` | src/context/AuthContext.tsx:14-37 | the invariant holds after any sequence of transitions |
| `AuthContext.LoadingOnlyCleared` | src/context/AuthContext.tsx:18-36 | no sequence of transitions sets `loading` back to true; once it is false the children stay rendered |
| `AuthContext.RestoreOpensGate` | src/context/AuthContext.tsx:36-41 | after the restore effect, whatever follows, `loading` is false and the children are rendered |
| `AuthContext.ReloadRestoresSession` | src/context/AuthContext.tsx:31-35 | a new process restoring from the storage of a settled, consistent session with a non-empty token (or none) reproduces that session exactly |
| `AuthContext.LoginSurvivesReload` | src/context/AuthContext.tsx:21 | after `login(t)` with `t` non-empty, a new process restoring from the same storage ends in the same session |
| `AuthContext.LogoutSurvivesReload` | src/context/AuthContext.tsx:27 | after `logout()`, a new process restoring from the same storage ends logged out too |
| `AuthContext.EmptyTokenLostOnReload` | src/context/AuthContext.tsx:32 | `login("")` authenticates, but a reload from the resulting storage does not |
| `AuthContext.MemoryAndStorageHeadersAgree` | src/context/AuthContext.tsx:18-22 | in a consistent authenticated session, the in-memory token and the stored token give the same Authorization header |
| `AuthContext.Step` | src/context/AuthContext.tsx:18-37 | login sets the flag and puts the token in memory and storage; logout clears all three; only the restore effect touches `loading`, clearing it and leaving storage alone |
| `AuthContext.Render` | src/context/AuthContext.tsx:41 | the children are rendered exactly when `loading` is false |
| `AuthContext.AuthProvider.constructor` | src/context/AuthContext.tsx:14-16 | the provider starts in the fresh state over the surviving storage, with the invariant established |
| `AuthContext.AuthProvider.Login` | src/context/AuthContext.tsx:18-22 | the in-place login: the new state is `Step(old, LoggedIn(token))`, token in memory and storage, invariant kept |
| `AuthContext.AuthProvider.Logout` | src/context/AuthContext.tsx:24-28 | the in-place logout: the new state is `Step(old, LoggedOut)`, token removed from memory and storage, invariant kept |
| `AuthContext.AuthProvider.RestoreSession` | src/context/AuthContext.tsx:30-37 | the in-place restore effect: the new state is `Step(old, Restored)`, `loading` cleared, a truthy stored token adopted, invariant kept |
| `AuthContext.AuthProvider.Rendered` | src/context/AuthContext.tsx:41 | the placeholder is shown exactly while `loading` is true |
| `JsValues.ParseInt` | src/pages/StocksManagement.tsx:116 | `parseInt` of an empty string is NaN, of a string of digits its decimal value, and it yields a number only when the input holds a digit |
| `JsValues.ParseIntToString` | src/pages/POSManagement.tsx:64 | `parseInt(String(n))` gives back `n` for every safe integer, so every array-index key parses back to its item id |
| `JsValues.DigitRun` | src/pages/StocksManagement.tsx:116 | the digit run `parseInt` reads is a prefix of its input made of digits, stopped by a non-digit or by the end |
| `Requests.BearerHeader` | src/pages/ItemManagement.tsx:52-56 | the header is `Bearer ` followed by the token, or by the text `null` when there is none |
| `Requests.DecideSave` | src/pages/ItemManagement.tsx:57-63 | a save is an update of the current id iff edit mode holds and the id is neither null nor 0; otherwise it is an add; the payload and header pass through unchanged |
| `PosManagement.SortedKeys` | src/pages/POSManagement.tsx:61 | `Object.entries` visits integer-like keys exactly once each, in strictly ascending order |
| `PosManagement.Entries` | src/pages/POSManagement.tsx:61 | one `[String(id), quantity]` pair per draft entry, in ascending id order |
| `PosManagement.PositiveEntries` | src/pages/POSManagement.tsx:62 | the filter keeps, as a set, exactly the pairs whose quantity is positive, and no more pairs than it was given; that it keeps their order is proved by `PosManagement.BuildOrderLinesSpec` |
| `PosManagement.ToLines` | src/pages/POSManagement.tsx:63-66 | the map yields one line `{itemId: parseInt(key), quantity}` per pair, in the same order |
| `PosManagement.BuildOrderLines` | src/pages/POSManagement.tsx:61-66 | the built lines number at most the draft's entries and each carries a positive quantity |
| `PosManagement.BuildOrderLinesSpec` | src/pages/POSManagement.tsx:61-66 | the filter/map over the entries equals one line `{itemId, quantity}` per draft id with a positive quantity, in ascending id order |
| `PosManagement.OrderLinesOrdered` | src/pages/POSManagement.tsx:61-66 | as many lines as selected ids; each line has a numeric id and a positive quantity; ids strictly ascend, so none repeats |
| `PosManagement.OrderLinesComplete` | src/pages/POSManagement.tsx:61-66 | a draft entry appears as a line carrying its id and quantity iff its quantity is positive; zero, negative and NaN entries are dropped |
| `PosManagement.NothingSelectedNoLines` | src/pages/POSManagement.tsx:61-77 | an empty or all-non-positive draft yields an empty line list |
| `PosManagement.BuildOrderLinesExample` | src/pages/POSManagement.tsx:61-66 | `{1: 0, 2: -1, 3: 5}` yields exactly `[{itemId: 3, quantity: 5}]` |
| `PosManagement.PosPage.constructor` | src/pages/POSManagement.tsx:24 | the draft starts empty |
| `PosManagement.PosPage.HandleQuantityChange` | src/pages/POSManagement.tsx:53-58 | overwrites the entry for the id and keeps every other entry; a zero or negative quantity stays in the draft |
| `PosManagement.PosPage.HandlePlaceOrder` | src/pages/POSManagement.tsx:60-85 | posts the lines built from the draft with the in-memory token, unconditionally; on success it re-fetches orders and empties the draft; on failure the draft is unchanged |
| `ItemManagement.CategoryIdFromInput` | src/pages/ItemManagement.tsx:147 | the category-id input always yields a number; an emptied field yields NaN, not null |
| `ItemManagement.SaveAfterEdit` | src/pages/ItemManagement.tsx:57-63 | saving right after editing a row updates that row with the row's name, price, quantity and category, unless its id is 0, which adds instead |
| `ItemManagement.BlankFormNotSubmittable` | src/pages/ItemManagement.tsx:119-151 | the blank form `resetForm` leaves is never submitted, because its required name and category fields are empty; the handler alone would add the default values |
| `ItemManagement.EditedFormSubmittable` | src/pages/ItemManagement.tsx:119-151 | a row loaded for editing can be submitted unchanged exactly when its name is non-empty and its category id is not 0 |
| `ItemManagement.ItemPage.constructor` | src/pages/ItemManagement.tsx:19-24 | the form starts blank: name `''`, price 0, quantity 0, category null, not editing, no current id |
| `ItemManagement.ItemPage.HandleEditItem` | src/pages/ItemManagement.tsx:98-105 | copies the row's name, price, quantity and category into the form, sets edit mode and the current id to the row's id |
| `ItemManagement.ItemPage.ResetForm` | src/pages/ItemManagement.tsx:107-114 | restores the blank form |
| `ItemManagement.ItemPage.HandleQuantityInput` | src/pages/ItemManagement.tsx:139 | sets the quantity to `parseInt` of the input and changes no other field; an emptied field stores NaN, so the form cannot be submitted |
| `ItemManagement.ItemPage.HandleCategoryIdInput` | src/pages/ItemManagement.tsx:147 | sets the category id to `parseInt` of the input and changes no other field |
| `ItemManagement.ItemPage.HandleSaveItem` | src/pages/ItemManagement.tsx:42-75 | sends the update-or-add request whose payload is the current form fields; success re-fetches and resets; failure leaves the form unchanged |
| `ItemManagement.ItemPage.HandleDeleteItem` | src/pages/ItemManagement.tsx:77-96 | with no stored token, or an empty one, sends nothing and reports the error; otherwise sends the delete with that token and re-fetches on success; the form is untouched |
| `StocksManagement.ItemIdFromInput` | src/pages/StocksManagement.tsx:124 | an empty item-id input gives null, any other input `parseInt` of it |
| `StocksManagement.ItemIdText` | src/pages/StocksManagement.tsx:123 | the item-id field shows an empty text exactly for null, 0 and NaN |
| `StocksManagement.ItemIdFieldRoundTrip` | src/pages/StocksManagement.tsx:123-124 | for safe-integer ids, reading back what the item-id field shows keeps a truthy id and turns null, 0 and NaN into null |
| `StocksManagement.BlankFormNotSubmittable` | src/pages/StocksManagement.tsx:119-127 | the blank form is never submitted, because its required item-id field shows empty |
| `StocksManagement.SaveAfterEdit` | src/pages/StocksManagement.tsx:61-71 | saving right after editing a stock row updates that row with its quantity and item id, unless its id is 0, which adds instead |
| `StocksManagement.StocksPage.constructor` | src/pages/StocksManagement.tsx:16-19 | the form starts blank: quantity 0, item id null, not editing, no current id |
| `StocksManagement.StocksPage.HandleEditStock` | src/pages/StocksManagement.tsx:92-97 | sets quantity and item id from the row, edit mode on, current id to the row's id |
| `StocksManagement.StocksPage.ResetForm` | src/pages/StocksManagement.tsx:99-104 | restores the blank form |
| `StocksManagement.StocksPage.HandleQuantityInput` | src/pages/StocksManagement.tsx:116 | sets the quantity to `parseInt` of the input and changes no other field |
| `StocksManagement.StocksPage.HandleItemIdInput` | src/pages/StocksManagement.tsx:124 | sets the item id from the input (empty gives null) and changes no other field |
| `StocksManagement.StocksPage.HandleSaveStock` | src/pages/StocksManagement.tsx:48-78 | sends the update-or-add request with payload `{quantity, itemId}` from the form; success re-fetches and resets; failure leaves the form unchanged |
| `StocksManagement.StocksPage.HandleDeleteStock` | src/pages/StocksManagement.tsx:80-90 | always sends the delete with the stored token, even a missing one, and re-fetches on success; the form is untouched |
| `CategoryManagement.SubmittableForms` | src/pages/CategoryManagement.tsx:96-103 | the blank form is never submitted; a category loaded for editing is, unless its name is empty |
| `CategoryManagement.SaveAfterEdit` | src/pages/CategoryManagement.tsx:41-47 | saving right after editing a category renames that category, unless its id is 0, which adds instead |
| `CategoryManagement.CategoryPage.constructor` | src/pages/CategoryManagement.tsx:9-11 | the form starts blank: name `''`, not editing, no current id |
| `CategoryManagement.CategoryPage.HandleEditCategory` | src/pages/CategoryManagement.tsx:78-82 | sets the name from the category, edit mode on, current id to the category's id |
| `CategoryManagement.CategoryPage.ResetForm` | src/pages/CategoryManagement.tsx:85-89 | restores the blank form |
| `CategoryManagement.CategoryPage.HandleSaveCategory` | src/pages/CategoryManagement.tsx:30-59 | sends the update-or-add request with payload `{name}`; success re-fetches and resets; failure leaves the form unchanged |
| `CategoryManagement.CategoryPage.HandleDeleteCategory` | src/pages/CategoryManagement.tsx:62-75 | sends the delete with the stored token and re-fetches on success; the form is untouched |

## Left out

- HTTP calls, URLs, `alert` and `console` output are left out. Each request is the value the handler would send; the server's answer is a parameter.
- The list fetches (`fetchItems`, `fetchOrders`, `fetchStocks`, `fetchCategories`) and the tables that show their results are left out. Only the request to re-fetch is modelled.
- The `useEffect` hooks that re-fetch when the token changes are left out. They, and any interleaving of pending requests, are scheduling concerns with no stated guarantee.
- JSX rendering, styling, the home page's button grid and the route table are left out. The `ProtectedRoute` component the route table uses is not part of this model; the only gate modelled is the loading check of the session provider.
- The login page is left out because it is driven by the network. It calls `login` with the server's response on success. Its empty-field check sets an error but does not return, so the request is sent anyway.
- Item prices are `real` values. `parseFloat` on the price input is not modelled, and neither is the `toFixed` or date formatting of the order table.
- The name inputs of the item and category forms are plain setters and are not modelled as methods. The item page's price input (`parseFloat`) is not modelled as a method either.
- `JsValues.ParseInt`: does not model leading whitespace or the `0x` prefix, which a number input's value never contains. It also does not model `-0` as distinct from 0; both are falsy and neither is positive.
- `JsValues.Number`: integers are unbounded. JavaScript numbers are doubles, so `parseInt` rounds a digit run beyond 2^53 and `String(n)` switches to exponent notation once |n| reaches 10^21 (the text `1e+21` parses back to 1). `ParseIntToString` and `StocksManagement.ItemIdFieldRoundTrip` are therefore stated for safe integers only (|n| <= 2^53 - 1), which covers every array-index item id.
- `ItemManagement.ItemPage.HandleSaveItem`, `StocksManagement.StocksPage.HandleSaveStock`, `CategoryManagement.CategoryPage.HandleSaveCategory`: the browser's `required`-field check, which keeps `onSubmit` from firing while a shown field is empty, is a separate predicate `Submittable` per form. The handlers do not require it; they state what the handler does with any form it is given.
- `PosManagement.PosPage.HandleQuantityChange`: item ids are limited to array-index keys (0 to 2^32 - 2). The source lists other numeric keys after these, in insertion order, and the model does not capture that.
- `PosManagement.PosPage.HandlePlaceOrder`: the in-flight latch and the local "not authenticated" refusal are absent from the source, so they are not modelled.
