# Incbyte sweets shop — client inventory and cart core in Dafny

This project models the client-side core of the Incbyte sweets shop, a
storefront where customers browse a catalogue of sweets, fill a cart and buy,
and admins add, edit, restock and delete sweets. The model covers:

- **The cart store** (`CartStore`, `cart_store.dfy`). The cart holds one line
  per sweet: a snapshot of the sweet plus the quantity wanted. It also holds
  the open/closed flag of the cart panel.
  - Adding, removing and re-quantifying lines is reconciled against the stock
    the sweet carries.
  - The selectors sum the count and the total price.
- **The in-memory backend** (`MockApi`, `mock_api.dfy`). It holds a catalogue
  of sweets, a user table keyed by e-mail and two id counters.
  - Every call resolves with a value or rejects with a status and message:
    401, 404, 400 or 409.
- **The stand-in authentication service** (`AuthService`, `auth_service.dfy`).
  This is a second user list whose login never reads the password.
- **The session store** (`AuthStore`) and **the UI store** (`UiStore`). The
  latter holds the records of the "fly to cart" animations in flight.
- **The catalogue toolbar** (`SweetsToolbar`). It derives the search parameters
  and the active-filter badge from the search box, the category select and the
  price slider.
- **The two dialogs** (`SweetFormDialog`, `RestockDialog`), over the shared
  numeric field value of `FormInput`:
  - the sweet schema and the values the form opens with;
  - the restock schema, the new-total preview and the quick-add buttons.
- **The two route guards** (`AuthGuard`, `AdminGuard`).

Stores whose fields are overwritten in place are classes:

- `Cart`, `MockBackend`, `MockAuthService`, `AuthState`, `UiState`,
  `Toolbar` and `RestockForm`, each with `modifies this` methods;
- `Cart`, `MockBackend`, `MockAuthService` and `Toolbar` keep a `Valid()`
  predicate as their invariant;
- `AuthState` keeps `Consistent(Snapshot())`: the authenticated flag is set
  exactly when both a user and a token are held;
- `UiState` and `RestockForm` need no invariant beyond their field types.

The filters, sums, schemas and decision tables are functions with lemmas about
them. `Seqs` and `Strings` hold the list and text helpers the core relies on:

- filter, first index and subsequence;
- lower-casing, substring search and decimal numerals.

Prices are whole rupees.

## Model

| member | source | states |
|---|---|---|
| CartStore.FindLine | src/store/cartStore.ts:29 | the index found holds a line of the sweet; nothing is found exactly when no line carries the id |
| CartStore.WithQuantityChangesOneLine | src/store/cartStore.ts:42-48 | with one line per sweet, the `map` of `addItem` changes only the sweet's own line, in place, and lines stay one per sweet |
| CartStore.ClampToStock | src/store/cartStore.ts:64-69 | a request above the stock becomes the stock; a request within [0, stock] is kept; a negative request not above the stock becomes 0, so the line is later dropped; the result is never negative or above a non-negative stock |
| CartStore.WithQuantity | src/store/cartStore.ts:43-47 | the lines keep their number, order and sweets; each line of the id gets the new quantity and every other line keeps its own |
| CartStore.RaiseLine | src/store/cartStore.ts:42-48 | the cart keeps its length; the line at k keeps its sweet and wants the amount more; every other line is unchanged |
| CartStore.RaiseLineKeepsCart | src/store/cartStore.ts:30-48 | raising the one line of a sweet to within its stock is exactly the `map` of `addItem` (`WithQuantity` with the raised quantity); it keeps one line per sweet, keeps that sweet's lines within stock and grows the count by the amount |
| CartStore.AppendLineKeepsCart | src/store/cartStore.ts:50-51 | appending a line for a sweet not yet in the cart, within stock, keeps one line per sweet, keeps that sweet's lines within stock and grows the count by the line's quantity |
| CartStore.WithClampedQuantity | src/store/cartStore.ts:63-71 | the lines keep their number and order; a line of another sweet is unchanged; a line of the id keeps its sweet and its quantity becomes the request clamped to that sweet's stock |
| CartStore.CartCount | src/store/cartStore.ts:97 | with no negative quantity the count is not negative; with all quantities positive it is at least the number of lines |
| CartStore.TotalPrice | src/store/cartStore.ts:98 | with no negative price or quantity the total is not negative |
| CartStore.EmptyCartTotals | src/store/cartStore.ts:95-99 | an empty cart has count 0 and total 0 |
| CartStore.CartCountAppend | src/store/cartStore.ts:97 | the count of a concatenation is the sum of the counts |
| CartStore.TotalPriceAppend | src/store/cartStore.ts:98 | the total of a concatenation is the sum of the totals |
| CartStore.CartCountReplace | src/store/cartStore.ts:97 | replacing one line moves the count by exactly the difference in quantity |
| CartStore.TotalPriceReplace | src/store/cartStore.ts:98 | replacing one line moves the total by exactly the difference of the line totals |
| CartStore.Cart.constructor | src/store/cartStore.ts:24-25 | the cart starts empty and closed |
| CartStore.Cart.AddItem | src/store/cartStore.ts:27-54 | a request above stock, or raising an existing line above stock, changes nothing. Otherwise a new sweet is appended as one line, or only the existing line grows by the quantity, in place. A successful add leaves the line within stock, grows the count by the quantity and keeps one line per sweet |
| CartStore.Cart.RemoveItem | src/store/cartStore.ts:56-59 | every line of the sweet goes; the others stay, in order; an absent id changes nothing |
| CartStore.Cart.UpdateItemQuantity | src/store/cartStore.ts:61-74 | the sweet's line gets the request clamped to its stock, and then every line with a quantity that is not positive is dropped. Other lines are untouched and all remaining quantities are positive |
| CartStore.Cart.ClearCart | src/store/cartStore.ts:76-78 | no lines remain; the panel flag is kept |
| CartStore.Cart.ToggleCart | src/store/cartStore.ts:80-82 | the panel flag flips; the lines are kept |
| CartStore.Cart.SetCartOpen | src/store/cartStore.ts:84-86 | the panel flag becomes the argument; the lines are kept |
| CartStore.ToggleTwiceRestores | src/store/cartStore.ts:80-82 | two toggles restore the panel flag and the lines |
| MockApi.FindSweet | src/services/mockApi.ts:96 | the index found holds the id; nothing is found exactly when no sweet has the id |
| MockApi.SearchSweets | src/services/mockApi.ts:66-81 | the result keeps catalogue order (a subsequence) and holds exactly the sweets that match every supplied filter: a case-insensitive substring of the name or description, the exact category, the inclusive price range. An empty query or category imposes nothing |
| MockApi.SearchWithoutParamsIsIdentity | src/services/mockApi.ts:66-81 | a search without parameters returns the whole catalogue, in order |
| MockApi.QueryIgnoresCase | src/services/mockApi.ts:69-73 | the case of the query does not change the verdict |
| MockApi.QueryMatchesAtOffset | src/services/mockApi.ts:69-73 | a query matches exactly when the lower-cased query occurs at some offset of the lower-cased name or description |
| MockApi.Merge | src/services/mockApi.ts:99 | each field the payload supplies replaces the stored one and the others are kept; id and creation time are kept; the update time is the new time |
| Seqs.ReplaceKeepsKeysDistinct | src/services/mockApi.ts:95-127 | replacing an element by one with the same key keeps the keys distinct; used for every in-place update of a sweet and of a cart line |
| MockApi.SeedSweet | src/services/mockApi.ts:7-18 | the k-th seeded sweet has id k + 1 |
| MockApi.SeedCatalogue | src/services/mockApi.ts:7-18 | ten seeded sweets with ids 1 to 10 in order |
| MockApi.MockBackend.constructor | src/services/mockApi.ts:7-27 | the seeded catalogue; exactly three users keyed by their e-mails: id 1 "Admin" with the admin role, id 2 "User" and id 3 "Demo User" with the user role, each with the password "password"; counters 11 and 4; ids unique and below the counters |
| MockApi.SeededLoginScenario | src/services/mockApi.ts:20-47 | each seeded account logs in with "password", the admin receiving its own record with the admin role and the first token; a wrong password is refused with 401 |
| MockApi.MockBackend.Login | src/services/mockApi.ts:41-47 | succeeds exactly when the e-mail is registered with this password, returning the stored user; otherwise 401 "Invalid email or password" |
| MockApi.MockBackend.Register | src/services/mockApi.ts:49-62 | a taken e-mail gives 409 and nothing changes. Otherwise a user with the old counter as id and role `user` is stored under the e-mail with the password, and the counter grows by one. A later login with that e-mail and password succeeds |
| MockApi.MockBackend.GetSweets | src/services/mockApi.ts:66-82 | returns the search result and modifies nothing |
| MockApi.MockBackend.AddSweet | src/services/mockApi.ts:84-93 | the new sweet, with the old counter as id, goes to index 0; the counter grows by one; the id is new and ids stay unique |
| MockApi.MockBackend.UpdateSweet | src/services/mockApi.ts:95-101 | an unknown id gives 404 and nothing changes; otherwise only that sweet is replaced by the merge, at the same position |
| MockApi.MockBackend.DeleteSweet | src/services/mockApi.ts:103-109 | an unknown id gives 404 and nothing changes; otherwise exactly that sweet is spliced out, the length drops by one and the rest keep their order |
| MockApi.MockBackend.PurchaseSweet | src/services/mockApi.ts:111-119 | an unknown id gives 404; stock below the quantity gives 400 and nothing changes; otherwise only that sweet's stock drops by exactly the quantity |
| MockApi.MockBackend.UpdateSweetQuantity | src/services/mockApi.ts:121-128 | an unknown id gives 404 and nothing changes; otherwise only that sweet's stock becomes the new quantity |
| AuthService.TokensIdentifyUsers | src/services/auth.service.ts:21 | two tokens are equal exactly when the user ids are, and the digits after the prefix read back as the id |
| AuthService.FindByEmail | src/services/auth.service.ts:18 | the index found is the first user with the e-mail; nothing is found exactly when no user has it |
| AuthService.SeedUsers | src/services/auth.service.ts:5-9 | the three seeded users have distinct e-mails and ids, all below 101 |
| AuthService.MockAuthService.constructor | src/services/auth.service.ts:5-11 | the seeded users and the counter 101 satisfy the invariant |
| AuthService.MockAuthService.Login | src/services/auth.service.ts:14-27 | succeeds exactly when some user has the e-mail, whatever the password, returning the first such user and `mock-jwt-token-<id>`; otherwise 401 "Invalid credentials" |
| AuthService.MockAuthService.Register | src/services/auth.service.ts:28-51 | a present e-mail gives 409 and nothing changes. Otherwise one user with the old counter as id and role `user` is appended, the counter grows by one, and the token matches. E-mails stay unique and a later lookup finds the new user |
| AuthStore.AuthState.constructor | src/store/authStore.ts:16-18 | the store starts signed out, with the flag consistent |
| AuthStore.AuthState.Login | src/store/authStore.ts:19-20 | user and token are set and the flag is true, consistently |
| AuthStore.AuthState.Logout | src/store/authStore.ts:21-25 | from any state the store returns to signed out, so logging out twice equals once and login then logout restores the fresh store |
| UiStore.RemoveAbsentIsNoop | src/store/uiStore.ts:26-29 | removing an id no record has leaves the list unchanged |
| UiStore.AddThenRemoveRestores | src/store/uiStore.ts:22-29 | adding a record with a fresh id and removing that id restores the list |
| UiStore.UiState.constructor | src/store/uiStore.ts:19-21 | no icon reference and no records |
| UiStore.UiState.SetCartIconRef | src/store/uiStore.ts:20 | only the icon reference changes |
| UiStore.UiState.AddFlyingItem | src/store/uiStore.ts:22-25 | exactly one record with the given image and rectangle is appended; earlier records are unchanged |
| UiStore.UiState.RemoveFlyingItem | src/store/uiStore.ts:26-30 | every record with the id goes; the others stay in order; an absent id changes nothing |
| SweetsToolbar.BuildParams | src/components/sweets/SweetsToolbar.tsx:33-41 | the query key is present exactly when the debounced query is non-empty; likewise the category; the range key exactly when the range is not [0, 50]; each present key carries its value |
| SweetsToolbar.KeyCount | src/components/sweets/SweetsToolbar.tsx:34-39 | at most 3 keys, and 0 exactly for the empty parameters |
| SweetsToolbar.ActiveFiltersCount | src/components/sweets/SweetsToolbar.tsx:27-31 | the badge counts at most the three filters |
| SweetsToolbar.ActiveCountMatchesParams | src/components/sweets/SweetsToolbar.tsx:27-39 | the badge equals the number of keys emitted, is at most 3, and is 0 exactly when nothing is emitted |
| SweetsToolbar.DefaultStateUnfiltered | src/components/sweets/SweetsToolbar.tsx:20-31 | the state at rest emits no parameters and a badge of 0 |
| SweetsToolbar.SelectedCategory | src/components/sweets/SweetsToolbar.tsx:49-51 | "all" clears the category; any other choice is kept |
| SweetsToolbar.Toolbar.constructor | src/components/sweets/SweetsToolbar.tsx:20-25 | everything at rest, emitting nothing |
| SweetsToolbar.Toolbar.SetQuery | src/components/sweets/SweetsToolbar.tsx:60-77 | only the box text changes; the emitted parameters do not change until the debounce |
| SweetsToolbar.Toolbar.DebounceElapsed | src/components/sweets/SweetsToolbar.tsx:25 | the debounced query catches up with the box; the query key is emitted exactly when it is non-empty |
| SweetsToolbar.Toolbar.HandleCategoryChange | src/components/sweets/SweetsToolbar.tsx:49-51 | only the category changes; choosing "all" emits no category |
| SweetsToolbar.Toolbar.SetPriceRange | src/components/sweets/SweetsToolbar.tsx:150-156 | only the range changes, staying within [0, 50]; the range key is emitted exactly when it is not the full range |
| SweetsToolbar.Toolbar.HandleReset | src/components/sweets/SweetsToolbar.tsx:43-47 | box, category and range return to rest. Until the debounce fires, only the previously debounced query may still be emitted, counting at most 1 |
| SweetsToolbar.ResetThenSettle | src/components/sweets/SweetsToolbar.tsx:25-47 | a reset followed by the debounce emits nothing and shows a badge of 0, from any state |
| FormInput.ToNumber | src/components/sweets/SweetFormDialog.tsx:17-18 | a number reads as itself and the empty text as 0; a text that reads as a number is a numeral (an optional minus, then digits); a text of digits always reads as a non-negative number |
| FormInput.NumberOrZero | src/components/sweets/RestockDialog.tsx:49 | the entry's number, or 0 when it is not a number |
| FormInput.TypedNumeralReadsBack | src/components/sweets/SweetFormDialog.tsx:17-18 | typing the decimal numeral of n coerces to n, as holding n does |
| Strings.Utf16Length | src/components/sweets/SweetFormDialog.tsx:15 | a string's length in UTF-16 code units lies between its number of characters and twice that, and equals it when every character is in the Basic Multilingual Plane |
| SweetFormDialog.AstralCharactersCountTwice | src/components/sweets/SweetFormDialog.tsx:15 | a name of two emoji outside the Basic Multilingual Plane is four code units long and passes the 3-character rule; a two-letter name fails it |
| SweetFormDialog.Errors | src/components/sweets/SweetFormDialog.tsx:14-21 | the fields listed, in form order, are exactly those failing their rule |
| SweetFormDialog.Validate | src/components/sweets/SweetFormDialog.tsx:14-21 | accepted exactly when all six rules hold. The dto then has a name of at least 3 UTF-16 code units, a non-empty category, integer price >= 1 and quantity >= 0 coerced from the fields, and a description that is null or at least 10 code units long. Otherwise the failing fields are reported |
| SweetFormDialog.OpenValues | src/components/sweets/SweetFormDialog.tsx:36-54 | opening without a sweet gives the blank defaults ('', '', 1, 0, null, null); with a sweet it gives that sweet's fields |
| SweetFormDialog.BlankFormRejected | src/components/sweets/SweetFormDialog.tsx:36-43 | the blank defaults fail, on exactly the name and the category |
| SweetFormDialog.EditUnchangedRoundTrip | src/components/sweets/SweetFormDialog.tsx:50-53 | opening on a sweet that meets the rules and saving unchanged yields that sweet's own fields |
| SweetFormDialog.WithoutImage | src/components/sweets/SweetFormDialog.tsx:83 | the image becomes null |
| SweetFormDialog.WithUploadedImage | src/components/sweets/SweetFormDialog.tsx:65-69 | the image becomes the object URL of the upload |
| SweetFormDialog.ImageChangesOnlyAffectImageRule | src/components/sweets/SweetFormDialog.tsx:20 | removing the image, or uploading one with a "blob:" URL, always passes the image rule and leaves every other field's verdict unchanged |
| SweetFormDialog.ClearedNumberBoxes | src/components/sweets/SweetFormDialog.tsx:17-18 | a cleared quantity box reads 0 and passes; a cleared price box reads 0 and fails |
| RestockDialog.RestockValid | src/components/sweets/RestockDialog.tsx:12-14 | a valid entry reads as a number of at least 1; an entry that is not a number, the empty text and 0 are refused; the default 10 is accepted |
| RestockDialog.NewTotal | src/components/sweets/RestockDialog.tsx:49 | a valid entry makes the preview exceed the stock; an entry that is not a number leaves it at the stock |
| RestockDialog.QuickAddAsWritten | src/components/sweets/RestockDialog.tsx:74 | on a number or the empty text the handler adds as intended; on any other typed text the field stays text that starts with the typed text and is longer, the amount's digits appended |
| RestockDialog.QuickAddAsWrittenConcatenates | src/components/sweets/RestockDialog.tsx:74 | the quick-add as written turns the typed "25" and +10 into "2510", moving the preview by 2510 instead of 10 |
| RestockDialog.QuickAdded | src/components/sweets/RestockDialog.tsx:74 | the corrected quick-add holds the entry's number (0 if none) plus the amount |
| RestockDialog.QuickAddMovesPreviewByAmount | src/components/sweets/RestockDialog.tsx:48-49 | after a quick-add of 10, 25, 50 or 100 the preview grows by exactly that amount, and a non-negative entry becomes valid |
| RestockDialog.RestockForm.constructor | src/components/sweets/RestockDialog.tsx:26-30 | the field starts at 10, which is valid |
| RestockDialog.RestockForm.Type | src/components/sweets/RestockDialog.tsx:55-62 | the field holds the typed text |
| RestockDialog.RestockForm.QuickAdd | src/components/sweets/RestockDialog.tsx:68-79 | the field becomes its number plus the amount |
| RestockDialog.RestockForm.Close | src/components/sweets/RestockDialog.tsx:32-36 | the field returns to 10 |
| RestockDialog.RestockForm.Submit | src/components/sweets/RestockDialog.tsx:115 | a quantity is submitted exactly when the entry is an integer >= 1, and it is that integer |
| AuthGuard.Decide | src/components/auth/AuthGuard.tsx:10-29 | a private page without a session goes to /login carrying the location; a public-only page with a session goes to /; every other combination renders, and exactly one of the three happens |
| AuthGuard.OutcomeIgnoresLocation | src/components/auth/AuthGuard.tsx:14-26 | only the two flags choose the outcome and its target |
| AuthGuard.PrivatePageNeedsSession | src/components/auth/AuthGuard.tsx:11-19 | with a consistent session store, a private page renders exactly when both a user and a token are held |
| AdminGuard.DecideAdmin | src/components/auth/AdminGuard.tsx:10-23 | without a session it goes to /login with the location; a signed-in non-admin goes to /dashboard with the access-denied notice; it renders exactly for a signed-in admin |
| AdminGuard.SessionCheckFirst | src/components/auth/AdminGuard.tsx:14-16 | without a session the user's role makes no difference, and the outcome is the private-page redirect |
| AdminGuard.AdminImpliesPrivate | src/components/auth/AdminGuard.tsx:14-23 | whenever the admin page renders, a private page would render too |

## Left out

- Network delay, promise wrapping, the zustand `persist` storage, toasts and console logging are not modelled. A rejected call is an `Err` value. Toasts are dropped, with two exceptions: `Cart.AddItem` reports its refusal as the `false` result, and the admin guard's access-denied toast is the `accessDenied` flag of `AdminGuard.AdminOutcome`. The stock-limit toast of `Cart.UpdateItemQuantity` leaves no trace beyond the clamped quantity.
- Fresh uuids and the clock are parameters:
  - `tokenId` and `freshId` stand for the generated uuids;
  - `now` stands for the ISO timestamps.
- Prices are whole rupees. The seeded decimal prices (25.99, 2.50, …) are cut to integers, and cart totals are integer sums.
- Every number is an unbounded integer. In the source, ids, `nextSweetId`, `nextUserId`, stock, quantities and cart sums are JavaScript doubles, exact only up to 2^53; past that `nextSweetId++` stops growing, so the proved facts that new ids are fresh and ids stay distinct (`MockApi.MockBackend.AddSweet`, `MockApi.MockBackend.Register`, `AuthService.MockAuthService.Register`) hold only below that bound.
- CheckoutButton's rupee-to-paise conversion and the payment flow are not part of this model; neither are the HTTP client, react-query caching, the sweets service re-export or the login and register forms.
- `Strings.ToLower` lowers only the ASCII letters A-Z, not the full Unicode case mapping of `toLowerCase`.
- `FormInput.ToNumber` is not all of JavaScript's `Number`. It reads the empty text as 0 and an optional minus sign followed by digits as that integer; every other text counts as `NaN`. So it does not model:
  - surrounding whitespace, a leading `+` or exponents;
  - decimal entries. An integral decimal such as "5.0" or "12." coerces to 5 or 12 and passes the integer rule in the source, but the model reads it as `NaN`, so `SweetFormDialog.PriceOk`, `SweetFormDialog.QuantityOk` and `RestockDialog.RestockValid` refuse entries the source accepts. A fractional entry such as "2.5" is refused by both, though the source's restock preview would show the fraction.
- A number field holding `NaN` after `setValue` is not modelled.
- `SweetFormDialog.ImageUrlOk` takes the schema library's URL check as the parameter `urlParses`, since that parser is not part of this model.
- An absent search-parameter object is modelled as `NoSearchParams`.
- `MockApi.MockBackend.GetSweets`, `MockApi.MockBackend.AddSweet`, `MockApi.MockBackend.UpdateSweet` and `MockApi.MockBackend.UpdateSweetQuantity` return copies of the sweet values. The source hands out the stored objects themselves (a shallow copy of the list for `getSweets`; the object it `unshift`s, `sweets[index]` and the stored sweet for the other three), so a later in-place purchase, which decrements `sweet.quantity`, also shows through objects handed out earlier. Values cannot express that aliasing.
- The DOM rectangle and the element reference of the UI store are opaque values (`Rect`, `ElementRef`). The debounce delay of 300 ms is a separate step, `Toolbar.DebounceElapsed`.
- `RestockDialog.RestockForm.QuickAdd` uses the corrected quick-add (see Findings), not the concatenating one. `RestockDialog.QuickAddAsWritten` keeps the behaviour as written.

## Findings

| source | as written | input that shows it | evidently intended | confidence | as-written member | corrected member |
|---|---|---|---|---|---|---|
| src/components/sweets/RestockDialog.tsx:74 | the quick-add button adds the amount to the watched field value; once the user has typed, that value is the typed text, so `+` concatenates | type "25" in the quantity box, then press +10: the field becomes "2510" and the preview jumps by 2510 | the field becomes 35 and the preview grows by 10 | medium, not executed | RestockDialog.QuickAddAsWrittenConcatenates | RestockDialog.QuickAdded |
