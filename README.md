# Theatre storefront: a Dafny model of its bookkeeping

The storefront sells theatre tickets on top of a hosted database, auth and
file-storage service. Its own logic is small and sequential. This project
models its core bookkeeping, not the pages around it:

- **The cart store** (`CartContext`). It keeps a list of cart lines, one per
  show, and offers add, remove, update-quantity and clear, plus the derived
  ticket count and price total. The lists are pure functions (`WithAdded`,
  `Without`, `UpdatedQuantity`). The `CartStore` class holds the current list
  and its methods are specified by those functions.
- **Checkout and the cart page** (`CartPage`). This covers the purchase
  records built from the cart and the `CheckoutPage` class. That class holds
  the `loading` and `error` flags, the routes pushed and the batches inserted,
  and runs the checkout steps around the backend's answers. The "−" and "+"
  quantity buttons are modelled too.
- **Show helpers** (`Theatre`): seats left, sold out, on sale, time
  formatting, and the state colours and labels.
- **The catalogue page** (`ShowsPage`): the search filter, and the sort of a
  copy of the filtered list.
- **The purchase-history page** (`HistoryPage`): the row transform with its
  defaults, status texts and the ticket-count wording.
- **The admin dashboard** (`AdminDashboard`): sales, orders and show count.
- **Image helpers** (`UploadHelpers`): file validation, the generated name,
  and the upload and delete step sequences.
- **Form rules** (`Schema`, `AuthValidation`, `PasswordResetValidation`,
  `ContactValidation`, `ProfileValidation`). Each schema is a function that
  returns the issues it reports, in the library's order, each with its field
  and message.

The backend is never called. Each answer that control flow depends on is a
parameter: the signed-in user, the insert's error, the query's rows, the
storage service's answer. These library functions are also parameters, so
nothing is assumed about them:
- `toLowerCase` becomes `lower`.
- `localeCompare` becomes `localeCompare`.
- The address check of `.email()` becomes `isEmail`.
- The storage service's public URL becomes `publicUrl`.

Prices and quantities are mathematical integers.

## Model

| member | source | states |
|---|---|---|
| CartContext.Find | contexts/CartContext.tsx:87 | finds a line exactly when some line has the id; the line found is the first one with that id |
| CartContext.Incremented | contexts/CartContext.tsx:91-95 | same length; every line of the show gets `delta` more tickets; every other line is unchanged |
| CartContext.NewLine | contexts/CartContext.tsx:98-105 | the appended line copies the show's id, name, image and description, takes the show's price or 0 when it has none, and the quantity given |
| CartContext.WithAdded | contexts/CartContext.tsx:85-107 | existing show: same length, only the show's quantity grows by the quantity (default 1), all other fields and lines unchanged; new show: the old list plus one line at the end copying id, name, image and description, price or 0 when null, and the quantity |
| CartContext.Without | contexts/CartContext.tsx:114-116 | keeps exactly the lines of other shows, so no line of the id is left; an absent id changes nothing |
| CartContext.WithoutKeepsOtherLines | contexts/CartContext.tsx:115 | every line of another show stays exactly as often as it occurred, and no line of the removed show stays |
| CartContext.WithoutKeepsOrder | contexts/CartContext.tsx:115 | removal distributes over concatenation, so the remaining lines keep their original order |
| CartContext.WithQuantity | contexts/CartContext.tsx:127-131 | same length; the show's lines take the new quantity; every other line is unchanged |
| CartContext.UpdatedQuantity | contexts/CartContext.tsx:121-132 | quantity ≤ 0 is exactly removal; otherwise only the show's quantity changes, with ids, prices, order and length kept |
| CartContext.TotalItems | contexts/CartContext.tsx:144 | the ticket count is never negative when no quantity is; how each operation moves it is stated by the totals lemmas below |
| CartContext.TotalPrice | contexts/CartContext.tsx:149-152 | the total is never negative when no line has a negative quantity or price; how each operation moves it is stated by the totals lemmas below |
| CartContext.WithoutKeepsWellFormed | contexts/CartContext.tsx:114-116 | removal keeps ids unique and quantities positive |
| CartContext.RemoveKeepsUnique | contexts/CartContext.tsx:114-116 | removal keeps at most one line per show |
| CartContext.UpdateKeepsWellFormed | contexts/CartContext.tsx:121-131 | for every quantity, the update keeps the cart well formed, since a non-positive quantity removes the line |
| CartContext.AddKeepsWellFormed | contexts/CartContext.tsx:85-107 | adding keeps at most one line per show; it keeps quantities positive when the quantity added is positive |
| CartContext.IncrementedTotals | contexts/CartContext.tsx:144-152 | with unique ids, raising a show's line by `delta` raises the ticket count by `delta` and the total by `delta` times that line's price |
| CartContext.AddedTotals | contexts/CartContext.tsx:85-152 | adding q tickets raises the ticket count by q and the total by q times the unit price (the existing line's, or the show's price or 0) |
| CartContext.WithoutTotals | contexts/CartContext.tsx:114-152 | removing a show takes its line's tickets and their price out of the totals |
| CartContext.AddThenRemove | contexts/CartContext.tsx:85-116 | adding a show and then removing it equals only removing it, and equals the old cart when the show was new |
| CartContext.UpdateIdempotent | contexts/CartContext.tsx:121-131 | setting the same quantity twice equals setting it once |
| CartContext.TicketsAtLeastLines | contexts/CartContext.tsx:144 | with positive quantities the ticket count is at least the number of lines, with equality iff every line has one ticket |
| CartContext.CartStore.constructor | contexts/CartContext.tsx:53 | the cart starts empty |
| CartContext.CartStore.AddItem | contexts/CartContext.tsx:85-109 | the new list is `WithAdded` of the old one; ids stay unique |
| CartContext.CartStore.RemoveItem | contexts/CartContext.tsx:114-116 | the new list is `Without` of the old one |
| CartContext.CartStore.UpdateQuantity | contexts/CartContext.tsx:121-132 | the new list is `UpdatedQuantity` of the old one; a non-positive quantity goes through `RemoveItem` |
| CartContext.CartStore.ClearCart | contexts/CartContext.tsx:137-139 | the cart is empty, with 0 tickets and total 0 |
| CartPage.PurchaseRecord | app/carrito/page.tsx:41-47 | one line's record: the user's id, the show's id, the quantity, unit price × quantity (never negative for a non-negative price and quantity), status 'completed' |
| CartPage.PurchaseRecords | app/carrito/page.tsx:41-47 | one record per cart line, in cart order, with the user's id, the line's show id and quantity, unit price × quantity and status 'completed' |
| CartPage.RecordsSumToCartTotal | app/carrito/page.tsx:45 | the records' `total_price` values sum to the cart's `totalPrice` |
| CartPage.RecordsCarryAllTickets | app/carrito/page.tsx:161 | the records' quantities sum to the summary's item count, the sum of the line quantities |
| CartPage.ErrorMessage | app/carrito/page.tsx:62 | the error shown is never empty: the backend's message when it is non-empty, 'Error al procesar la compra' when it is empty |
| CartPage.DecrementRemovesOneTicket | app/carrito/page.tsx:121 | "−" takes away exactly one ticket and keeps the cart well formed; on a one-ticket line it removes the line |
| CartPage.IncrementAddsOneTicket | app/carrito/page.tsx:129 | "+" adds exactly one ticket and the line's unit price to the total |
| CartPage.CheckoutPage.constructor | app/carrito/page.tsx:19-20 | not loading, no error, nothing pushed or inserted |
| CartPage.CheckoutPage.BeginCheckout | app/carrito/page.tsx:29-30 | while checkout runs the page is loading and shows no error |
| CartPage.CheckoutPage.FinishCheckout | app/carrito/page.tsx:33-65 | no user: redirect to the login page with no insert and the cart untouched; otherwise the cart's records are inserted; on an insert error the error is set and the cart and routes are untouched; on success the cart is cleared and the history page pushed; loading is false on every path |
| CartPage.CheckoutPage.HandleCheckout | app/carrito/page.tsx:27-66 | the whole handler: the outcomes above, with the error cleared first |
| CartPage.CheckoutPage.DecreaseQuantity | app/carrito/page.tsx:121 | calls `updateQuantity(id, quantity − 1)`, so a line with one ticket disappears |
| CartPage.CheckoutPage.IncreaseQuantity | app/carrito/page.tsx:129 | calls `updateQuantity(id, quantity + 1)` |
| Theatre.CuposDisponibles | types/theatre.ts:32-34 | seats left plus seats sold is the capacity, so the value is negative exactly when oversold |
| Theatre.IsAgotada | types/theatre.ts:37-39 | sold out iff no seats are left or the state is 'agotado' |
| Theatre.IsDisponible | types/theatre.ts:42-44 | on sale iff the state is 'activo' and seats are left |
| Theatre.SoldOutWhenFull | types/theatre.ts:37-39 | a show with sold ≥ capacity is sold out and not on sale, whatever its state |
| Theatre.OnlyActiveShowsAreAvailable | types/theatre.ts:43 | no show in state 'suspendido', 'agotado' or 'finalizado' is on sale |
| Theatre.FormatHora | types/theatre.ts:58-60 | the result is the first five characters, or the whole text when it is shorter |
| Theatre.StatusColor | types/theatre.ts:63-71 | every state has a seven-character '#' colour code; `StatusColorsDistinct` shows no two states share one |
| Theatre.StatusLabel | types/theatre.ts:74-82 | every state has a non-empty label with a capital initial; `LabelCapitalizesName` ties it to the stored name |
| Theatre.StatusColorsDistinct | types/theatre.ts:63-82 | the four colours are distinct and so are the four labels |
| Theatre.LabelCapitalizesName | types/theatre.ts:74-82 | each label is the stored state name with a capital initial |
| ShowsPage.Matches | app/funciones/page.tsx:61-64 | an empty lower-cased term matches every show; a show without description matches iff its lower-cased name contains the lower-cased term |
| ShowsPage.Matching | app/funciones/page.tsx:61-64 | the filter never lengthens the list |
| ShowsPage.MatchingKeepsExactlyMatches | app/funciones/page.tsx:61-64 | a show is kept iff its lower-cased name or its non-null description contains the lower-cased term; each is kept as often as it occurs, never added or duplicated |
| ShowsPage.MatchingKeepsOrder | app/funciones/page.tsx:61 | filtering distributes over concatenation, so relative order is kept |
| ShowsPage.FilteredShows | app/funciones/page.tsx:59-69 | with no search term (null or empty) the list is the whole show list; otherwise it is the filtered list |
| ShowsPage.Compare | app/funciones/page.tsx:74-87 | 'price-asc' puts a first (result ≤ 0) iff its price is at most b's, 'price-desc' iff it is at least b's; 'name-desc' is `localeCompare` with the arguments swapped |
| ShowsPage.SortedShows | app/funciones/page.tsx:74-87 | the sorted copy is a permutation of the filtered list |
| ShowsPage.NameDescIsSwappedNameAsc | app/funciones/page.tsx:76-79 | the 'name-desc' comparator is the 'name-asc' one with its arguments swapped |
| ShowsPage.PriceSortOrders | app/funciones/page.tsx:80-83 | 'price-asc' gives non-decreasing prices and 'price-desc' non-increasing ones, a null price counting as 0 |
| HistoryPage.OrNull | app/historial/page.tsx:59-60 | an absent or empty text becomes null; any other text is kept |
| HistoryPage.Details | app/historial/page.tsx:56-61 | keeps the purchase whole; without a joined show the name is '', description and image null and price 0; with one the name is copied, description and image are the show's texts when non-empty and null otherwise, and the price is the show's or 0 |
| HistoryPage.DetailsOfRows | app/historial/page.tsx:56-61 | one row per fetched purchase, in order, keeping the whole purchase; without a joined show the name is '', description and image null and price 0 |
| HistoryPage.TransformRows | app/historial/page.tsx:56-62 | null data gives an empty list; otherwise the rows transformed |
| HistoryPage.LoadPurchases | app/historial/page.tsx:29-68 | no user: redirect to login, no query and the spinner stays up; with a user the query is for that user; a query error shows no purchases |
| HistoryPage.NoUserNoQuery | app/historial/page.tsx:32-35 | without a user the outcome does not depend on any query answer |
| HistoryPage.TranslateStatus | app/historial/page.tsx:102-108 | completed, pending and cancelled become Completado, Pendiente and Cancelado; any other status is returned unchanged |
| HistoryPage.TranslateFixesOnlyUnknown | app/historial/page.tsx:102-108 | a status is shown as itself iff it is not one of the three known ones |
| HistoryPage.StatusClass | app/historial/page.tsx:90-97 | a class for the three known statuses, '' iff the status is any other |
| HistoryPage.TicketWord | app/historial/page.tsx:166 | "entradas" iff the quantity is above 1 |
| AdminDashboard.LoadStats | app/admin/page.tsx:28-39 | sales is the sum of `total_price` over all rows and orders the number of rows; null rows give 0 and 0; the show count is the count, or 0 when null |
| AdminDashboard.CheckoutAsSeenByDashboard | app/admin/page.tsx:28-29 | for one checkout's rows, sales equals the cart total; the "tickets sold" figure counts lines, which is at most the tickets bought and equal only when every line has one ticket |
| UploadHelpers.ValidateImageFile | lib/upload-helpers.ts:113-129 | valid iff the type is allowed and the size ≤ 5 MiB; valid iff no error; a disallowed type reports the type error even when the size is also too big; an allowed type that is too big reports the size error |
| UploadHelpers.SizeLimitInclusive | lib/upload-helpers.ts:9 | exactly 5 MiB passes, one byte more does not |
| UploadHelpers.Extension | lib/upload-helpers.ts:42 | the extension is a suffix of the name with no '.', preceded by a '.', or the whole name when it has none |
| UploadHelpers.GeneratedFileName | lib/upload-helpers.ts:39-43 | the name begins with timestamp, '-' and the random text, ends with '.' and the original extension, and has exactly the length of those parts together, so nothing lies between them |
| UploadHelpers.UploadFunctionImage | lib/upload-helpers.ts:21-77 | an invalid file fails with the validation error before any storage call; a valid one is uploaded under the generated name; success iff the storage stored it, then with its public URL; a storage error is reported with the upload prefix |
| UploadHelpers.DeleteFunctionImage | lib/upload-helpers.ts:83-108 | a URL without 'function-images/' fails with no storage call; otherwise the path `SecondPart` gives (after the first 'function-images/', up to the next one or the end) is removed, and the result is true iff the removal reports no error |
| Strings.DecimalString | lib/upload-helpers.ts:43 | the timestamp's text is non-empty, all decimal digits, and starts with '0' only for 0 |
| Strings.DecimalStringValue | lib/upload-helpers.ts:43 | reading those digits back gives the timestamp itself, so the file name starts with exactly that number |
| Strings.SecondPart | lib/upload-helpers.ts:86-92 | absent iff the separator does not occur; otherwise, for the first occurrence, the piece of the text after it: all of that text when it has no separator, else exactly the text before the next occurrence |
| Strings.PieceUnique | lib/upload-helpers.ts:86 | that piece is unique, so the contract of `SecondPart` pins `split(sep)[1]` completely |
| AuthValidation.PasswordIssues | lib/validations/auth.ts:16-19 | a password passes iff it has at least 10 characters and one character of the symbol class; at most two issues, all on the password field |
| AuthValidation.EmailIssues | lib/validations/auth.ts:31 | the address passes iff the library's address check accepts it |
| AuthValidation.RegisterIssues | lib/validations/auth.ts:29-37 | valid iff name ≥ 2, address valid, password strong and equal to its confirmation; a mismatch is an issue on `confirmPassword` iff the two differ |
| AuthValidation.LoginIssues | lib/validations/auth.ts:47-50 | valid iff the address is valid and the password is non-empty |
| AuthValidation.BothPasswordRulesNeeded | lib/validations/auth.ts:16-19 | 10 characters with no symbol fail, a short password with a symbol fails, both together pass |
| AuthValidation.SymbolsBeyondHint | lib/validations/auth.ts:11 | the sign-up hint's symbols are a proper subset of the accepted ones; '.', '?', '_' and '/' count |
| AuthValidation.LoginHasNoStrengthRule | lib/validations/auth.ts:47-50 | sign-in accepts a one-character password that sign-up refuses |
| PasswordResetValidation.RequestResetIssues | lib/validations/password-reset.ts:11-13 | only the address is checked |
| PasswordResetValidation.ResetPasswordIssues | lib/validations/password-reset.ts:18-24 | valid iff the password is strong and equals its confirmation; a mismatch is an issue on `confirmPassword` iff they differ |
| PasswordResetValidation.ResetRuleIsSignUpRule | lib/validations/password-reset.ts:6-19 | with a valid name and address, a new password is accepted iff sign-up accepts it |
| ContactValidation.PhoneIssues | lib/validations/contact.ts:20 | the phone passes iff it has ≥ 8 characters, all ASCII digits |
| ContactValidation.ContactIssues | lib/validations/contact.ts:17-23 | valid iff name ≥ 2, surname ≥ 2, phone rule, valid address and message ≥ 10 |
| ContactValidation.PhoneSymbolsRejected | lib/validations/contact.ts:20 | a phone containing '+', a space or '-' is refused at any length |
| ProfileValidation.PhoneIssues | lib/validations/profile.ts:12-14 | the phone passes iff it has ≥ 8 characters, all ASCII digits |
| ProfileValidation.ProfileIssues | lib/validations/profile.ts:10-15 | valid iff name ≥ 2 and the phone rule holds |
| ProfileValidation.PhoneRuleMatchesContact | lib/validations/profile.ts:12-14 | the profile's phone rule reports exactly what the contact form's does |

## Left out

- Cart persistence to browser storage is not modelled (contexts/CartContext.tsx:59-79). It is browser storage plus JSON parsing, so the invariant `CartStore.Valid` (unique ids) is assumed of whatever is loaded.
- Backend calls are not modelled: auth, table selects and inserts, storage upload and remove. Only their answers appear, as parameters.
- `toLowerCase`, `localeCompare`, the library's address check and the storage service's public URL are parameters with no properties assumed.
- ShowsPage.SortedShows: for the name sorts only the permutation is proved, because `localeCompare` is an uninterpreted parameter. The library sort is written as a stable insertion sort, but stability is not proved.
- Prices and quantities are JavaScript numbers in the source and mathematical integers here. Float rounding, `NaN` and the `|| 0` fallbacks that only matter for `NaN` are not modelled.
- Dates are not modelled: `formatFecha`, the history page's `formatDate` and the backend's ordering of purchases by date.
- The `catch` paths for unexpected exceptions are not modelled. This covers the auth lookup throwing during checkout and unexpected failures in the upload and delete helpers. Only the error answers the code inspects are modelled.
- Asynchronous interleaving is not modelled. Checkout is split at its first await into `BeginCheckout` and `FinishCheckout`. Re-renders, and the list the handler captured at render time, are not modelled.
- String lengths count Unicode scalar values. JavaScript counts UTF-16 code units, which differ only for characters outside the Basic Multilingual Plane.
- The schema issue lists follow the schema library's version-3 behaviour, where an object refinement runs even when field checks failed. Validity (no issues) does not depend on this.
- Theatre.StatusColor and Theatre.StatusLabel have no fallback branch. The source's `|| '#6b7280'` and `|| estado` can never fire, since both records cover all four states and hold non-empty texts.
- HistoryPage.StatusClass returns the style sheet's key ("statusCompleted"). It does not return the generated class name.
- The page components, navigation, the admin role gate, the search bar and the remaining forms are out of scope.
- Nothing models seat capacity in the cart or at checkout. Neither of them checks it in the source.
