# Storefront cart, shipping locations and variation editor — a Dafny model

This project models the three pieces of the storefront front-end that hold
rules rather than markup:

- **Shipping locations** (`src/hooks/useShippingLocations.ts`, module
  `Shipping`). The storefront resolver starts on a built-in table of three
  locations. A fetch replaces that table with the rows the query returned, or
  resets it to the table when the query fails, answers null or empty, or throws.
  The fee lookup returns the fee of the first entry with the id, or 0. The
  administrative variant lists every row. Its updates, inserts and deletes
  rethrow a backend error before any refetch; a successful write is always
  followed by a full refetch. An insert without a truthy order index gets the
  list length plus one.
- **Cart page** (`src/components/Cart.tsx`, module `Cart`). Each line's stock
  ceiling is its variation's stock if it has a variation, else its product's.
  The + button is disabled, and its click rejected, exactly when
  `quantity >= ceiling`. The - button always asks for `quantity - 1`. The page
  also derives the "/ N" hint, the line totals, the summed item count, and a
  final total that equals `getTotalPrice()`, with no shipping added.
- **Variation editor** (`src/components/VariationManager.tsx`, module
  `VariationManager`). It has an add form, at most one edit form (`editingId`)
  and an `isProcessing` flag. A save validates the name, the price and the
  mg quantity. The transitions are modelled, and the two forms are proved never
  to be open together.

Every backend call is an input value: a fetch outcome
(`QueryError | Rows(Option<seq<Location>>) | Threw`), a write outcome, or a call
outcome (`Succeeded | Failed | Threw`). `confirm()` is a boolean input. Each async
handler is split at its `await` into a Start/Begin method and a Finish method, so
that `loading` and `isProcessing` are visible while the call is outstanding. A
third method runs the whole handler. Money and milligram amounts are exact
`real`s.

Facts about the code worth stating on their own:

- A stock ceiling of 0 blocks + for every line holding at least one item
  (`Cart.tsx:158`); only the "/ N" hint is hidden (`Cart.tsx:149`). See
  `Cart.ZeroCeilingBlocksIncrement`.
- The storefront hook declares `error` but never assigns it, so it stays
  `None` (`ShippingResolver.Valid`).
- The page itself only guards +. Rejecting an over-stock update,
  bounds-checking indices and removing a line at quantity 0 would belong to
  the cart hook, which is not part of this model.

## Model

| member | source | states |
|---|---|---|
| `Shipping.OfferedAfter` | src/hooks/useShippingLocations.ts:33-43 | the offered list is never empty; it is the returned rows verbatim when the query answered with a non-empty array, and the built-in table after a query error, null or empty data, or an exception |
| `Shipping.FindIndex` | src/hooks/useShippingLocations.ts:54 | `find` picks the first entry with the id: the index is in range, matches, and no earlier entry matches; no index means no entry matches |
| `Shipping.ShippingFee` | src/hooks/useShippingLocations.ts:53-56 | the fee is that of the first entry whose id matches, and 0 when no entry matches |
| `Shipping.ShippingResolver.GetShippingFee` | src/hooks/useShippingLocations.ts:53-56 | the fee of the first offered location with the id, and 0 when none has it |
| `Shipping.AdminListAfter` | src/hooks/useShippingLocations.ts:75-85 | the admin list after a fetch: empty after a query error, the data (or empty for null) after an answer, the previous list after an exception |
| `Shipping.AdminErrorAfter` | src/hooks/useShippingLocations.ts:75-85 | the admin error after a fetch: "Table not found…" after a query error, null after an answer, the exception's message (or "Unknown error") after an exception |
| `Shipping.DefaultFees` | src/hooks/useShippingLocations.ts:13-17 | on the built-in table LBC_METRO costs 150, LBC_PROVINCIAL 200, LALAMOVE 0, and any other id 0 |
| `Shipping.ShippingResolver.constructor` | src/hooks/useShippingLocations.ts:13-22 | before any fetch the list is exactly the three built-in entries (orders 1, 2, 3, all active), `loading` is true and `error` is null |
| `Shipping.ShippingResolver.StartFetch` | src/hooks/useShippingLocations.ts:24-26 | `loading` is true while the query is outstanding |
| `Shipping.ShippingResolver.FinishFetch` | src/hooks/useShippingLocations.ts:33-46 | the list becomes `OfferedAfter(outcome)`, `loading` becomes false, `error` stays null and the list stays non-empty |
| `Shipping.ShippingResolver.FetchLocations` | src/hooks/useShippingLocations.ts:24-47 | whatever the outcome, the list is `OfferedAfter(outcome)`, `loading` is false and `error` is null afterwards |
| `Shipping.LocationsAdmin.constructor` | src/hooks/useShippingLocations.ts:63-65 | the admin list starts empty, loading, with no error |
| `Shipping.LocationsAdmin.StartFetch` | src/hooks/useShippingLocations.ts:67-69 | `loading` is true while the admin query is outstanding |
| `Shipping.LocationsAdmin.FinishFetch` | src/hooks/useShippingLocations.ts:75-88 | a query error empties the list and sets "Table not found…"; data (or null) sets the list to it (or []) and clears the error; an exception sets its message (or "Unknown error") and keeps the list; `loading` ends false |
| `Shipping.LocationsAdmin.FetchAllLocations` | src/hooks/useShippingLocations.ts:67-89 | the whole fetch has the effect of `FinishFetch` on the state it started from |
| `Shipping.LocationsAdmin.WriteThenRefetch` | src/hooks/useShippingLocations.ts:97-98 | a write error is raised with the list, error and loading flag untouched; a successful write is followed by a full refetch |
| `Shipping.LocationsAdmin.UpdateLocation` | src/hooks/useShippingLocations.ts:91-99 | sends the id and the changes; a backend error is rethrown with nothing changed; success is followed by a full refetch |
| `Shipping.LocationsAdmin.AddLocation` | src/hooks/useShippingLocations.ts:101-108 | inserts the location with order index `InsertedOrderIndex(requested, current list length)`; rethrows a backend error with nothing changed; success is followed by a full refetch |
| `Shipping.LocationsAdmin.DeleteLocation` | src/hooks/useShippingLocations.ts:110-118 | deletes by id; rethrows a backend error with nothing changed; success is followed by a full refetch |
| `Shipping.InsertedOrderIndex` | src/hooks/useShippingLocations.ts:104 | the inserted order index is the requested one when that is present and non-zero, and the list length plus one when it is missing or 0; it is never 0 |
| `Shipping.AdminErrorClearedIffRows` | src/hooks/useShippingLocations.ts:75-85 | after an admin fetch the error is null if and only if the query answered with data |
| `Shipping.AdminListFromAnswer` | src/hooks/useShippingLocations.ts:75-85 | only an exception keeps the previous admin list; any answer from the query replaces it regardless of what was there; a query error leaves it empty |
| `Cart.StockCeiling` | src/components/Cart.tsx:157 | a line's ceiling is its variation's stock when it has a variation, otherwise its product's stock |
| `Cart.AtStockLimit` | src/components/Cart.tsx:158 | a line is at its limit exactly when its quantity is at or above its ceiling; below the limit one more item still fits |
| `Cart.LineTotal` | src/components/Cart.tsx:176 | a line costs nothing when it holds no items, and never a negative amount for a non-negative price and quantity |
| `Cart.ItemCount` | src/components/Cart.tsx:199 | the summed quantities: non-negative when every quantity is, at least the number of lines when every quantity is at least 1 |
| `Cart.Incremented` | src/components/Cart.tsx:156-163 | the cart after +: same length, the clicked line grows by one unless it is at its limit and keeps its product, variation and price, every other line unchanged |
| `Cart.Decremented` | src/components/Cart.tsx:140 | the cart after -: same length, the clicked line shrinks by one with no lower bound and keeps its product, variation and price, every other line unchanged |
| `Cart.StockIndicator` | src/components/Cart.tsx:147-153 | the "/ N" hint is shown if and only if the ceiling is positive, and then shows the ceiling |
| `Cart.SetQuantity` | src/components/Cart.tsx:7 | the quantity setter changes only the quantity of the addressed line; every other line and field stays as it was |
| `Cart.RemoveAt` | src/components/Cart.tsx:8 | the removal drops the addressed line and shifts the later lines down by one |
| `Cart.CartPage.constructor` | src/components/Cart.tsx:15-23 | the page holds the lines it is rendered with |
| `Cart.CartPage.Increment` | src/components/Cart.tsx:156-163 | the click is accepted exactly when the line is below its ceiling, and then only that line's quantity grows by one |
| `Cart.CartPage.Decrement` | src/components/Cart.tsx:140 | always asks for `quantity - 1`, with no lower bound checked |
| `Cart.CartPage.Remove` | src/components/Cart.tsx:128 | asks for the removal of the clicked line |
| `Cart.CartPage.Clear` | src/components/Cart.tsx:74 | asks for the cart to be emptied |
| `Cart.Render` | src/components/Cart.tsx:24-54 | an empty cart, and only an empty cart, shows the empty-state screen; otherwise one view per line (its quantity, its "/ N" hint, + disabled iff `quantity >= ceiling`, line total `price * quantity`), the item count is `ItemCount`, and subtotal and total both equal `getTotalPrice()` |
| `Cart.ItemCountAppend` | src/components/Cart.tsx:199 | the summed item count is additive over concatenation of carts |
| `Cart.ItemCountSplit` | src/components/Cart.tsx:199 | the item count of a cart is that of the lines before a line, plus its quantity, plus that of the lines after it |
| `Cart.ItemCountAfterSet` | src/components/Cart.tsx:199 | setting a line's quantity changes the item count by exactly the difference |
| `Cart.ItemCountAfterRemove` | src/components/Cart.tsx:128 | removing a line takes exactly its quantity off the item count |
| `Cart.ItemCountAfterIncrement` | src/components/Cart.tsx:156-163 | an accepted + adds one item to the count, a rejected one adds none |
| `Cart.ItemCountAfterDecrement` | src/components/Cart.tsx:140 | - takes exactly one item off the count |
| `Cart.IncrementWithinStock` | src/components/Cart.tsx:156-163 | if every line is within its ceiling, it still is after +, and the clicked line never passes its ceiling |
| `Cart.OtherHandlersWithinStock` | src/components/Cart.tsx:128-140 | -, remove and clear keep every line within its ceiling |
| `Cart.PlusDisabledIffRejected` | src/components/Cart.tsx:156-167 | the + button is disabled exactly when its click handler would leave the cart unchanged |
| `Cart.ZeroCeilingBlocksIncrement` | src/components/Cart.tsx:148-158 | a line whose ceiling is 0 or less and that holds at least one item can never be incremented, and shows no "/ N" hint |
| `VariationManager.FormValid` | src/components/VariationManager.tsx:34 | a form passes exactly when its name is non-empty and its price and mg quantity are positive; stock and image are unchecked |
| `VariationManager.BlankForm` | src/components/VariationManager.tsx:17-23 | the blank form is name '', 5.0 mg, the product's base price, stock 0, image '', and does not pass the checks |
| `VariationManager.FieldsOf` | src/components/VariationManager.tsx:41-48 | the fields sent copy the form's name, mg, price and stock; the image is absent exactly when the field is empty |
| `VariationManager.FormOf` | src/components/VariationManager.tsx:72-78 | the form opened for a variation copies its fields; the image field is empty exactly when the image is missing or empty, and otherwise shows it |
| `VariationManager.ModeAfter` | src/components/VariationManager.tsx:70-80 | over the transition sites (add success :58, start-edit :70-80, update success :95, cancel-edit :262, toggle-add :325-328, cancel-add :426): the add form opens only on toggle-add and an edit starts only on start-edit; start-edit edits that id and closes the add form; toggle-add flips the add form and ends any edit; an event that leaves the mode unchanged changes nothing |
| `VariationManager.SentImage` | src/components/VariationManager.tsx:47 | an empty image field is sent as absent, any other is sent as typed |
| `VariationManager.FormImage` | src/components/VariationManager.tsx:77 | a missing image URL is shown as an empty field, a present one as itself |
| `VariationManager.ImageRoundTrip` | src/components/VariationManager.tsx:47 | an image field sent and read back into a form is unchanged |
| `VariationManager.EditRoundTrip` | src/components/VariationManager.tsx:70-93 | opening a variation for edit and saving it untouched sends its own name, size, price, stock and image back, when the stored image is not the empty string, which is sent as absent |
| `VariationManager.ModeAfterExclusive` | src/components/VariationManager.tsx:70-80 | no single transition (add success :58, start-edit :70-80, update success :95, cancel-edit :262, toggle-add :325-328, cancel-add :426, anything that leaves the mode unchanged) opens the add form and an edit form together |
| `VariationManager.ExclusiveAlong` | src/components/VariationManager.tsx:325-328 | from a mode with at most one form open, every sequence of transitions keeps at most one open |
| `VariationManager.NeverBothOpen` | src/components/VariationManager.tsx:13-14 | from the initial mode (add form closed, nothing edited) no sequence of transitions opens both forms |
| `VariationManager.Editor.constructor` | src/components/VariationManager.tsx:13-31 | both forms start as name '', 5.0 mg, the product's base price, stock 0, image ''; nothing is open or processing |
| `VariationManager.Editor.ToggleAdd` | src/components/VariationManager.tsx:325-328 | flips the add form and closes any edit form |
| `VariationManager.Editor.StartEdit` | src/components/VariationManager.tsx:70-80 | edits the variation's id, copies its fields (a missing image becomes '') and closes the add form |
| `VariationManager.Editor.CancelEdit` | src/components/VariationManager.tsx:262 | closes the edit form only |
| `VariationManager.Editor.CancelAdd` | src/components/VariationManager.tsx:426 | closes the add form only |
| `VariationManager.Editor.ChangeNewVariation` | src/components/VariationManager.tsx:347 | typing replaces the add form's contents |
| `VariationManager.Editor.ChangeEditingVariation` | src/components/VariationManager.tsx:184 | typing replaces the edit form's contents |
| `VariationManager.Editor.BeginAdd` | src/components/VariationManager.tsx:33-48 | a request is sent if and only if the name is non-empty, the price and the mg quantity are positive (stock unchecked); it carries the form with an empty image as absent, and sets `isProcessing`; a rejected form changes nothing |
| `VariationManager.Editor.FinishAdd` | src/components/VariationManager.tsx:50-67 | success resets the add form to its blank values and closes it; failure or an exception leaves the form and `isAdding` as they were; `isProcessing` ends false |
| `VariationManager.Editor.HandleAddVariation` | src/components/VariationManager.tsx:33-68 | the whole add: nothing happens on a rejected form, else the effects of `BeginAdd` then `FinishAdd` |
| `VariationManager.Editor.BeginUpdate` | src/components/VariationManager.tsx:82-93 | a request is sent if and only if `editingId` is neither null nor empty and the same field checks pass; it sets `isProcessing` |
| `VariationManager.Editor.FinishUpdate` | src/components/VariationManager.tsx:94-104 | success closes the edit form, failure keeps it open; `isProcessing` ends false |
| `VariationManager.Editor.HandleUpdateVariation` | src/components/VariationManager.tsx:82-105 | the whole update: a request is sent if and only if `editingId` is neither null nor empty and the form passes the field checks; nothing happens otherwise, else the effects of `BeginUpdate` then `FinishUpdate` |
| `VariationManager.Editor.BeginDelete` | src/components/VariationManager.tsx:107-112 | a declined confirmation sends nothing and changes nothing; an accepted one sends the delete and sets `isProcessing` |
| `VariationManager.Editor.FinishDelete` | src/components/VariationManager.tsx:113-122 | whatever the outcome only `isProcessing` changes, to false |
| `VariationManager.Editor.HandleDeleteVariation` | src/components/VariationManager.tsx:107-123 | the whole delete: nothing on a declined confirmation, else the delete is sent and `isProcessing` ends false |

## Left out

- The backend client (`supabase.from(...)`): its `is_active` filter, its ordering by `order_index`, and the `updated_at` timestamp an update adds are not modelled. Each call's result is an input value.
- Write calls whose promise rejects outright propagate exactly like an answered error object. Both are the single outcome `WriteFailed`.
- The `useEffect` fetch on mount is not modelled: a caller invokes `FetchLocations` / `FetchAllLocations`.
- Overlapping fetches, and clicks while a call is outstanding, are not modelled. Each handler is atomic apart from its own await. The `disabled={isProcessing}` guards on the editor's buttons are therefore not modelled either.
- `alert`, `console.*` and the peso formatting with `toLocaleString` are presentation only.
- The parsing of typed numbers (`parseFloat(...) || 0`, `parseInt(...) || 0`) is library behaviour. The form-change methods take already parsed values.
- The cart hook's own `updateQuantity`, `removeFromCart`, `clearCart` and `getTotalPrice` are not part of this model. The first three are modelled as plain index-addressed setters (`Cart.SetQuantity`, `Cart.RemoveAt`, an empty list); the model keeps a line whose quantity drops to 0 or below, and what the real hook does there, or above the ceiling, is not known from the page. `Cart.ItemCountAfterDecrement`, `Cart.ItemCountAfterIncrement` and `Cart.OtherHandlersWithinStock` hold of that assumed setter. `getTotalPrice()` is an input to `Cart.Render`.
- Cart.CartPage.Increment: the stock ceiling is an integer. A missing `stock_quantity`, for which JavaScript's `>=` is false and + is never disabled, is not modelled, because the record types file is not part of this model.
- The header's badge cap, the feature-flagged link, the footer, the hero section and the theme configuration are markup only.
