# Cart store

A Dafny model of the storefront's cart store (`src/lib/cartStore.ts`): a
`CartStore` object that owns an ordered list of line items and a set of
listeners. It changes the list through `addItem` (merge by id, or append),
`updateQuantity` (an absolute set, with delete-at-zero), `removeItem` (filter
by id) and `clear`. After each change it writes the whole list to one storage
key and calls every listener. It answers `getItems`, `getItemCount` and
`getSubtotal` from the list, and rehydrates the list from storage when it is
created.

Layout:

- `cart_items.dfy` (module `CartItems`): the `CartItem` record, the product
  snapshot a caller passes to `addItem`, `findIndex`, and the two cart
  invariants: ids are unique, and every quantity is at least 1.
- `cart_totals.dfy` (module `CartTotals`): the `reduce` folds behind
  `getItemCount` and `getSubtotal`, and how they change under append,
  replacement and splice.
- `cart_ops.dfy` (module `CartOps`): each mutator's effect on the list as a
  function of the old list (`Added`, `Updated`, `Removed`), plus the laws
  about them. These cover merge, append, absolute set, delete-by-zero,
  idempotent removal, preservation of the invariants, and the change in the
  item count and subtotal.
- `cart_storage.dfy` (module `CartStorage`): the browser storage the store
  writes to, as a class with one slot per key. Reads and writes may throw.
- `cart_store.dfy` (module `CartStoreModel`): the `CartStore` class with its
  `items` and `listeners` fields. Its mutators are proved against the
  functions of `CartOps`, and they state what is stored and which listeners
  are called. Also here: `Listener`, restart from storage, and a client of
  subscribe and dispose.

Prices and quantities are integers, with prices in the smallest currency
unit. Subtotals are therefore exact sums.

`addItem` has no guard on its quantity, and the model does not add one.
`CartStore.AddItem` accepts any integer, and its quantity defaults to 1 as in
the source. Its contract keeps the invariants only when the quantity is at
least 1. `CartOps.AddNonPositiveBreaksPositivity` shows how a quantity of 0 or
less puts a non-positive line into the cart.

The model follows the code as written, including these places a reader might not expect:

- `removeItem` on an absent id still writes to storage and notifies.
- The delete-by-zero path of `updateQuantity` splices out only the FIRST
  matching line. `removeItem` filters out every matching line. The two agree
  only when ids are unique (`CartOps.DeleteByZero`), and
  `CartOps.DeleteByZeroNeedsUniqueIds` shows a list on which they differ.
- Rehydration takes a parsed list as it is. A restored cart can therefore
  break either invariant, so no mutator requires them. `updateQuantity`,
  `removeItem` and `clear` keep them when they held before; `addItem` keeps
  them only for a quantity of at least 1.

## Model

| member | source | states |
|---|---|---|
| CartItems.FindIndex | src/lib/cartStore.ts:67 | findIndex yields the first position whose id matches, or -1 exactly when no line has the id |
| CartItems.FindIndexFound | src/lib/cartStore.ts:80-81 | the `index >= 0` test holds exactly when some line carries the id |
| CartItems.FindIndexFirst | src/lib/cartStore.ts:67 | a matching position preceded only by non-matching ones is what findIndex returns |
| CartItems.FindIndexUnique | src/lib/cartStore.ts:67 | with unique ids, findIndex returns the one position holding the id, as a case of the first-match law |
| CartItems.LineOf | src/lib/cartStore.ts:72 | the pushed line `{ ...item, quantity }` carries the product's id, name, price, image and artist unchanged, and the given quantity |
| CartTotals.Total | src/lib/cartStore.ts:58-64 | the reduce fold from a seed of 0 is never negative when every line's weight is non-negative |
| CartTotals.ItemCount | src/lib/cartStore.ts:58-60 | the item count of the empty cart is 0, and it is never negative when every quantity is at least 1 |
| CartTotals.Subtotal | src/lib/cartStore.ts:62-64 | the subtotal of the empty cart is 0 |
| CartTotals.TotalAppend | src/lib/cartStore.ts:58-64 | the reduce fold behind both totals distributes over concatenation |
| CartTotals.TotalReplace | src/lib/cartStore.ts:58-64 | replacing one line changes a total by the difference of the two lines' weights |
| CartTotals.TotalDelete | src/lib/cartStore.ts:58-64 | splicing one line out lowers a total by that line's weight |
| CartTotals.ItemCountBounds | src/lib/cartStore.ts:58-60 | with positive quantities, the item count is at least the number of lines and is 0 exactly for the empty cart |
| CartTotals.SubtotalNonNegative | src/lib/cartStore.ts:62-64 | with non-negative prices and positive quantities, the subtotal is never negative |
| CartOps.Added | src/lib/cartStore.ts:67-72 | addItem's new list keeps its length when the id is present and grows by one otherwise; it always holds the id, and the earlier lines keep their ids in place |
| CartOps.AddMerges | src/lib/cartStore.ts:67-70 | adding a product already present adds exactly `quantity` to its first line with that id (duplicate ids allowed), keeps that line's first-added name, price, image and artist, and leaves the length and all other lines unchanged |
| CartOps.AddAppends | src/lib/cartStore.ts:71-72 | adding an absent product appends exactly `{...item, quantity}` after the earlier lines, which stay in order |
| CartOps.AddPreservesUniqueIds | src/lib/cartStore.ts:66-73 | addItem never creates a second line for an id |
| CartOps.AddPreservesPositive | src/lib/cartStore.ts:66-73 | with a quantity of at least 1, addItem keeps every quantity at least 1 |
| CartOps.AddNonPositiveBreaksPositivity | src/lib/cartStore.ts:66-73 | addItem does not guard its quantity: a quantity of 0 or less for a new product, or one that drives the existing line to 0 or below, leaves a non-positive line in the cart |
| CartOps.AddTwiceIsAddSum | src/lib/cartStore.ts:67-72 | merge law: adding a product twice equals adding the sum once, and the second call's metadata is ignored |
| CartOps.AddItemCount | src/lib/cartStore.ts:58-60 | addItem raises the item count by exactly `quantity` |
| CartOps.AddSubtotal | src/lib/cartStore.ts:62-72 | addItem raises the subtotal by `quantity` times the price already in the cart for that id, or the given price for a new line |
| CartOps.Updated | src/lib/cartStore.ts:80-86 | updateQuantity's new list is one line shorter exactly when the id is present and the quantity is 0 or less, and otherwise as long as before; with a positive quantity every line keeps its id in place |
| CartOps.UpdateAbsentIsNoop | src/lib/cartStore.ts:80-81 | updateQuantity on an absent id leaves the list unchanged |
| CartOps.UpdateSets | src/lib/cartStore.ts:84-86 | a positive quantity replaces the first matching line's quantity (an absolute set, duplicate ids allowed), keeps its metadata, and leaves every other line unchanged |
| CartOps.UpdateTwiceIsLast | src/lib/cartStore.ts:82-86 | setting a positive quantity and then any quantity equals the second call alone: a later set overrides, a later 0 or less splices the line out |
| CartOps.DeleteByZero | src/lib/cartStore.ts:82-83 | with unique ids, updateQuantity with a quantity of 0 or less equals removeItem |
| CartOps.DeleteByZeroNeedsUniqueIds | src/lib/cartStore.ts:82-83 | on a list holding one id twice, the splice removes one line and the filter removes both |
| CartOps.UpdatePreservesUniqueIds | src/lib/cartStore.ts:79-90 | updateQuantity keeps ids unique |
| CartOps.UpdatePreservesPositive | src/lib/cartStore.ts:79-90 | updateQuantity keeps every quantity at least 1, because a quantity of 0 or less removes the line |
| CartOps.UpdateItemCount | src/lib/cartStore.ts:79-90 | updateQuantity swaps the line's old quantity for the new one in the item count, or drops it when the new one is 0 or less |
| CartOps.Removed | src/lib/cartStore.ts:93 | the filtered list is no longer than before and holds no line with the removed id |
| CartOps.RemovedMembers | src/lib/cartStore.ts:93 | the filter keeps exactly the lines whose id differs |
| CartOps.RemovedAppend | src/lib/cartStore.ts:93 | the filter works piecewise over a concatenation, so kept lines keep their relative order |
| CartOps.RemovedAbsent | src/lib/cartStore.ts:93 | removeItem on an absent id leaves the list unchanged |
| CartOps.RemovedAt | src/lib/cartStore.ts:93 | with unique ids, removeItem splices out exactly the matching line and keeps the rest in order |
| CartOps.NoIdOutside | src/lib/cartStore.ts:93 | with unique ids, the id at a position occurs nowhere before or after it |
| CartOps.RemovedLine | src/lib/cartStore.ts:93 | the filter drops a single matching line |
| CartOps.RemovedIdempotent | src/lib/cartStore.ts:92-96 | removing an id twice equals removing it once |
| CartOps.RemovedPreservesUniqueIds | src/lib/cartStore.ts:92-96 | removeItem keeps ids unique |
| CartOps.RemovedPreservesPositive | src/lib/cartStore.ts:92-96 | removeItem keeps every quantity at least 1 |
| CartOps.RemoveItemCount | src/lib/cartStore.ts:92-96 | with unique ids, removeItem lowers the item count by the removed line's quantity, or not at all for an absent id |
| CartOps.MutatorsPreserveWellFormed | src/lib/cartStore.ts:66-102 | addItem with a quantity of at least 1, updateQuantity, removeItem and clear all keep ids unique and quantities at least 1 |
| CartStorage.Storage.Get | src/lib/cartStore.ts:27 | getItem throws exactly when storage is unreadable, reports a missing key as missing, and otherwise yields the slot's value |
| CartStorage.Storage.GetItem | src/lib/cartStore.ts:27 | the read returns what the slot lookup specifies: a throw, a missing key, or the stored value |
| CartStorage.Storage.SetItem | src/lib/cartStore.ts:39 | setItem overwrites one key and reports success, or throws and changes nothing |
| CartStoreModel.Rehydrated | src/lib/cartStore.ts:25-35 | a parsed stored list becomes the cart as it is; a failed read, a missing key or an unparsable value leaves the cart empty |
| CartStoreModel.Listener.Invoke | src/lib/cartStore.ts:46 | calling a listener records the list it sees, once, after everything it saw before |
| CartStoreModel.CartStore.constructor | src/lib/cartStore.ts:21-35 | creation starts with no listeners. It takes a parsed stored list as it is; a missing key, a failed read or an unparsable value gives an empty cart |
| CartStoreModel.CartStore.SaveToStorage | src/lib/cartStore.ts:37-43 | the slot under the cart key gets exactly the current list, unless the write throws, in which case storage is unchanged |
| CartStoreModel.CartStore.Notify | src/lib/cartStore.ts:45-47 | every subscribed listener is called exactly once and sees the current list |
| CartStoreModel.CartStore.Subscribe | src/lib/cartStore.ts:49-52 | subscribe adds the listener to a set, so subscribing twice keeps one entry; it returns a disposer tied to this store and that listener |
| CartStoreModel.CartStore.Dispose | src/lib/cartStore.ts:51 | a disposer acts only on the store that created it and removes only its own listener and reports whether it was subscribed; calling it again is a no-op |
| CartStoreModel.CartStore.GetItems | src/lib/cartStore.ts:54-56 | getItems returns the line items in insertion order |
| CartStoreModel.CartStore.GetItemCount | src/lib/cartStore.ts:58-60 | getItemCount is the sum of quantities; with positive quantities it is at least the number of lines and 0 only for the empty cart |
| CartStoreModel.CartStore.GetSubtotal | src/lib/cartStore.ts:62-64 | getSubtotal is the sum of price times quantity, and 0 for the empty cart |
| CartStoreModel.CartStore.AddItem | src/lib/cartStore.ts:66-77 | the quantity defaults to 1. The list becomes `Added` of the old list. The item count grows by `quantity`, and the subtotal by `quantity` times the cart's price. The invariants survive a positive quantity. The list is then saved and every listener called once |
| CartStoreModel.CartStore.UpdateQuantity | src/lib/cartStore.ts:79-90 | the list becomes `Updated` of the old list. For an absent id nothing is stored and no listener is called; otherwise the list is saved and every listener called once. The invariants survive |
| CartStoreModel.CartStore.RemoveItem | src/lib/cartStore.ts:92-96 | the list keeps exactly the lines with another id, unchanged for an absent id. It is saved and every listener is called even then. The invariants survive |
| CartStoreModel.CartStore.Clear | src/lib/cartStore.ts:98-102 | the list becomes empty, so the item count and subtotal are 0. It is saved and every listener is called once |
| CartStoreModel.Restart | src/lib/cartStore.ts:21-43 | after a successful save, a new store over the same readable storage starts with exactly the saved list |
| CartStoreModel.DisposedListenerIsNotCalled | src/lib/cartStore.ts:45-52 | of two subscribers, the one disposed before an addItem without a quantity is not called, the other is called once and sees the new list, and the product is added with quantity 1 |

## Left out

- JSON text: the slot holds a list of line items or a value that does not
  parse. `JSON.stringify` and `JSON.parse` are not modelled. A stored value
  that parses but is not a list of line items is not modelled either. The
  source assigns such a value unchecked. Later calls then throw on a
  non-array value (`null`, `5`, `{}`), and on an array of other values they
  yield NaN totals or never find a matching id.
- Aliasing of line items: the model treats line items as values. In the
  source, `getItems` copies only the array, so callers share the item objects
  with the store. A caller that changed an item's quantity would change the
  store. The in-place `quantity +=` of `addItem` (src/lib/cartStore.ts:70) and
  `quantity =` of `updateQuantity` (src/lib/cartStore.ts:85) are visible
  through earlier snapshots. Neither effect is captured.
- Floating-point prices, non-integer quantities and rounding: prices and
  quantities are integers.
- Storage failures: whether reads and writes throw is fixed per `Storage`
  object (`readable`, `writable`). A write that fails only for some values,
  such as a quota exceeded by a large cart, and a failure that comes and goes
  between calls are not modelled.
- `console.warn` on load and save failures: logging only.
- Listeners are modelled as objects that record the list they see. A listener
  that calls back into the store, or that throws and stops the remaining
  notifications, is not modelled. The order in which listeners are called is
  not modelled.
- The module-level singleton `cartStore` (src/lib/cartStore.ts:105) and the
  `useCart` React hook (src/lib/cartStore.ts:110-126): component lifecycle and
  re-rendering. Subscribe-then-dispose appears in
  `CartStoreModel.DisposedListenerIsNotCalled`.
- Pages and components (Cart, ProductDetail, ProductCard and the others), the
  Tailwind configuration and the catalog functions of `src/lib/products`:
  presentation, routing and styling. `src/lib/products` is not part of this
  model.
