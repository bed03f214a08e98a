# Storefront cart, checkout formatters and catalog queries in Dafny

A model of the sequential logic of a React Native storefront for 3D-printing
filament:

- **The cart state container** (`context/CartContext.tsx`). The cart is an ordered list of
  line items `{id, name, price, image, quantity}`. Each transition is a pure
  function of the old list: `AfterAdd`, `AfterRemove` and `AfterUpdate`. The two `reduce`
  folds are `ItemCount` and `Subtotal`. The provider itself is the class
  `Cart.CartStore`, with the fields `items`, `isLoading` and `saves`. The
  `saves` field lists, in order, every list handed to `saveCart`. Its methods
  are `LoadCart`, `AddToCart`, `RemoveFromCart`, `UpdateQuantity` and
  `ClearCart`. The save effect (`SaveEffect`) that runs after each of them
  saves only once `isLoading` is false.
- **The checkout screen's formatters and totals** (`app/checkout.tsx`).
  `FormatCardNumber` keeps the digits, groups them by four and cuts the
  result to 19 characters. `FormatExpiryDate` builds `MM/YY`. `OrderTotals`
  adds 8% tax and a flat 9.99 shipping to the subtotal.
- **The catalog queries** (`data/products.ts`). The two constant tables are
  modelled, along with `filter`/`find` queries over them and the facts the
  tables satisfy.

`Lists.Filter` and `Lists.Find` model JavaScript's `Array.prototype.filter`
and `find`. Both the cart and the catalog use them. Prices and totals are
exact `real`s, and quantities are integers.

Facts about the code that the model keeps:

- `addToCart` keeps one line per id, but a list loaded from storage is
  checked for neither duplicate ids nor quantities below 1. `addToCart` and
  `updateQuantity` change every line whose id matches, and `removeFromCart`
  drops every such line. The model does the same. Uniqueness of ids is a
  proved invariant of each transition, not an assumption.
- `addToCart` does not check the quantity it is given. A new line therefore
  gets whatever quantity is passed, and an existing line can drop below 1.
  Positivity is preserved for added quantities of at least 1, which is what
  the product screen sends (`app/product/[id].tsx`, lines 295 and 338).
  `removeFromCart` and `updateQuantity` preserve positivity for any quantity,
  even on a list with repeated ids, and preserve uniqueness whatever the
  quantities are.
- A merge keeps the line's stored price. The subtotal therefore grows by the
  price of the existing line, not by the price passed in (`AddToExistingLineTotals`).

Lifecycle: `isLoading` is true after the constructor. Only `LoadCart`
changes it: it requires `isLoading` and leaves it false, and every other
method keeps it. So the flag drops exactly once, whatever the load produced
(`Stored`, `NothingStored` or `ReadFailed`). `CartStore.Valid()` states two
things. While loading, nothing has been saved. Afterwards, the last save is
the current list.

## Model

| member | source | states |
|---|---|---|
| Lists.Filter | data/products.ts:189 | `filter`: every element of the result satisfies the predicate, and the result is no longer than the input |
| Lists.FilterCounts | data/products.ts:189 | each value appears in the filtered result as often as in the input if it satisfies the predicate, and not at all otherwise |
| Lists.FilterIsSubsequence | data/products.ts:189 | the filtered result keeps the input's order (it is a subsequence) |
| Lists.FilterKeepsAll | context/CartContext.tsx:107 | filtering with a predicate every element satisfies returns the input unchanged |
| Lists.FilterAppend | context/CartContext.tsx:107 | filtering a concatenation is the concatenation of the filtered parts |
| Lists.Find | data/products.ts:197 | `find`: None exactly when no element matches; otherwise the value is a matching element at some index with no match before it |
| Cart.MapWhereId | context/CartContext.tsx:83-87 | `items.map(i => i.id === id ? change(i) : i)`: same length; lines with another id are unchanged and lines with the id are replaced by their changed form |
| Cart.AfterAdd | context/CartContext.tsx:78-100 | the notice names the item; it is "Added to Cart" exactly when no line has the id, and then the list grows by one, otherwise its length stays; afterwards some line holds the id |
| Cart.AfterUpdate | context/CartContext.tsx:110-120 | below 1, no line with the id is left and the list does not grow; otherwise same length, lines with the id get exactly the new quantity and every other line is unchanged |
| Cart.ItemCount | context/CartContext.tsx:128 | no contract of its own; characterised by `TotalsAppend`, `TotalsAround`, `ItemCountAtLeastLines` and the transition lemmas |
| Cart.Subtotal | context/CartContext.tsx:132 | no contract of its own; characterised by `TotalsAppend`, `TotalsAround`, `SubtotalNonNegative` and the transition lemmas |
| Cart.AfterRemove | context/CartContext.tsx:106-108 | after `removeFromCart(id)` no line has that id, and the list is no longer than before |
| Cart.RemoveKeepsOthers | context/CartContext.tsx:107 | removal keeps every other line, with its multiplicity, in its relative order |
| Cart.RemovedFrom | context/CartContext.tsx:107 | every line left after a removal was a line before it |
| Cart.RemoveAbsent | context/CartContext.tsx:107 | removing an id the cart does not hold leaves the list unchanged (it is not an error) |
| Cart.RemovePresent | context/CartContext.tsx:107 | with unique ids, removing the id at line k deletes exactly line k |
| Cart.RemoveKeepsIdsUnique | context/CartContext.tsx:107 | removal keeps ids pairwise distinct, whatever the quantities |
| Cart.RemoveKeepsQuantitiesPositive | context/CartContext.tsx:107 | removal keeps every quantity at least 1, even when ids repeat |
| Cart.RemoveTotals | context/CartContext.tsx:106-133 | with unique ids, removal lowers the item count by the line's quantity and the subtotal by price times quantity |
| Cart.FirstMatch | context/CartContext.tsx:79 | with unique ids, `find` by id returns the line holding that id |
| Cart.AddToExistingLine | context/CartContext.tsx:79-93 | adding an id held at line k adds the quantity to line k only; length, order and every other line unchanged; the "Cart Updated" notice reports exactly the resulting quantity |
| Cart.AddNewLine | context/CartContext.tsx:94-99 | adding an absent id appends exactly one line `{...item, quantity}` at the end and gives the "Added to Cart" notice |
| Cart.AddKeepsIdsUnique | context/CartContext.tsx:79-99 | `addToCart` keeps ids pairwise distinct |
| Cart.AddKeepsQuantitiesPositive | context/CartContext.tsx:83-99 | if every quantity is at least 1 and the added quantity is at least 1, every quantity is at least 1 afterwards |
| Cart.AddToExistingLineTotals | context/CartContext.tsx:83-87 | a merge raises the item count by the quantity and the subtotal by the quantity times the existing line's stored price |
| Cart.AddNewLineTotals | context/CartContext.tsx:94-99 | a new line raises the item count by the quantity and the subtotal by the quantity times the given price |
| Cart.AppendLineTotals | context/CartContext.tsx:94-99 | appending a line raises the item count by its quantity and the subtotal by its price times quantity |
| Cart.AddItemCount | context/CartContext.tsx:76-101 | with unique ids, `addToCart` raises the item count by exactly the quantity added, whichever branch it takes |
| Cart.RaiseLineTotals | context/CartContext.tsx:85 | raising one line's quantity raises both totals by that line's share |
| Cart.AddRepeatedly | context/CartContext.tsx:76-101 | repeated adds of an absent id end in one line at the end whose quantity is the sum of all quantities added |
| Cart.AddSameProductTwice | context/CartContext.tsx:79-99 | adding product 5 at 29.99 with quantity 1, then 2, gives one line of quantity 3 and a subtotal of 89.97 |
| Cart.AddTwoRemoveFirst | context/CartContext.tsx:94-107 | adding two different ids and removing the first leaves only the second, with an item count of 1 |
| Cart.UpdateBelowOneRemoves | context/CartContext.tsx:110-114 | `updateQuantity(id, q)` with q below 1 is `removeFromCart(id)` |
| Cart.UpdatePresent | context/CartContext.tsx:116-120 | with q at least 1 and unique ids, only the quantity of the line with that id is overwritten |
| Cart.UpdateAbsent | context/CartContext.tsx:110-121 | updating an id the cart does not hold never inserts and changes nothing, for any q |
| Cart.UpdateKeepsIdsUnique | context/CartContext.tsx:110-121 | `updateQuantity` keeps ids pairwise distinct, whatever q is |
| Cart.UpdateKeepsQuantitiesPositive | context/CartContext.tsx:110-121 | `updateQuantity` keeps every quantity at least 1 for any q, even when ids repeat: below 1 the lines go, otherwise they get q |
| Cart.UpdateItemCount | context/CartContext.tsx:110-129 | the item count changes by the new quantity minus the old, and a q below 1 takes out the whole line |
| Cart.MinusAtOneDeletesLine | app/cart.tsx:52 | the minus button at quantity 1 sends 0, which deletes exactly that line |
| Cart.TotalsAppend | context/CartContext.tsx:127-133 | both folds distribute over concatenation |
| Cart.TotalsAround | context/CartContext.tsx:127-133 | each total is the part before line k, plus line k's share, plus the part after |
| Cart.TotalsAfterLineChange | context/CartContext.tsx:127-133 | replacing one line changes each total by the difference between the two lines |
| Cart.LineTotalIncrease | context/CartContext.tsx:132 | raising a line's quantity raises its price times quantity by the price times the increase |
| Cart.ItemCountAtLeastLines | context/CartContext.tsx:127-129 | with every quantity at least 1, the item count is at least the number of lines |
| Cart.SubtotalNonNegative | context/CartContext.tsx:131-133 | with no negative price or quantity, the subtotal is not negative |
| Cart.ClearedTotals | context/CartContext.tsx:123-133 | after `clearCart` both totals are 0 |
| Cart.CartStore.constructor | context/CartContext.tsx:40-41 | the provider starts with no items, `isLoading` true and nothing saved |
| Cart.CartStore.SaveEffect | context/CartContext.tsx:49-53 | the effect saves the current list if and only if loading is over |
| Cart.CartStore.LoadCart | context/CartContext.tsx:55-66 | the stored list replaces `items` only when one was found; `isLoading` becomes false after success, absence or failure; the one save that follows holds the loaded list |
| Cart.CartStore.AddToCart | context/CartContext.tsx:76-104 | the new list and the notice are `AfterAdd` of the old list with the defaulted quantity (1 when none is given); one save unless loading; uniqueness and positivity preserved |
| Cart.CartStore.RemoveFromCart | context/CartContext.tsx:106-108 | the new list is `AfterRemove` of the old; one save unless loading; well-formedness preserved |
| Cart.CartStore.UpdateQuantity | context/CartContext.tsx:110-121 | the new list is `AfterUpdate` of the old (delegating to removal below 1); one save unless loading; well-formedness preserved |
| Cart.CartStore.ClearCart | context/CartContext.tsx:123-125 | the list becomes empty with both totals 0; one save of the empty list unless loading |
| Cart.CartStore.Relaunch | context/CartContext.tsx:55-66 | a new provider that loads the last saved list ends ready, with the same line items as before |
| Cart.CartStore.GetItemCount | context/CartContext.tsx:127-129 | `getItemCount` is at least the number of lines when every quantity is at least 1 |
| Cart.CartStore.GetSubtotal | context/CartContext.tsx:131-133 | `getSubtotal` is not negative when no price or quantity is |
| Checkout.Digits | app/checkout.tsx:99 | `replace(/\D/g, "")` leaves only the characters 0 to 9 and never lengthens the text |
| Checkout.Substring | app/checkout.tsx:101 | JavaScript `substring`: never longer than the text; the slice `s[start..end]` when both ends are in range and ordered, the rest of the text when only the end is past it, "" when both are |
| Checkout.Chunks | app/checkout.tsx:100 | the groups of a non-empty string: at least one, each 1 to 4 characters, all but the last exactly 4 |
| Checkout.GroupsOfFour | app/checkout.tsx:100 | `match(/.{1,4}/g)`: null exactly when the string is empty |
| Checkout.Join | app/checkout.tsx:101 | no contract of its own; characterised by `GroupedAt` and `StripGrouped` |
| Checkout.GroupedShape | app/checkout.tsx:100-101 | the grouped form of a non-empty digit string has spaces exactly at every fifth position, digits elsewhere, and no trailing space |
| Checkout.FormatCardNumber | app/checkout.tsx:98-102 | the card field holds only digits and spaces and is at most 19 characters long |
| Checkout.GroupedAt | app/checkout.tsx:100-101 | in the grouped form, position i is a space when i mod 5 is 4 and otherwise digit number 4(i div 5) + i mod 5; its length is n + (n - 1) div 4 |
| Checkout.GroupedCut | app/checkout.tsx:101 | cutting the grouped form of more than 16 digits at 19 characters gives the grouped form of the first 16 |
| Checkout.CardNumberClosedForm | app/checkout.tsx:98-102 | the card field is the grouped form of the first min(16, n) digits, or "" when there are none |
| Checkout.StripGrouped | app/checkout.tsx:100-101 | deleting the spaces from the grouped form gives back the digits |
| Checkout.CardNumberDigits | app/checkout.tsx:99-101 | deleting the spaces from the card field gives exactly the first min(16, n) digits of the input, in order |
| Checkout.DigitsOfDigitsAndSpaces | app/checkout.tsx:99 | on text made of digits and spaces, keeping the digits is deleting the spaces |
| Checkout.CardNumberShape | app/checkout.tsx:100-101 | a space exactly at every fifth position and digits elsewhere; no trailing space, so the last group has 1 to 4 digits; "" exactly when the input has no digit |
| Checkout.CardNumberIdempotent | app/checkout.tsx:98-102 | formatting the formatted card number changes nothing |
| Checkout.FormatExpiryDate | app/checkout.tsx:104-110 | fewer than two digits come back unchanged; otherwise the first two digits, "/" at index 2, then the next up to two digits, 3 to 5 characters in all |
| Checkout.DigitsOfDigits | app/checkout.tsx:105 | text made only of digits passes through the cleaning step unchanged |
| Checkout.ExpiryDateIdempotent | app/checkout.tsx:104-110 | formatting the formatted expiry date changes nothing |
| Checkout.OrderTotals | app/checkout.tsx:94-96 | no contract of its own; characterised by `OrderTotalsBounds`, `CheckedCartTotals` and `EmptyCartTotals` |
| Checkout.OrderTotalsBounds | app/checkout.tsx:94-96 | for every cart, grand total = subtotal × 1.08 + 9.99; whenever the subtotal is not negative, the tax is not negative and the grand total is at least 9.99 |
| Checkout.CheckedCartTotals | app/checkout.tsx:94-96 | a cart with no negative price or quantity has a non-negative subtotal and tax and pays at least 9.99 |
| Checkout.EmptyCartTotals | app/checkout.tsx:94-96 | an empty cart totals 0 subtotal, 0 tax and 9.99 to pay |
| Catalog.GetNewestProducts | data/products.ts:188-190 | no contract of its own; `NewestIn` over the product table, characterised by `NewestIn` and `NewestInTableOrder` |
| Catalog.GetProductsByCategory | data/products.ts:192-194 | no contract of its own; `InCategoryIn` over the product table, characterised by `InCategoryIn` and `InCategoryInTableOrder` |
| Catalog.GetProductById | data/products.ts:196-198 | no contract of its own; `ProductByIdIn` over the product table, characterised by `ProductByIdIn`, `ProductByIdIsFirst` and `ProductFoundById` |
| Catalog.GetCategoryBySlug | data/products.ts:200-202 | no contract of its own; `CategoryBySlugIn` over the category table, characterised by `CategoryBySlugIn`, `CategoryBySlugIsFirst` and `ProductCategoriesKnown` |
| Catalog.NewestIn | data/products.ts:188-190 | every product returned is flagged new |
| Catalog.NewestInTableOrder | data/products.ts:188-190 | the newest products are exactly the products flagged new, each as often as in the table, in table order |
| Catalog.InCategoryIn | data/products.ts:192-194 | every product returned has the requested category slug |
| Catalog.InCategoryInTableOrder | data/products.ts:192-194 | a category's products are exactly the products with that slug, as an order-preserving subsequence of the table |
| Catalog.ProductByIdIn | data/products.ts:196-198 | `undefined` exactly when no product has the id; otherwise a product of the table with that id |
| Catalog.ProductByIdIsFirst | data/products.ts:196-198 | the lookup returns the first product with the id |
| Catalog.CategoryBySlugIn | data/products.ts:200-202 | `undefined` exactly when no category has the slug; otherwise a category of the table with that slug |
| Catalog.CategoryBySlugIsFirst | data/products.ts:200-202 | the lookup returns the first category with the slug |
| Catalog.ProductIdsDistinct | data/products.ts:51-186 | the fourteen product ids are pairwise distinct |
| Catalog.ProductFoundById | data/products.ts:196-198 | looking up any product of the table by its own id finds that product |
| Catalog.ProductCategoriesKnown | data/products.ts:20-186 | every product's category is the slug of a listed category, so looking it up always succeeds |

## Left out

- Rendering, styles, `FormInput` and the screen components: these are user interface, not logic.
- Navigation (`router.push`, `replace`, `back`) and the `useCart` provider check (context/CartContext.tsx:149-155): these are React plumbing.
- `Alert.alert` dialogs: `addToCart` returns which dialog it shows, as a `Notice`, and the dialog itself is not modelled.
- AsyncStorage, `JSON.stringify` and `JSON.parse` (context/CartContext.tsx:57-59, 70): the read is a `LoadOutcome` parameter, and a save is a list appended to `saves`. Whether a write lands, and whether the JSON round trip is lossless, are outside the model. `Relaunch` takes the last saved list as what the next load reads.
- The race between the asynchronous initial load and early mutations, the ordering of fire-and-forget saves, and React's batching of several state updates into one render: each method runs to completion in turn, and each mutation issues its own save.
- The 2-second timer in `handlePlaceOrder` (app/checkout.tsx:116-122) and `generateOrderId` (app/order-success.tsx:22-25), which relies on `Math.random`: a timer and a random source.
- Floating-point prices and `toFixed(2)`: prices and totals are exact reals.
- JavaScript numbers that are not integers (fractional, `NaN`) as quantities: quantities are `int`.
- That exactly the first four products are the new ones is not stated as a lemma over the constant table.
