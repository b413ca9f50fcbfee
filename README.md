# Cart logic of the foodwiz storefront client

This project models the client-side cart logic of the foodwiz Next.js storefront in Dafny and proves properties of it. There are three parts:

- **The cart store** (`CartStore`, `cart_store.dfy`). The store holds one `items` list. Its `addItem`, `removeItem` and `clear` reducers are pure functions over `seq<CartItem>`. Lines are keyed by `menuItemId`. A repeated add raises the quantity by one, and a first add appends a line with quantity 1. `Run` dispatches a sequence of actions to a fresh store. The proofs show that every reachable state has distinct ids and only positive quantities.
- **The module-level cart** (`GlobalCart`, `global_cart.dfy`). This is a second, independent cart held in one mutable variable. The model is the class `Cart`, whose field `cart` the methods `ClearCart` and `AddToCart` reassign. Here lines are keyed by the pair (`menuItemId`, `restaurantId`). A match raises the first matching line by the incoming `quantity`, and with no match the item is appended. `AddToCart` is a search loop proved against the specification function `Added`. Lemmas about `Added` state what the add does.
- **The cart page** (`CartPage`, `cart_page.dfy`). This module models:
  - reading the payload from the `data` query parameter;
  - the empty-cart decision;
  - the per-line subtotals and the total;
  - the order request body;
  - the login guard in front of the order submission.

`CartLines` (`cart_lines.dfy`) holds the line type shared by both carts and the sum of their quantities. `Options` (`options.dfy`) holds the optional value that stands for the source's `null`.

Prices are integers in minor currency units, and quantities are integers (see "## Left out" for how this differs from the source's numbers).

Facts about the code that shape the model:
- `removeItem` deletes every line with the id (frontend/src/lib/cart-store.ts:42). There is no one-unit decrement, and the model has none.
- No encoder for the `data` parameter exists in the modelled files. The page only reads the parameter through `decodeURIComponent` and `JSON.parse`, which the model takes as an uninterpreted decoder, so no round trip is stated.
- JavaScript treats an empty string as false. An empty `data` parameter therefore counts as a missing one, and so does an empty stored token.
- The store's `addItem` raises every line with the id, not only the first. With distinct ids, which every reachable state has, this comes to exactly one line.
- `Run` and `Apply` stand for the store dispatching its actions one after another; they model no source function of their own and exist so that properties of every reachable state can be stated.

## Model

| member | source | states |
|---|---|---|
| CartStore.InitialState | frontend/src/lib/cart-store.ts:21 | the store starts with no line: no id is present, the invariants hold and the quantity sum is 0 |
| CartStore.FreshLine | frontend/src/lib/cart-store.ts:37 | the appended line copies the item's id, restaurant, name and price and has quantity 1 |
| CartStore.IncrementMatching | frontend/src/lib/cart-store.ts:29-33 | same length; every line keeps its id, restaurant, name and price; a line's quantity grows by 1 exactly when its id is the added one |
| CartStore.AddItem | frontend/src/lib/cart-store.ts:22-39 | after an add the id is present; the length is unchanged for a known id and grows by one for a new id |
| CartStore.AddItemNew | frontend/src/lib/cart-store.ts:36-38 | a new id is appended at the end with quantity 1 and the item's id, restaurant, name and price; all earlier lines are unchanged |
| CartStore.AddItemExisting | frontend/src/lib/cart-store.ts:24-34 | re-adding the id of line k raises its quantity by exactly 1; the line keeps its original name, price and restaurant; the length is unchanged; every other line is unchanged in place |
| CartStore.AddItemKeepsDistinct | frontend/src/lib/cart-store.ts:24-38 | pairwise distinct ids stay distinct after an add |
| CartStore.AddItemKeepsPositive | frontend/src/lib/cart-store.ts:29-38 | if every quantity is at least 1, it still is after an add |
| CartStore.IncrementMatchingTotal | frontend/src/lib/cart-store.ts:29-33 | raising every line with the id raises the quantity sum by the number of such lines |
| CartStore.CountIdDistinct | frontend/src/lib/cart-store.ts:24-26 | with distinct ids, an id occurs on exactly one line if it is present and on none otherwise |
| CartStore.AddItemTotal | frontend/src/lib/cart-store.ts:22-39 | the quantity sum grows by the number of lines with the id, or by 1 when the id is new |
| CartStore.AddItemTotalDistinct | frontend/src/lib/cart-store.ts:22-39 | with distinct ids, the quantity sum grows by exactly 1 |
| CartStore.RemoveItem | frontend/src/lib/cart-store.ts:40-43 | no line with the id remains; a line is kept iff it was present and has another id; the length drops by the number of lines with the id; removing an absent id changes nothing |
| CartStore.RemoveItemAppend | frontend/src/lib/cart-store.ts:42 | removal keeps relative order: removing from a concatenation concatenates the removals |
| CartStore.RemoveKeepsDistinct | frontend/src/lib/cart-store.ts:42 | pairwise distinct ids stay distinct after a removal |
| CartStore.RemoveItemKeepsInvariants | frontend/src/lib/cart-store.ts:40-43 | distinct ids and quantities of at least 1 survive a removal |
| CartStore.Clear | frontend/src/lib/cart-store.ts:44 | after clearing, no id is present and the quantity sum is 0 |
| CartStore.ApplyNeverDecrements | frontend/src/lib/cart-store.ts:22-44 | no action lowers a line: each resulting line is a fresh line of quantity 1 or has an earlier line with the same id and no larger quantity |
| CartStore.RunInvariant | frontend/src/lib/cart-store.ts:20-45 | every state reached from the empty initial list has distinct ids and quantities of at least 1 |
| CartStore.RunAddTotal | frontend/src/lib/cart-store.ts:21-39 | in any reachable state, an add raises the quantity sum by exactly 1 |
| GlobalCart.FirstMatch | frontend/src/lib/cart.ts:20-22 | the search finds the first line matching both menuItemId and restaurantId, or reports that no line matches |
| GlobalCart.Cart.constructor | frontend/src/lib/cart.ts:9 | the module starts with an empty cart |
| GlobalCart.Cart.GetCart | frontend/src/lib/cart.ts:11-13 | returns the current lines and changes nothing |
| GlobalCart.Cart.ClearCart | frontend/src/lib/cart.ts:15-17 | afterwards the cart is empty |
| GlobalCart.ClearThenGet | frontend/src/lib/cart.ts:11-17 | after clearing, reading the cart gives an empty list |
| GlobalCart.Added | frontend/src/lib/cart.ts:19-28 | after the add, a search for the item's (menuItemId, restaurantId) pair finds a line; the length is unchanged or grows by one |
| GlobalCart.Cart.AddToCart | frontend/src/lib/cart.ts:19-28 | the new cart is the old one with the first matching line raised by item.quantity, or with the item appended when no line matches |
| GlobalCart.AddedMatch | frontend/src/lib/cart.ts:23-24 | on a match, the first matching line's quantity grows by item.quantity, not by 1; its other fields are kept; the length is unchanged; other lines are unchanged |
| GlobalCart.AddedNoMatch | frontend/src/lib/cart.ts:25-26 | with no match, the item is appended at the end after the unchanged lines and the length grows by 1 |
| GlobalCart.AddedOtherRestaurant | frontend/src/lib/cart.ts:20-26 | a line with the same menuItemId but another restaurant is never merged into: it stays as it was; with no pair match the item gets a separate line at the end |
| GlobalCart.AddedTotal | frontend/src/lib/cart.ts:19-28 | the quantity sum grows by exactly item.quantity, whatever its sign |
| GlobalCart.AddedKeepsDistinct | frontend/src/lib/cart.ts:20-27 | pairwise distinct (menuItemId, restaurantId) pairs stay distinct |
| CartPage.ReadPayload | frontend/src/app/cart/page.tsx:24-32 | a missing or empty parameter gives no payload; otherwise the result is the decoder's, where a throwing or null decode gives no payload |
| CartPage.ShowsEmpty | frontend/src/app/cart/page.tsx:34 | the empty-cart view is chosen when there is no payload or its item list is empty; its relation to the parameter is stated by ShowsEmptyIff |
| CartPage.ShowsEmptyIff | frontend/src/app/cart/page.tsx:24-34 | the empty-cart view is shown iff the parameter is missing or empty, fails to decode, or decodes to zero items |
| CartPage.MalformedLikeEmpty | frontend/src/app/cart/page.tsx:25-34 | a missing or undecodable payload shows the same empty view as an explicitly empty cart |
| CartPage.Subtotals | frontend/src/app/cart/page.tsx:114 | one displayed amount per line, equal to price × quantity |
| CartPage.Total | frontend/src/app/cart/page.tsx:50-53 | the left fold from 0 of price × quantity equals the sum of the per-line subtotals displayed at line 114 |
| CartPage.TotalAppend | frontend/src/app/cart/page.tsx:50-53 | the total of concatenated lines is the sum of their totals |
| CartPage.TotalNonNegative | frontend/src/app/cart/page.tsx:50-53 | with non-negative prices and quantities, the total is non-negative |
| CartPage.TotalExample | frontend/src/app/cart/page.tsx:50-53 | lines 100 × 2 and 50 × 1 total 250; no lines total 0 |
| CartPage.OrderBody | frontend/src/app/cart/page.tsx:72-78 | the body keeps restaurantId and maps each line, in order and with the same length, to its menuItemId and quantity; without a payload it is "" and [] |
| CartPage.OrderBodyIgnoresNameAndPrice | frontend/src/app/cart/page.tsx:72-78 | names and prices are dropped: payloads that agree on restaurant, ids and quantities give the same body |
| CartPage.NonEmptyViewSendsItems | frontend/src/app/cart/page.tsx:34-78 | when the cart view (not the empty view) is shown, the order body has at least one line |
| CartPage.PlaceOrder | frontend/src/app/cart/page.tsx:55-78 | without a stored token (absent or empty) the user is redirected to /login and nothing is posted; otherwise the order body is posted with a bearer authorization |

## Left out

- Floating-point prices and the `toFixed(2)` display formatting. Prices are integers in minor units, so the model has no rounding.
- The payload decoder (`decodeURIComponent` and `JSON.parse`). These library calls are a parameter that returns an optional payload. The `as CartPayload` cast checks no shape, so a well-formed but mis-shaped payload is outside the model.
- Neither cart restricts its lines to one restaurant. The store keys lines by `menuItemId` alone and keeps the first line's `restaurantId`; the module-level cart keeps one line per (`menuItemId`, `restaurantId`) pair, so one cart can hold lines of several restaurants. The model states what the code does and adds no such restriction.
- JavaScript number behaviour of quantities and prices. `item.quantity` (frontend/src/lib/cart.ts:24) and the payload's `price` and `quantity` (frontend/src/app/cart/page.tsx:51, :114) are JS numbers, which may be fractional or NaN and lose precision above 2^53; menu prices are typed `number | string` (frontend/src/lib/api.ts:44), and `*` coerces a string price. The model uses unbounded integers, so it does not capture fractions, NaN, precision loss or string coercion.
- Object aliasing in the module-level cart. `cart.push(item)` stores the caller's object, `existing.quantity +=` mutates that shared object in place, and `getCart` hands out the live array. The model treats lines as values, so it does not capture changes a caller makes through those references.
- The store's `create`/`set` machinery and its `console.log` at load time. Only the reducer bodies are modelled.
- The asynchronous flow of the order submission. This covers `fetch`, the response check, `alert`, the redirect to `/orders`, and the `loading` and `error` state. Only the token guard and the request body are modelled.
- The API wrappers, the login, restaurant, menu and orders pages, and the layout. These are rendering and request plumbing.
- CartStore.AddItemExisting: stated only for carts with distinct ids. Every reachable store state has distinct ids (RunInvariant). For other carts, CartStore.AddItemTotal gives the general effect on the quantity sum.
