# Cart ledger and order store of Basket-Rush

This project is a Dafny model of the two in-memory stores behind the Basket-Rush
storefront's Express controllers, with proofs about them:

- **Cart ledger** (`controllers/cartController.js`). This is a collection of cart lines
  `{id, user, product, quantity}`. Adding a product the user already has merges into that
  user's line, and the merged quantity is floored at 1. Updating a quantity floors it at 1
  and never deletes. Deleting and clearing only touch the caller's own lines.
- **Order store** (`controllers/orderController.js`). Creating an order rejects an empty
  or missing item list. The payment method is "Cash on Delivery" only for the literal
  `"COD"`. Each item is copied into a snapshot. A cash order starts `Paid`. An online order
  starts `Unpaid` and stores the checkout session the gateway created. It becomes `Paid`
  when that session is confirmed paid. Orders can be listed newest first, fetched, updated
  through an allow-list of fields, and deleted.

Files and modules:

- `http.dfy` (`Http`): optional request fields, the error replies (400, 404, 500) and
  JavaScript truthiness of a string field.
- `cart_ledger.dfy` (`CartLedger`): the cart line, the collection filters (`FindOne`,
  `Filter`), and one function per operation on the ledger value (`Add`, `SetQuantity`,
  `Delete`, `Clear`). The class `CartStore` holds the lines and the id counter as fields.
  Its methods update them in place. Each state-changing method is proved equal to its
  function, and `GetCart` is specified by `Filter`.
- `cart_properties.dfy` (`CartProperties`): the merge floor, what each operation keeps,
  per-user isolation, and the result of a run of adds.
- `order_lifecycle.dfy` (`OrderLifecycle`): the pure parts of order creation, the
  newest-first sort, the allow-list update, and the class `OrderStore` with one method per
  route.
- `order_properties.dfy` (`OrderProperties`): what confirmation, update and deletion may
  change, and how payment method and payment status are tied together.

External collaborators become parameters:

- The authenticated user is a parameter of every cart operation and of `CreateOrder`.
- The payment gateway is two function-typed parameters:
  - `gateway` creates a checkout session;
  - `retrieve` reads a session's payment status.
  
  Either one returns `None` when the call throws, and the controller then replies 500.
- The random token of the order id and the clock (`createdAt`) are parameters too.
- The document store's generated `_id`s are modelled by counters that each store keeps.

Three behaviours of the code are worth stating outright:

- **A run of adds does not leave `max(1, sum)`.** The first add stores its quantity as
  given, and every later add applies `max(1, old + q)`. The floor therefore applies at
  every step, not once to the total. `CartProperties.AccumulateFloorsEachStep` shows an
  input where the two differ: 5, -10, 3 gives 4 where `max(1, 2)` would give 1.
- **Confirming payment does not look at the current status.** `confirmPayment` sets
  "Paid" on the first order with that session id, whether or not it is "Unpaid".
- **The deletion branch of `addToCart` is dead.** This branch
  (`controllers/cartController.js:38-41`) cannot run after the floor. The method asserts
  `merged >= 1` at that point.

## Model

| member | source | states |
|---|---|---|
| `CartLedger.ProductOf` | controllers/cartController.js:25-29 | The product is `productId` when it is truthy, and `itemId` otherwise. There is none exactly when both are falsy. |
| `CartLedger.FindOne` | controllers/cartController.js:34 | `findOne` returns the first line the filter selects, or -1 when no line of the collection matches. |
| `CartLedger.Filter` | controllers/cartController.js:107 | `find` and `deleteMany` keep exactly the lines whose selection has the given polarity. Both keep unique ids and at most one line per (user, product). |
| `CartLedger.Add` | controllers/cartController.js:34-56 | The merge-or-create step preserves the ledger invariant: unique ids, at most one line per (user, product), and every id below the next id. |
| `CartLedger.SetQuantity` | controllers/cartController.js:73-78 | Setting a line's quantity preserves the ledger invariant. |
| `CartLedger.Delete` | controllers/cartController.js:93-97 | Removing one owned line preserves the ledger invariant. |
| `CartLedger.Clear` | controllers/cartController.js:107 | Removing all of a user's lines preserves the ledger invariant. |
| `CartLedger.CartStore.GetCart` | controllers/cartController.js:7-15 | It returns exactly the views (id, product, quantity) of the caller's lines, one per line. |
| `CartLedger.CartStore.AddToCart` | controllers/cartController.js:25-63 | It fails with 400 and changes nothing exactly when there is no truthy product identifier or no numeric quantity. Otherwise the new ledger is `Add` of the old one. It answers `Created` exactly when the caller had no line for the product, and it returns the caller's line for the product. |
| `CartLedger.CartStore.UpdateCartItem` | controllers/cartController.js:72-84 | It fails with 404 exactly when the caller owns no line with that id. Otherwise the line's quantity becomes `max(1, q)`, which is at least 1. The new ledger is `SetQuantity` of the old one. |
| `CartLedger.CartStore.DeleteCartItem` | controllers/cartController.js:93-98 | It fails with 404 exactly when the caller owns no line with that id. Otherwise the new ledger is `Delete` of the old one. |
| `CartLedger.CartStore.ClearCart` | controllers/cartController.js:107-108 | The new ledger is `Clear` of the old one, and the ledger invariant is kept. |
| `CartProperties.AddLeavesOtherCarts` | controllers/cartController.js:34-56 | An add by one user leaves every other user's cart line for line as it was. |
| `CartProperties.SetQuantityLeavesOtherCarts` | controllers/cartController.js:73-77 | A quantity update by one user leaves every other user's cart as it was. |
| `CartProperties.DeleteLeavesOtherCarts` | controllers/cartController.js:93-97 | A delete by one user leaves every other user's cart as it was, even when that user names another user's line id. |
| `CartProperties.ClearLeavesOtherCarts` | controllers/cartController.js:107 | Clearing one user's cart leaves every other user's cart as it was. |
| `CartProperties.ClearRemovesExactlyCallersLines` | controllers/cartController.js:107 | After a clear, the collection holds exactly the lines of other users. |
| `CartProperties.AddMergesExistingLine` | controllers/cartController.js:36-48 | A repeated add keeps the line in place with the same id. Its quantity becomes `max(1, old + q)`, so it is at least 1 and the line is never removed. No other line and not the next id change. |
| `CartProperties.AddCreatesOneLine` | controllers/cartController.js:52-56 | A first add appends exactly one line, with the next id and the quantity as given (not floored). |
| `CartProperties.SetQuantityNeverDeletes` | controllers/cartController.js:73-78 | A quantity update keeps every line in its place. The updated line changes only its quantity, to `max(1, q)`, which is at least 1. Every other line, the caller's included, stays as it was. |
| `CartProperties.DeleteRemovesExactlyThatLine` | controllers/cartController.js:93-97 | Deleting an owned line removes exactly the line with that id. Every other line remains. A line the caller does not own changes nothing. |
| `CartProperties.RepeatedAddsKeepOneLine` | controllers/cartController.js:34-56 | After a run of adds of one product to a cart without it, there is exactly one line for that product. It has the first add's id and the accumulated quantity, and the ledger stays consistent. |
| `CartProperties.AccumulateOfPositives` | controllers/cartController.js:37 | With positive quantities only, the accumulated quantity is their sum. |
| `CartProperties.AccumulateFloorsEachStep` | controllers/cartController.js:37 | Adds of 5, -10 and 3 leave 4, not `max(1, sum)` = 1. A first add of -2 is stored as -2. Adds of 2 and 3 leave 5. |
| `OrderLifecycle.NormalizePaymentMethod` | controllers/orderController.js:14-15 | The method is cash on delivery if and only if the request's payment method is exactly "COD". Its label is then "Cash on Delivery", and otherwise "Online Payment". |
| `OrderLifecycle.Snapshot` | controllers/orderController.js:17-23 | The snapshot has the same length and order as the request's items. Each entry keeps the item's id, name, price, quantity and image URL. |
| `OrderLifecycle.CheckoutLines` | controllers/orderController.js:32-39 | There is one session line item per order item, in the fixed currency. Each has the item's name and quantity, and a unit amount of 100 times the price. |
| `OrderLifecycle.BuildOrder` | controllers/orderController.js:46-75 | The saved document copies the key, order id, user, customer, items, notes and delivery date. Shipping is 0. A cash order has no session and is "Paid". An online order has the gateway's session and payment intent and is "Unpaid". |
| `OrderLifecycle.FindOrder` | controllers/orderController.js:96-97 | The lookup returns the first order matching the id or the session id, or -1 when none does. |
| `OrderLifecycle.Applied` | controllers/orderController.js:147-151 | Only `status`, `paymentStatus`, `deliveryDate` and `notes` can change. Each of them takes the update's value when the update has one, and keeps its old value otherwise. |
| `OrderLifecycle.CollectAllowed` | controllers/orderController.js:139-145 | The allow-list loop builds exactly the allow-listed fields present in the body, with the body's values. |
| `OrderLifecycle.InsertByDate` | controllers/orderController.js:113 | Inserting into a newest-first sequence adds exactly that order and keeps the sequence newest first. |
| `OrderLifecycle.NewestFirst` | controllers/orderController.js:112-114 | The sorted list is a permutation of the store, ordered by `createdAt` descending. |
| `OrderLifecycle.OrderStore.CreateOrder` | controllers/orderController.js:9-82 | A missing or empty item list gives 400. Any failure stores nothing. A cash request with items always succeeds, and the order is stored "Paid" with no session and no checkout URL. An online order is stored only after the gateway created its session, and then it is "Unpaid" with that session id and the session's URL. A missing customer or a failed gateway call gives 500. The order id is "ORD-" followed by the token. |
| `OrderLifecycle.OrderStore.ConfirmPayment` | controllers/orderController.js:88-103 | A missing session id gives 400, a failed retrieval gives 500, and an unpaid session gives 400; none of these changes anything. Otherwise the store becomes `Confirmed`: the first order with that session id is marked "Paid" and returned. When no order has that session id, the reply is 404. |
| `OrderLifecycle.OrderStore.GetOrders` | controllers/orderController.js:112-115 | It returns all orders and only them, newest first. |
| `OrderLifecycle.OrderStore.GetOrderById` | controllers/orderController.js:125-129 | It returns an order with that id, or 404 when no order has it. |
| `OrderLifecycle.OrderStore.UpdateOrder` | controllers/orderController.js:139-156 | The store becomes `Updated`: the allow-listed fields of the body are applied to the order with that id. The reply is 404 when there is no such order. |
| `OrderLifecycle.OrderStore.DeleteOrder` | controllers/orderController.js:166-170 | The store becomes `Removed`. The reply is 404 when no order has that id. |
| `OrderProperties.ConfirmMarksOnlyThatOrder` | controllers/orderController.js:96-100 | Confirmation changes only the first order with that session id, and in it only the payment status, which becomes "Paid". Without such an order nothing changes. |
| `OrderProperties.ConfirmNeverUnpays` | controllers/orderController.js:96-100 | No confirmation moves a "Paid" order to any other status. |
| `OrderProperties.ConfirmLeavesCashOrders` | controllers/orderController.js:65-75 | In a well-formed store, a cash-on-delivery order has no session id, so confirmation never touches it. |
| `OrderProperties.CreateAndConfirmKeepCashPaid` | controllers/orderController.js:65-77 | Appending a newly built order, cash or online, and confirming payments keep every cash-on-delivery order "Paid". |
| `OrderProperties.UpdateCanUnpayCashOrder` | controllers/orderController.js:139-151 | The update route can set a paid cash-on-delivery order back to "Unpaid". |
| `OrderProperties.UnknownFieldIgnored` | controllers/orderController.js:139-145 | Adding or removing a request field outside the allow-list does not change what is applied. |
| `OrderProperties.UpdateTouchesOnlyThatOrder` | controllers/orderController.js:147-156 | An update changes only the order with that id, and in it only the allow-listed fields the request carries. An unknown id changes nothing. |
| `OrderProperties.DeleteRemovesExactlyThatOrder` | controllers/orderController.js:166-170 | Deleting an existing id removes exactly the order with that id. An unknown id changes nothing. |
| `OrderProperties.NewestFirstStartsWithNewest` | controllers/orderController.js:112-114 | The first order of the list is at least as recent as every order in the store. |

## Left out

- Payment gateway: the model does not capture the session request's `payment_method_types`, `mode`, success and cancel URLs (built from the environment's front-end URL) or the `metadata` object beyond the order id. The gateway is a function parameter, and its calls are taken to be sequential and free of side effects.
- Prices: they are whole numbers. `Math.round(price * 100)` and the `Number(...)` coercions of price and quantity are floating point and are not modelled. The unit amount is exactly 100 times the price.
- JavaScript values: quantities are integers. NaN, non-integer numbers and `Math.max(1, undefined)` in `updateCartItem` are not modelled. A request field of another type (a number given as `paymentMethod`, a repeated `session_id`) counts as missing or as not "COD". Update-body values are strings, and `null` is not modelled.
- Product expansion: `populate` is not modelled, so a cart line's product is an opaque id.
- Document-store failures: failed writes, `_id` strings that are not valid ids (cast errors, which give 500) and schema validation (`runValidators`) are not modelled. models/orderModel.js is not part of this model. The default fulfilment status "pending" and the `createdAt` timestamp set at save time are taken as that schema's behaviour.
- Order list ties: the document store does not fix the order among orders with equal `createdAt`. The model keeps store order.
- Removal reply: the `{message: 'Item removed'}` reply of `addToCart` is not modelled, because its branch cannot run (see above).
- `CartLedger.CartStore.GetCart`: states which lines are returned and how many, not the order they come in.
- Not part of this model: authentication (middleware/auth.js; the user is a parameter), logging, routing and server setup (server.js, routes/), the product controller, and the React front end.
- Concurrency: requests are sequential. The lost-update race of concurrent adds and an orphaned session after a crash between session creation and order save are not modelled.
