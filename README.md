# Proshop order controller: repricing and payment settlement

This project models the order controller of a MERN e-commerce back end
(`backend/controllers/orderController.js`). It covers the three handlers that
decide what gets stored:

- `addOrderItems` creates an order. It rejects an empty item list. It asks the
  catalogue for the submitted product ids and rejects the request when the
  number of products found differs from the number of items submitted. It then
  replaces each client price with the catalogue price and takes the four
  amounts from `calcPrices` over the repriced items. One order is saved.
- `updateOrderToPaid` settles a PayPal payment. Four guards run in a fixed
  order: the payment is verified, the transaction id was never used, the order
  exists, and the order's total renders to the amount PayPal settled. Only
  then are `isPaid`, `paidAt` and `paymentResult` set and the order saved.
- `updateOrderToDelivered` sets `isDelivered` and `deliveredAt` on an existing
  order.

Layout:

- `order_types.dfy` (module `OrderTypes`): client line items, stored line
  items, orders, the oracle's answer, and the errors with their messages.
- `pricing.dfy` (module `Pricing`): the checks and repricing of
  `addOrderItems` as functions over sequences, with a `map` for the catalogue.
  `Found` is the result of the `$in` query: each matching product once.
- `settlement.dfy` (module `Settlement`): `Settle` specifies the guard chain
  of `updateOrderToPaid`. `IsNewTransaction` is the replay check: no stored
  order has `paymentResult.id` equal to the reference. The module also holds
  the lemmas about settlement.
- `order_store.dfy` (module `OrderController`): class `OrderStore`. It holds the
  order collection as a `map<OrderId, Order>` and has one method per handler.
  Each method updates the map in place. On every error the map is unchanged.
  `Valid()` holds for every store and is kept by all three methods. It says
  that each order's amounts are `calcPrices` of its own items, that the paid
  and delivered flags agree with their timestamps and payment result, and that
  no two stored orders record the same transaction. This is a fact about the
  store as it is now, not about its history (see below). `PayOnceExample` is
  a client of the store.

Inputs of the system that are not code here are parameters:

- the catalogue (`map<ProductId, Price>`);
- the payment oracle's answer (`Verification(verified, value)`);
- the current time (`now`);
- the pricing policy of `utils/calcPrices.js` (`calcPrices`, fixed when the
  store is made);
- the text `totalPrice.toString()` yields for a stored total (`priceText`);
  the order schema is not part of this model, so this rendering is left open.

Some behaviours of the code are easy to miss; the model follows the code:

- The count check compares raw lengths. A request that names the same product
  twice is therefore rejected, even though the product exists.
- Settlement never reads `isPaid`. An order that is already paid can be paid
  again by a different, new transaction, which overwrites `paidAt` and
  `paymentResult`. Only the transaction-reference check blocks replays, and it
  looks only at the references stored now.
- A reference can therefore settle two orders over time. Suppose T1 pays order A,
  and then a new transaction T2 pays A again and overwrites its `paymentResult`.
  T1 is then no longer recorded anywhere and passes the replay check, so it can
  pay order B.
- The amount check compares `totalPrice.toString()` with the oracle's string.
  No decimal normalisation is done.
- The replay check and the final save are not atomic. The model is sequential.

## Model

| member | source | states |
|---|---|---|
| `Pricing.FoundCountMatches` | backend/controllers/orderController.js:28-36 | The number of catalogue products found equals the number of submitted items exactly when every submitted id is in the catalogue and no id is submitted twice. |
| `Pricing.DuplicateIdsRejected` | backend/controllers/orderController.js:28-36 | An id submitted twice makes the count check fail, even when the product exists. |
| `Pricing.Reprice` | backend/controllers/orderController.js:39-49 | Repricing keeps the length and order of the client's items. Each item's price is the catalogue price of its `_id`, and `product` is that `_id`. Name, image and quantity are kept. The result has no `_id` field. |
| `Pricing.PriceOrder` | backend/controllers/orderController.js:18-49 | An empty list fails with `NoOrderItems`. A non-empty list with a missing or repeated id fails with `ProductsNotFound`. Otherwise the result is the repriced list. |
| `Pricing.ClientPricesIgnored` | backend/controllers/orderController.js:22-49 | Two submissions that differ only in client prices have the same outcome: the client's prices never reach the order. |
| `Pricing.CreateOrder` | backend/controllers/orderController.js:13-64 | The order to be saved has the repriced items, and its four amounts are `calcPrices` of those items. It keeps the user, address and payment method, and it starts unpaid and undelivered. It exists exactly when the item checks pass. An empty list gets `NoOrderItems`, and a non-empty list with a missing or repeated id gets `ProductsNotFound`. |
| `Settlement.SettleGuards` | backend/controllers/orderController.js:132-157 | Settlement succeeds exactly when the payment is verified, the reference is new, the order exists and the total's text equals the settled value. A failure is reported by the first guard that fails, in that order, whatever the later guards would say. |
| `Settlement.SettleChangesOnlyPayment` | backend/controllers/orderController.js:159-166 | A settled order has `isPaid` true, `paidAt` set to now and `paymentResult` built from the request. Every other field is as before. |
| `Settlement.SettledRefUsedOnce` | backend/controllers/orderController.js:139-168 | After a successful settlement, the reference is used by exactly one stored order: the one just settled. |
| `Settlement.ReplayRejected` | backend/controllers/orderController.js:132-143 | Once a reference has settled an order, the next settlement with it fails for every order id. The error is "Transaction has been used before" when the oracle verifies the payment, and "Payment not verified" otherwise. |
| `Settlement.ReplayAfterOverwrite` | backend/controllers/orderController.js:139-166 | The replay check sees only references stored now. Suppose T1 pays order A, then a new T2 pays A again and overwrites its payment result. T1 is then new again and settles a second order B. |
| `Settlement.SettlePreservesUniqueRefs` | backend/controllers/orderController.js:138-168 | If no two stored orders record the same reference before a settlement, none do after it. |
| `Settlement.RepaymentNotBlockedByIsPaid` | backend/controllers/orderController.js:145-159 | An order that is already paid is settled again by a verified, new transaction of the right amount. |
| `OrderController.OrderStore.AddOrderItems` | backend/controllers/orderController.js:13-76 | On failure the store is unchanged, with the error `CreateOrder` gives. On success exactly one order, `CreateOrder`'s, is added under an id not used before. The store invariant is kept. |
| `OrderController.OrderStore.UpdateOrderToPaid` | backend/controllers/orderController.js:128-180 | The outcome is `Settle` of the old store. An unverified payment and a reused reference fail first, and the store is unchanged on every error. On success only the target order changes. It is marked paid, and the reference is then used by that order alone. |
| `OrderController.OrderStore.UpdateOrderToDelivered` | backend/controllers/orderController.js:187-206 | A missing order fails with "Order not found" and the store is unchanged. Otherwise only the target order changes: it gets `isDelivered` true and `deliveredAt` now, and every other field is kept. |

## Left out

- HTTP plumbing is not modelled: `res.status`, `res.json`, `asyncHandler` and the catch blocks. In `addOrderItems` and `updateOrderToPaid` the catch blocks answer 500, because the thrown errors carry no `status`. The catch block of `updateOrderToDelivered` sends a bare 500 and then calls `.json` on a response that was already sent, so its "Order not found" message never reaches the client. An outcome is modelled as an `Error` value with its message.
- `getMyOrders`, `getOrdersById` and `getOrders` are plain store lookups with no checks, so they are not modelled.
- `verifyPayPalPayment` is a network call in `utils/paypal.js`, which is not part of this model. Its answer is a parameter.
- `checkIfNewTransaction` lives in `utils/paypal.js`, which is not part of this model. It is specified as `IsNewTransaction` over the stored orders.
- The internals of `calcPrices` are not modelled. `utils/calcPrices.js` is not part of this model, and its arithmetic is floating point. It is a parameter, so `totalPrice == itemsPrice + taxPrice + shippingPrice` is not assumed.
- How a stored total renders as text is a parameter (`priceText`). The order schema, `models/orderModel.js`, is not part of this model, so its number type and formatting are unknown.
- A request with no `orderItems` at all is not modelled. The code does not reject it at the empty check; it throws at `.map`. Items are a sequence, so only the empty case arises.
- Failures of the data layer are not modelled: ids that are not valid ObjectIds, a request without `payer`, and store errors. All of these throw inside the handlers.
- `Date.now()` is the parameter `now`. Order ids come from a counter in the store rather than from ObjectId generation.
- Concurrency is not modelled. The code performs the replay check and the save as separate steps, and the model runs every handler to completion, one at a time.
- Prices are unbounded reals, so floating-point rounding is not modelled.
