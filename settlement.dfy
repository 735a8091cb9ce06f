/** Payment settlement (`updateOrderToPaid`): four guards in a fixed order,
    then the order is marked paid with the transaction's details. */
module Settlement {
  import opened OrderTypes

  /** The order was settled by the transaction `ref`. */
  predicate HasRef(o: Order, ref: string) {
    o.paymentResult.Some? && o.paymentResult.value.id == ref
  }

  /** The replay check: no stored order was settled by `ref`. */
  predicate IsNewTransaction(orders: map<OrderId, Order>, ref: string) {
    forall id | id in orders :: !HasRef(orders[id], ref)
  }

  /** The orders that were settled by `ref`. */
  function UsedBy(orders: map<OrderId, Order>, ref: string): set<OrderId> {
    set id | id in orders && HasRef(orders[id], ref)
  }

  /** No two stored orders record the same transaction. */
  ghost predicate UniqueRefs(orders: map<OrderId, Order>) {
    forall a, b :: a in orders && b in orders && a != b && orders[a].paymentResult.Some? ==>
      !HasRef(orders[b], orders[a].paymentResult.value.id)
  }

  /** The assignments to `isPaid`, `paidAt` and `paymentResult`. */
  function MarkPaid(o: Order, details: PaymentDetails, now: Time): Order {
    o.(isPaid := true,
       paidAt := Some(now),
       paymentResult := Some(PaymentResult(details.id, details.status, details.updateTime, details.payerEmail)))
  }

  /** The order `updateOrderToPaid` saves, or the error it raises. `v` is the
      oracle's answer for `details.id` and `priceText` renders a stored total
      as `toString()` does. */
  function Settle(orders: map<OrderId, Order>, orderId: OrderId, details: PaymentDetails,
                  v: Verification, now: Time, priceText: Price -> string): Result<Order>
  {
    if !v.verified then Err(PaymentNotVerified)
    else if !IsNewTransaction(orders, details.id) then Err(TransactionUsed)
    else if orderId !in orders then Err(OrderNotFound)
    else if priceText(orders[orderId].totalPrice) != v.value then Err(IncorrectAmount)
    else Ok(MarkPaid(orders[orderId], details, now))
  }

  /** Settlement succeeds exactly when all four guards pass, and each failure
      is reported by the first guard that fails, whatever the later ones say. */
  lemma SettleGuards(orders: map<OrderId, Order>, orderId: OrderId, details: PaymentDetails,
                     v: Verification, now: Time, priceText: Price -> string)
    ensures var r := Settle(orders, orderId, details, v, now, priceText);
      && (r.Ok? <==> v.verified && IsNewTransaction(orders, details.id) && orderId in orders
                     && priceText(orders[orderId].totalPrice) == v.value)
      && (!v.verified ==> r == Err(PaymentNotVerified))
      && (v.verified && !IsNewTransaction(orders, details.id) ==> r == Err(TransactionUsed))
      && (v.verified && IsNewTransaction(orders, details.id) && orderId !in orders ==> r == Err(OrderNotFound))
      && ((v.verified && IsNewTransaction(orders, details.id) && orderId in orders &&
           priceText(orders[orderId].totalPrice) != v.value) ==> r == Err(IncorrectAmount))
  {
  }

  /** A successful settlement changes the payment fields of the target order
      and nothing else of it. */
  lemma SettleChangesOnlyPayment(orders: map<OrderId, Order>, orderId: OrderId, details: PaymentDetails,
                                 v: Verification, now: Time, priceText: Price -> string)
    requires Settle(orders, orderId, details, v, now, priceText).Ok?
    ensures var o, p := orders[orderId], Settle(orders, orderId, details, v, now, priceText).value;
      && p.isPaid && p.paidAt == Some(now)
      && p.paymentResult == Some(PaymentResult(details.id, details.status, details.updateTime, details.payerEmail))
      && p.(isPaid := o.isPaid, paidAt := o.paidAt, paymentResult := o.paymentResult) == o
  {
  }

  /** After a successful settlement the transaction is used by exactly one
      order: the one just settled. */
  lemma SettledRefUsedOnce(orders: map<OrderId, Order>, orderId: OrderId, details: PaymentDetails,
                           v: Verification, now: Time, priceText: Price -> string)
    requires Settle(orders, orderId, details, v, now, priceText).Ok?
    ensures UsedBy(orders[orderId := Settle(orders, orderId, details, v, now, priceText).value], details.id) == {orderId}
  {
  }

  /** The settlement that follows a successful one fails when it uses the
      same transaction, whichever order it names, and is reported as a reused
      transaction once the oracle verifies it. */
  lemma ReplayRejected(orders: map<OrderId, Order>, orderId: OrderId, details: PaymentDetails,
                       v: Verification, now: Time, priceText: Price -> string,
                       orderId2: OrderId, details2: PaymentDetails, v2: Verification, now2: Time)
    requires Settle(orders, orderId, details, v, now, priceText).Ok?
    requires details2.id == details.id
    ensures var after := orders[orderId := Settle(orders, orderId, details, v, now, priceText).value];
      var r := Settle(after, orderId2, details2, v2, now2, priceText);
      && r.Err?
      && r.error == (if v2.verified then TransactionUsed else PaymentNotVerified)
  {
    var after := orders[orderId := Settle(orders, orderId, details, v, now, priceText).value];
    assert HasRef(after[orderId], details2.id);
  }

  /** Settlement keeps every transaction recorded on at most one stored order. */
  lemma SettlePreservesUniqueRefs(orders: map<OrderId, Order>, orderId: OrderId, details: PaymentDetails,
                                  v: Verification, now: Time, priceText: Price -> string)
    requires UniqueRefs(orders)
    requires Settle(orders, orderId, details, v, now, priceText).Ok?
    ensures UniqueRefs(orders[orderId := Settle(orders, orderId, details, v, now, priceText).value])
  {
  }

  /** The replay check looks only at the orders as they are now, so a
      reference is rejected only while it is recorded. Once order `a` has been
      paid by `first` and then paid again by `second`, which overwrites its
      `paymentResult`, `first` is free again and settles another order `b`:
      over time one reference settles two orders. */
  lemma ReplayAfterOverwrite(orders: map<OrderId, Order>, a: OrderId, b: OrderId,
                             first: PaymentDetails, second: PaymentDetails, again: PaymentDetails,
                             v: Verification, now: Time, priceText: Price -> string)
    requires a in orders && b in orders && a != b
    requires v.verified
    requires priceText(orders[a].totalPrice) == v.value && priceText(orders[b].totalPrice) == v.value
    requires IsNewTransaction(orders, first.id) && IsNewTransaction(orders, second.id)
    requires first.id != second.id && again.id == first.id
    ensures
      var r1 := Settle(orders, a, first, v, now, priceText);
      && r1.Ok? && HasRef(r1.value, first.id)
      && var s1 := orders[a := r1.value];
         var r2 := Settle(s1, a, second, v, now, priceText);
         && r2.Ok?
         && var s2 := s1[a := r2.value];
            var r3 := Settle(s2, b, again, v, now, priceText);
            && IsNewTransaction(s2, first.id)
            && r3.Ok? && HasRef(r3.value, first.id)
  {
  }

  /** Settlement never checks `isPaid`: an order that is already paid is paid
      again by any new, verified transaction of the right amount, which
      overwrites `paidAt` and `paymentResult`. */
  lemma RepaymentNotBlockedByIsPaid(orders: map<OrderId, Order>, orderId: OrderId, details: PaymentDetails,
                                    v: Verification, now: Time, priceText: Price -> string)
    requires orderId in orders && orders[orderId].isPaid
    requires v.verified && IsNewTransaction(orders, details.id)
    requires priceText(orders[orderId].totalPrice) == v.value
    ensures Settle(orders, orderId, details, v, now, priceText) == Ok(MarkPaid(orders[orderId], details, now))
  {
  }
}
