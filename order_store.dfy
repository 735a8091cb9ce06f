/** The order controller's three state-changing handlers over the order
    collection: `addOrderItems`, `updateOrderToPaid` and
    `updateOrderToDelivered`. */
module OrderController {
  import opened OrderTypes
  import Pricing
  import opened Settlement

  /** What every stored order satisfies: its amounts are `calcPrices` of its
      own line items, and the paid and delivered flags agree with the fields
      that record when and how. */
  ghost predicate Consistent(o: Order, calcPrices: seq<OrderItem> -> Totals) {
    && o.Prices() == calcPrices(o.orderItems)
    && (o.isPaid <==> o.paidAt.Some?)
    && (o.isPaid <==> o.paymentResult.Some?)
    && (o.isDelivered <==> o.deliveredAt.Some?)
  }

  /** The order collection. `calcPrices` is the pricing policy of
      `utils/calcPrices.js` and `priceText` renders a stored total as its
      `toString()` does; both are fixed for the life of the store. */
  class OrderStore {
    var orders: map<OrderId, Order>
    var nextId: OrderId
    const calcPrices: seq<OrderItem> -> Totals
    const priceText: Price -> string

    ghost predicate Valid()
      reads this
    {
      && (forall id :: id in orders ==> id < nextId)
      && (forall id :: id in orders ==> Consistent(orders[id], calcPrices))
      && UniqueRefs(orders)
    }

    constructor (calcPrices: seq<OrderItem> -> Totals, priceText: Price -> string)
      ensures Valid()
      ensures orders == map[] && nextId == 0
      ensures this.calcPrices == calcPrices && this.priceText == priceText
    {
      orders := map[];
      nextId := 0;
      this.calcPrices := calcPrices;
      this.priceText := priceText;
    }

    /** `addOrderItems`: checks the client's line items, reprices them from
        the catalogue and saves one new order; on any failure nothing is saved. */
    method AddOrderItems(user: UserId, orderItems: seq<ClientItem>, shippingAddress: string,
                         paymentMethod: string, catalog: map<ProductId, Price>) returns (r: Result<OrderId>)
      requires Valid()
      modifies this
      ensures Valid()
      ensures var created := Pricing.CreateOrder(user, orderItems, shippingAddress, paymentMethod, catalog, calcPrices);
        && (r.Ok? <==> created.Ok?)
        && (r.Err? ==> r.error == created.error && orders == old(orders) && nextId == old(nextId))
        && (r.Ok? ==> r.value !in old(orders) && orders == old(orders)[r.value := created.value])
    {
      if |orderItems| == 0 {
        return Err(NoOrderItems);
      }
      var itemsFromDB := Pricing.Found(orderItems, catalog);
      if |itemsFromDB| != |orderItems| {
        return Err(ProductsNotFound);
      }
      Pricing.FoundCountMatches(orderItems, catalog);
      var dbOrderItems := Pricing.Reprice(orderItems, catalog);
      var totals := calcPrices(dbOrderItems);
      var order := Pricing.NewOrder(user, dbOrderItems, shippingAddress, paymentMethod, totals);
      r := Ok(nextId);
      orders := orders[nextId := order];
      nextId := nextId + 1;
    }

    /** `updateOrderToPaid`: `verification` is the payment oracle's answer for
        `details.id`. The four guards run in order; only when all pass is the
        order marked paid and saved, and then the transaction is recorded
        against that order alone. */
    method UpdateOrderToPaid(orderId: OrderId, details: PaymentDetails, verification: Verification, now: Time)
      returns (r: Result<Order>)
      requires Valid()
      modifies this
      ensures Valid()
      ensures nextId == old(nextId)
      ensures r == Settle(old(orders), orderId, details, verification, now, priceText)
      ensures !verification.verified ==> r == Err(PaymentNotVerified)
      ensures verification.verified && !IsNewTransaction(old(orders), details.id) ==> r == Err(TransactionUsed)
      ensures r.Err? ==> orders == old(orders)
      ensures r.Ok? ==>
        && orderId in old(orders)
        && r.value == MarkPaid(old(orders)[orderId], details, now)
        && orders == old(orders)[orderId := r.value]
        && UsedBy(orders, details.id) == {orderId}
        && !IsNewTransaction(orders, details.id)
    {
      if !verification.verified {
        return Err(PaymentNotVerified);
      }
      var isNewTransaction := IsNewTransaction(orders, details.id);
      if !isNewTransaction {
        return Err(TransactionUsed);
      }
      if orderId !in orders {
        return Err(OrderNotFound);
      }
      var order := orders[orderId];
      if priceText(order.totalPrice) != verification.value {
        return Err(IncorrectAmount);
      }
      order := MarkPaid(order, details, now);
      SettledRefUsedOnce(orders, orderId, details, verification, now, priceText);
      SettlePreservesUniqueRefs(orders, orderId, details, verification, now, priceText);
      orders := orders[orderId := order];
      r := Ok(order);
    }

    /** `updateOrderToDelivered`: sets the delivery flag and time of an
        existing order and leaves everything else as it was. */
    method UpdateOrderToDelivered(orderId: OrderId, now: Time) returns (r: Result<Order>)
      requires Valid()
      modifies this
      ensures Valid()
      ensures nextId == old(nextId)
      ensures r.Ok? <==> orderId in old(orders)
      ensures r.Err? ==> r.error == OrderNotFound && orders == old(orders)
      ensures r.Ok? ==>
        && r.value.isDelivered && r.value.deliveredAt == Some(now)
        && r.value.(isDelivered := false, deliveredAt := None) == old(orders)[orderId].(isDelivered := false, deliveredAt := None)
        && orders == old(orders)[orderId := r.value]
    {
      if orderId !in orders {
        return Err(OrderNotFound);
      }
      var order := orders[orderId];
      order := order.(isDelivered := true, deliveredAt := Some(now));
      orders := orders[orderId := order];
      r := Ok(order);
    }
  }

  /** A client of the store: a product listed at 25.00 is ordered twice at a
      claimed price of 1.00, with a 10% tax and flat 10.00 shipping; the order
      is paid by a transaction of "65.00", and the same transaction cannot
      pay again. The stored total is taken to render as "65.00"; a rendering
      without the trailing zeros would fail the amount check instead. */
  method PayOnceExample()
  {
    var policy := (items: seq<OrderItem>) =>
      var sub := if |items| == 1 then items[0].price * (items[0].qty as real) else 0.0;
      Totals(sub, sub / 10.0, 10.0, sub + sub / 10.0 + 10.0);
    var text := (p: Price) => if p == 65.0 then "65.00" else "";
    var store := new OrderStore(policy, text);
    var item := ClientItem("P", "Widget", "widget.jpg", 2, 1.0);
    var created := store.AddOrderItems("user", [item], "address", "PayPal", map["P" := 25.0]);
    assert Pricing.AllListed([item], map["P" := 25.0]) && Pricing.DistinctIds([item]);
    var id := created.value;
    assert store.orders[id].orderItems[0].price == 25.0;
    assert store.orders[id].totalPrice == 65.0;
    var details := PaymentDetails("TX1", "COMPLETED", "time", "payer@example.com");
    var paid := store.UpdateOrderToPaid(id, details, Verification(true, "65.00"), 1000);
    assert paid.Ok? && store.orders[id].isPaid;
    var replay := store.UpdateOrderToPaid(id, details, Verification(true, "65.00"), 2000);
    assert replay == Err(TransactionUsed);
  }
}
