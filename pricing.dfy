/** Server-side repricing at order creation (`addOrderItems`): the client's
    line items are checked against the catalogue, every price is replaced by
    the catalogue's, and the totals are computed from the repriced items. */
module Pricing {
  import opened OrderTypes

  /** The set of product ids the client submitted, as given to `$in`. */
  function IdSet(items: seq<ClientItem>): set<ProductId> {
    if items == [] then {} else {items[0].id} + IdSet(items[1..])
  }

  /** The catalogue products `Product.find({_id: {$in: ids}})` returns:
      each listed product whose id was asked for, once. */
  function Found(items: seq<ClientItem>, catalog: map<ProductId, Price>): set<ProductId> {
    IdSet(items) * catalog.Keys
  }

  predicate AllListed(items: seq<ClientItem>, catalog: map<ProductId, Price>) {
    forall i :: 0 <= i < |items| ==> items[i].id in catalog
  }

  predicate DistinctIds(items: seq<ClientItem>) {
    forall i, j :: 0 <= i < j < |items| ==> items[i].id != items[j].id
  }

  /** An id is in the `$in` set exactly when some submitted item carries it. */
  lemma {:induction false} InIdSet(items: seq<ClientItem>, id: ProductId)
    ensures id in IdSet(items) <==> exists i :: 0 <= i < |items| && items[i].id == id
  {
    if items != [] {
      var tail := items[1..];
      InIdSet(tail, id);
      if id in IdSet(tail) {
        var k :| 0 <= k < |tail| && tail[k].id == id;
        assert items[k + 1].id == id;
      } else if id != items[0].id {
        forall i | 0 <= i < |items| ensures items[i].id != id {
          if i > 0 { assert items[i] == tail[i - 1]; }
        }
      }
    }
  }

  /** No id repeats in a list exactly when none repeats in its tail and the
      head's id is not among the tail's. */
  lemma DistinctCons(items: seq<ClientItem>)
    requires items != []
    ensures DistinctIds(items) <==> DistinctIds(items[1..]) && items[0].id !in IdSet(items[1..])
  {
    var tail := items[1..];
    InIdSet(tail, items[0].id);
    if DistinctIds(tail) && items[0].id !in IdSet(tail) {
      forall i, j | 0 <= i < j < |items| ensures items[i].id != items[j].id {
        assert items[j] == tail[j - 1];
        if i > 0 { assert items[i] == tail[i - 1]; }
      }
    }
    if DistinctIds(items) {
      forall i, j | 0 <= i < j < |tail| ensures tail[i].id != tail[j].id {
        assert tail[i] == items[i + 1] && tail[j] == items[j + 1];
      }
    }
  }

  /** A list of n items names at most n products, and exactly n when no id repeats. */
  lemma {:induction false} IdSetSize(items: seq<ClientItem>)
    ensures |IdSet(items)| <= |items|
    ensures |IdSet(items)| == |items| <==> DistinctIds(items)
  {
    if items != [] {
      var tail := items[1..];
      IdSetSize(tail);
      DistinctCons(items);
      if items[0].id in IdSet(tail) {
        assert IdSet(items) == IdSet(tail);
      } else {
        assert |IdSet(items)| == 1 + |IdSet(tail)|;
      }
    }
  }

  /** A subset is no larger than its superset, and as large only when it is the whole of it. */
  lemma SubsetSize<T>(a: set<T>, b: set<T>)
    requires a <= b
    ensures |a| <= |b|
    ensures |a| == |b| ==> a == b
    decreases b
  {
    if a != b {
      var x :| x in b && x !in a;
      SubsetSize(a, b - {x});
    }
  }

  /** The count check at order creation passes exactly when every submitted
      id is in the catalogue and no id is submitted twice. */
  lemma FoundCountMatches(items: seq<ClientItem>, catalog: map<ProductId, Price>)
    ensures |Found(items, catalog)| == |items| <==> AllListed(items, catalog) && DistinctIds(items)
  {
    IdSetSize(items);
    var found := Found(items, catalog);
    assert found <= IdSet(items);
    SubsetSize(found, IdSet(items));
    if AllListed(items, catalog) {
      forall id | id in IdSet(items) ensures id in found {
        InIdSet(items, id);
        var i :| 0 <= i < |items| && items[i].id == id;
      }
      assert found == IdSet(items);
    }
    if |found| == |items| {
      SubsetSize(found, IdSet(items));
      forall i | 0 <= i < |items| ensures items[i].id in catalog {
        InIdSet(items, items[i].id);
        assert items[i].id in found;
      }
    }
  }

  /** A submitted id that occurs twice makes the count check fail, even when
      the product is in the catalogue. */
  lemma DuplicateIdsRejected(items: seq<ClientItem>, catalog: map<ProductId, Price>, i: nat, j: nat)
    requires i < j < |items| && items[i].id == items[j].id
    ensures |Found(items, catalog)| != |items|
  {
    FoundCountMatches(items, catalog);
  }

  /** One client item with the catalogue price in place of the client's. */
  function RepriceItem(item: ClientItem, price: Price): OrderItem {
    OrderItem(item.id, item.name, item.image, item.qty, price)
  }

  /** The repriced line items: same length and order as the client's, each
      with the catalogue price of its product and the client's other fields. */
  function Reprice(items: seq<ClientItem>, catalog: map<ProductId, Price>): (r: seq<OrderItem>)
    requires AllListed(items, catalog)
    ensures |r| == |items|
    ensures forall i :: 0 <= i < |items| ==>
      && r[i].price == catalog[items[i].id]
      && r[i].product == items[i].id
      && r[i].name == items[i].name
      && r[i].image == items[i].image
      && r[i].qty == items[i].qty
  {
    if items == [] then []
    else [RepriceItem(items[0], catalog[items[0].id])] + Reprice(items[1..], catalog)
  }

  /** The checks and repricing of `addOrderItems`, before anything is saved. */
  function PriceOrder(items: seq<ClientItem>, catalog: map<ProductId, Price>): (r: Result<seq<OrderItem>>)
    ensures items == [] ==> r == Err(NoOrderItems)
    ensures items != [] && !(AllListed(items, catalog) && DistinctIds(items)) ==> r == Err(ProductsNotFound)
    ensures r.Ok? <==> items != [] && AllListed(items, catalog) && DistinctIds(items)
    ensures r.Ok? ==> AllListed(items, catalog) && r.value == Reprice(items, catalog)
  {
    FoundCountMatches(items, catalog);
    if |items| == 0 then Err(NoOrderItems)
    else if |Found(items, catalog)| != |items| then Err(ProductsNotFound)
    else Ok(Reprice(items, catalog))
  }

  /** Two submissions that differ at most in the prices the client claims. */
  predicate SameButPrices(a: seq<ClientItem>, b: seq<ClientItem>) {
    |a| == |b| && forall i :: 0 <= i < |a| ==> a[i].(price := 0.0) == b[i].(price := 0.0)
  }

  /** The outcome of repricing does not depend on the prices the client sent. */
  lemma {:induction false} ClientPricesIgnored(a: seq<ClientItem>, b: seq<ClientItem>, catalog: map<ProductId, Price>)
    requires SameButPrices(a, b)
    ensures PriceOrder(a, catalog) == PriceOrder(b, catalog)
  {
    assert forall i :: 0 <= i < |a| ==> a[i].id == b[i].id by {
      forall i | 0 <= i < |a| ensures a[i].id == b[i].id {
        assert a[i].(price := 0.0).id == b[i].(price := 0.0).id;
      }
    }
    assert AllListed(a, catalog) <==> AllListed(b, catalog);
    assert DistinctIds(a) <==> DistinctIds(b);
    if PriceOrder(a, catalog).Ok? {
      var ra, rb := Reprice(a, catalog), Reprice(b, catalog);
      forall i | 0 <= i < |a| ensures ra[i] == rb[i] {
        assert a[i].(price := 0.0).name == b[i].(price := 0.0).name;
        assert a[i].(price := 0.0).image == b[i].(price := 0.0).image;
        assert a[i].(price := 0.0).qty == b[i].(price := 0.0).qty;
      }
      assert ra == rb;
    }
  }

  /** A freshly created order: unpaid, undelivered, with the given amounts. */
  function NewOrder(user: UserId, items: seq<OrderItem>, shippingAddress: string, paymentMethod: string, t: Totals): Order {
    Order(user, items, shippingAddress, paymentMethod,
          t.itemsPrice, t.taxPrice, t.shippingPrice, t.totalPrice,
          false, None, None, false, None)
  }

  /** The order `addOrderItems` saves, or the error it raises. The amounts
      are `calcPrices` of the repriced items; client-sent totals are never read. */
  function CreateOrder(user: UserId, orderItems: seq<ClientItem>, shippingAddress: string, paymentMethod: string,
                       catalog: map<ProductId, Price>, calcPrices: seq<OrderItem> -> Totals): (r: Result<Order>)
    ensures orderItems == [] ==> r == Err(NoOrderItems)
    ensures orderItems != [] && !(AllListed(orderItems, catalog) && DistinctIds(orderItems)) ==> r == Err(ProductsNotFound)
    ensures r.Ok? <==> orderItems != [] && AllListed(orderItems, catalog) && DistinctIds(orderItems)
    ensures r.Err? ==> r.error == NoOrderItems || r.error == ProductsNotFound
    ensures r.Ok? ==>
      && AllListed(orderItems, catalog)
      && r.value.orderItems == Reprice(orderItems, catalog)
      && r.value.Prices() == calcPrices(r.value.orderItems)
      && r.value.user == user
      && r.value.shippingAddress == shippingAddress
      && r.value.paymentMethod == paymentMethod
      && !r.value.isPaid && r.value.paidAt == None && r.value.paymentResult == None
      && !r.value.isDelivered && r.value.deliveredAt == None
  {
    match PriceOrder(orderItems, catalog)
    case Err(e) => Err(e)
    case Ok(dbOrderItems) => Ok(NewOrder(user, dbOrderItems, shippingAddress, paymentMethod, calcPrices(dbOrderItems)))
  }
}
