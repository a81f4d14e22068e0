/**
  The order collection: what a new order document must satisfy to be saved,
  lookup by id, the revenue aggregate and recent orders of the admin
  statistics, and how the ledger and the stock balance each other.
 */
module Ledger {
  import opened Domain
  import Collection
  import Catalog

  predicate NumberTaken(orders: seq<Order>, orderNumber: string) {
    exists i :: 0 <= i < |orders| && orders[i].orderNumber == orderNumber
  }

  /**
    `order.save()` succeeds: every required string of the order schema is
    present and the unique index on `orderNumber` is not violated.
   */
  predicate Savable(order: Order, orders: seq<Order>) {
    && Present(order.username) && Present(order.email) && Present(order.product.name)
    && Present(order.deliveryAddress.street) && Present(order.deliveryAddress.city)
    && Present(order.deliveryAddress.zipCode) && Present(order.deliveryAddress.phone)
    && !NumberTaken(orders, order.orderNumber)
  }

  /**
    The invariant of the order collection: ids below the next fresh id and
    distinct, order numbers distinct (the unique index).
   */
  predicate Consistent(orders: seq<Order>, nextId: Id) {
    && (forall i :: 0 <= i < |orders| ==> orders[i].id < nextId)
    && (forall i, j :: 0 <= i < j < |orders| ==>
          orders[i].id != orders[j].id && orders[i].orderNumber != orders[j].orderNumber)
  }

  /**
    What a ledger looks like when every order was for at least one unit of a
    product with a non-negative price: positive quantities, non-negative
    totals. The check at order placement does not enforce it.
   */
  predicate Sound(orders: seq<Order>) {
    forall i :: 0 <= i < |orders| ==> orders[i].totalAmount >= 0 && orders[i].product.quantity >= 1
  }

  /** Saving a fresh, savable order keeps ids and order numbers unique. */
  lemma SaveKeepsConsistent(orders: seq<Order>, nextId: Id, order: Order)
    requires Consistent(orders, nextId)
    requires order.id == nextId && Savable(order, orders)
    ensures Consistent(orders + [order], nextId + 1)
  {
  }

  /** The confirmation job built from an order as it was stored. */
  function JobOf(order: Order): EmailJob {
    EmailJob(order.email, order.username, order.orderNumber, order.product.name, order.totalAmount)
  }

  /** `Order.findById(id)`. */
  function FindOrder(orders: seq<Order>, id: Id): (r: Option<nat>)
    ensures r.Some? ==> r.value < |orders| && orders[r.value].id == id
    ensures r.None? <==> forall j :: 0 <= j < |orders| ==> orders[j].id != id
  {
    Collection.FindOne(orders, (o: Order) => o.id == id)
  }

  /** `$sum` of `totalAmount` over all orders; an empty collection has no group, which answers 0. */
  function Revenue(orders: seq<Order>): (total: int)
    ensures orders == [] ==> total == 0
    ensures |orders| == 1 ==> total == orders[0].totalAmount
  {
    if orders == [] then 0 else orders[0].totalAmount + Revenue(orders[1..])
  }

  lemma {:induction false} RevenueAppend(orders: seq<Order>, order: Order)
    ensures Revenue(orders + [order]) == Revenue(orders) + order.totalAmount
  {
    if orders != [] {
      assert (orders + [order])[1..] == orders[1..] + [order];
      RevenueAppend(orders[1..], order);
    }
  }

  /** Replacing one order changes the revenue by the difference of the two totals only. */
  lemma {:induction false} RevenueUpdate(orders: seq<Order>, i: nat, order: Order)
    requires i < |orders|
    ensures Revenue(orders[i := order]) == Revenue(orders) - orders[i].totalAmount + order.totalAmount
  {
    if i > 0 {
      assert orders[i := order][1..] == orders[1..][i - 1 := order];
      RevenueUpdate(orders[1..], i - 1, order);
    }
  }

  lemma {:induction false} RevenueNonNegative(orders: seq<Order>)
    requires forall i :: 0 <= i < |orders| ==> orders[i].totalAmount >= 0
    ensures Revenue(orders) >= 0
  {
    if orders != [] {
      RevenueNonNegative(orders[1..]);
    }
  }

  /** Units of product `id` ordered over the whole ledger. */
  function Ordered(orders: seq<Order>, id: Id): int {
    if orders == [] then 0
    else (if orders[0].product.productId == id then orders[0].product.quantity else 0)
         + Ordered(orders[1..], id)
  }

  lemma {:induction false} OrderedAppend(orders: seq<Order>, order: Order, id: Id)
    ensures Ordered(orders + [order], id)
            == Ordered(orders, id) + (if order.product.productId == id then order.product.quantity else 0)
  {
    if orders != [] {
      assert (orders + [order])[1..] == orders[1..] + [order];
      OrderedAppend(orders[1..], order, id);
    }
  }

  /**
    Placing an order for `quantity` units of product `i` keeps, for every
    product id, stock plus units already ordered constant: no unit is sold
    twice and none disappears.
   */
  lemma PlacementConservesUnits(products: seq<Product>, orders: seq<Order>, i: nat, order: Order, id: Id)
    requires Catalog.UniqueIds(products) && i < |products|
    requires order.product.productId == products[i].id
    ensures var after := products[i := products[i].(stock := products[i].stock - order.product.quantity)];
            Catalog.StockOf(after, id) + Ordered(orders + [order], id)
            == Catalog.StockOf(products, id) + Ordered(orders, id)
  {
    Catalog.StockAfterDecrement(products, i, order.product.quantity, id);
    OrderedAppend(orders, order, id);
  }

  /** Orders listed newest first by `createdAt`. */
  predicate NewestFirst(orders: seq<Order>) {
    forall i, j :: 0 <= i < j < |orders| ==> orders[i].createdAt >= orders[j].createdAt
  }

  /**
    Puts `order` into a newest-first list ahead of every order that is not
    newer than it.
   */
  function InsertByDate(order: Order, sorted: seq<Order>): (r: seq<Order>)
    requires NewestFirst(sorted)
    ensures |r| == |sorted| + 1 && NewestFirst(r)
    ensures multiset(r) == multiset(sorted) + multiset{order}
    ensures r[0] == order || (sorted != [] && r[0] == sorted[0])
  {
    if sorted == [] || sorted[0].createdAt <= order.createdAt then [order] + sorted
    else
      assert sorted == [sorted[0]] + sorted[1..];
      [sorted[0]] + InsertByDate(order, sorted[1..])
  }

  /**
    `sort({ createdAt: -1 })`: the orders newest first. Orders with equal
    timestamps come out later-placed first.
   */
  function SortByDate(orders: seq<Order>): (r: seq<Order>)
    ensures |r| == |orders| && NewestFirst(r)
    ensures multiset(r) == multiset(orders)
  {
    if orders == [] then []
    else
      assert orders == orders[..|orders| - 1] + [orders[|orders| - 1]];
      InsertByDate(orders[|orders| - 1], SortByDate(orders[..|orders| - 1]))
  }

  /** Whatever a newest-first list leaves after its first `n` entries is no newer than any of them. */
  lemma TailNoNewer(sorted: seq<Order>, n: nat)
    requires NewestFirst(sorted) && n <= |sorted|
    ensures multiset(sorted[..n]) <= multiset(sorted)
    ensures NewestFirst(sorted[..n])
    ensures forall o :: o in multiset(sorted) - multiset(sorted[..n]) ==>
              forall k :: 0 <= k < n ==> o.createdAt <= sorted[k].createdAt
  {
    assert sorted == sorted[..n] + sorted[n..];
    forall o | o in multiset(sorted) - multiset(sorted[..n])
      ensures forall k :: 0 <= k < n ==> o.createdAt <= sorted[k].createdAt
    {
      assert o in multiset(sorted[n..]);
      var j :| n <= j < |sorted| && sorted[j] == o;
    }
  }

  /**
    `sort({ createdAt: -1 }).limit(limit)`: at most `limit` orders of the
    collection, newest first, and none of the orders left out is newer than
    one listed.
   */
  function Recent(orders: seq<Order>, limit: nat): (r: seq<Order>)
    ensures |r| == if |orders| < limit then |orders| else limit
    ensures NewestFirst(r)
    ensures multiset(r) <= multiset(orders)
    ensures forall o :: o in multiset(orders) - multiset(r) ==>
              forall k :: 0 <= k < |r| ==> o.createdAt <= r[k].createdAt
  {
    var sorted := SortByDate(orders);
    var n := if |orders| < limit then |orders| else limit;
    TailNoNewer(sorted, n);
    sorted[..n]
  }
}
