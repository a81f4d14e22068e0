/**
  Short request sequences against a backend, showing what callers can
  conclude from the route contracts alone.
 */
module Scenarios {
  import opened Domain
  import Catalog
  import Decimal
  import Ledger
  import Server

  /** What `POST /api/orders` needs of its inputs besides the stock: every required field present. */
  predicate Complete(caller: Claims, address: Address) {
    && caller.username != "" && caller.email != ""
    && address.street != "" && address.city != "" && address.zipCode != "" && address.phone != ""
  }

  /**
    The listing cached before an order still shows the old stock afterwards:
    placing an order does not drop `products_list`, so until the entry expires
    the listing and the stored product disagree by the quantity ordered.
   */
  method StaleListingAfterOrder(backend: Server.Backend, caller: Claims, address: Address, quantity: int, now: nat)
    returns (listed: seq<Product>)
    requires backend.Valid() && ProductsList !in backend.cache && Complete(caller, address)
    requires backend.products != [] && backend.products[0].name != ""
    requires 1 <= quantity <= backend.products[0].stock
    requires !Ledger.NumberTaken(backend.orders, Decimal.OrderNumber(now))
    modifies backend
    ensures listed != [] && listed[0] == old(backend.products[0])
    ensures |backend.products| == |old(backend.products)|
    ensures backend.products[0].id == listed[0].id
    ensures backend.products[0].stock == listed[0].stock - quantity
  {
    var cached := backend.ListProducts();
    var product := backend.products[0];
    Catalog.FindProductUnique(backend.products, product.id, 0);
    var placed := backend.PlaceOrder(caller, product.id, quantity, address, now);
    listed := backend.ListProducts();
  }

  /**
    Two orders in the same millisecond get the same order number: the second
    save violates the unique index and the request fails with 500, with one
    order stored and the stock decremented once only.
   */
  method SameMillisecondOrders(backend: Server.Backend, caller: Claims, address: Address, now: nat)
    returns (first: Result<Placement>, second: Result<Placement>)
    requires backend.Valid() && backend.channel != Server.Closed && Complete(caller, address)
    requires backend.products != [] && backend.products[0].name != "" && backend.products[0].stock >= 2
    requires !Ledger.NumberTaken(backend.orders, Decimal.OrderNumber(now))
    modifies backend
    ensures first == Ok(Placement(Decimal.OrderNumber(now), old(backend.products[0].price)))
    ensures second == Err(ServerError)
    ensures |backend.products| == |old(backend.products)|
    ensures backend.products[0].stock == old(backend.products[0].stock) - 1
    ensures |backend.orders| == |old(backend.orders)| + 1
  {
    var product := backend.products[0];
    Catalog.FindProductUnique(backend.products, product.id, 0);
    first := backend.PlaceOrder(caller, product.id, 1, address, now);
    assert first.Ok?;
    Catalog.FindProductUnique(backend.products, product.id, 0);
    assert backend.orders[|backend.orders| - 1].orderNumber == Decimal.OrderNumber(now);
    second := backend.PlaceOrder(caller, product.id, 1, address, now);
  }

  /**
    With the channel open an order publishes one job carrying the stored
    order's values; the consumer acknowledges it although the mail could not
    be sent, so it is not redelivered and no mail goes out.
   */
  method FailedMailStillAcked(backend: Server.Backend, caller: Claims, address: Address, now: nat)
    returns (job: EmailJob)
    requires backend.Valid() && backend.channel == Server.Consuming && backend.queue == [] && Complete(caller, address)
    requires backend.products != [] && backend.products[0].name != "" && backend.products[0].stock >= 1
    requires !Ledger.NumberTaken(backend.orders, Decimal.OrderNumber(now))
    modifies backend
    ensures job == EmailJob(caller.email, caller.username, Decimal.OrderNumber(now),
                            old(backend.products[0].name), old(backend.products[0].price))
    ensures backend.acked == old(backend.acked) + [job]
    ensures backend.queue == [] && backend.outbox == old(backend.outbox)
  {
    var product := backend.products[0];
    Catalog.FindProductUnique(backend.products, product.id, 0);
    var placed := backend.PlaceOrder(caller, product.id, 1, address, now);
    assert placed.Ok?;
    job := backend.queue[0];
    backend.HandleDelivery(false);
  }

  /**
    When the queue assertion failed at start-up the channel is assigned but
    closed: an order then answers 500 although it was stored and the stock
    was lowered, and no job is queued.
   */
  method OrderOnClosedChannel(backend: Server.Backend, caller: Claims, address: Address, now: nat)
    returns (r: Result<Placement>)
    requires backend.Valid() && backend.channel == Server.Closed && Complete(caller, address)
    requires backend.products != [] && backend.products[0].name != "" && backend.products[0].stock >= 1
    requires !Ledger.NumberTaken(backend.orders, Decimal.OrderNumber(now))
    modifies backend
    ensures r == Err(ServerError)
    ensures |backend.orders| == |old(backend.orders)| + 1
    ensures backend.orders[|old(backend.orders)|].orderNumber == Decimal.OrderNumber(now)
    ensures |backend.products| == |old(backend.products)|
    ensures backend.products[0].stock == old(backend.products[0].stock) - 1
    ensures backend.queue == old(backend.queue)
  {
    var product := backend.products[0];
    Catalog.FindProductUnique(backend.products, product.id, 0);
    r := backend.PlaceOrder(caller, product.id, 1, address, now);
  }
}
