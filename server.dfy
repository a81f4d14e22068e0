/**
  The store backend as one object: the collections its route handlers read and
  write, the read-through cache, the `email_queue` channel and the mail
  transport's outbox. Each route handler and the queue consumer is a method.
  The database, the cache server and the broker are reduced to these fields;
  the handlers run one at a time.
 */
module Server {
  import opened Domain
  import Decimal
  import Catalog
  import Ledger
  import Accounts

  /** The body of `GET /api/admin/stats`. */
  datatype Stats = Stats(totalUsers: nat, totalOrders: nat, totalRevenue: int, recentOrders: seq<Order>)

  /**
    The order document `POST /api/orders` builds before saving it. The job
    built from it carries the same values as the one the route builds from
    the request; an admitted quantity gives a sound order, a negative one a
    negative total.
   */
  function NewOrder(id: Id, caller: Claims, product: Product, quantity: int,
                    deliveryAddress: Address, now: nat): (order: Order)
    ensures order.id == id && order.user == caller.id && order.createdAt == now
    ensures Ledger.JobOf(order)
            == EmailJob(caller.email, caller.username, Decimal.OrderNumber(now), product.name, product.price * quantity)
    ensures Catalog.Admits(product.stock, quantity) && product.price >= 0 ==>
              Ledger.Sound([order])
    ensures quantity < 0 && product.price > 0 ==> order.totalAmount < 0
  {
    Order(id, caller.id, caller.username, caller.email,
          LineItem(product.id, product.name, product.price, quantity),
          deliveryAddress, product.price * quantity, CashOnDelivery, Confirmed,
          Decimal.OrderNumber(now), now)
  }

  /** The confirmation mail the consumer sends for a job. */
  function ConfirmationMail(job: EmailJob): Mail {
    Mail(job.email, "Order Confirmation - " + job.orderNumber)
  }

  /**
    `emailChannel`: not assigned yet, assigned with the consumer registered,
    or assigned and then closed by a failed `assertQueue`.
   */
  datatype Channel = Unassigned | Consuming | Closed

  /**
    How the one connection attempt ends: connecting or creating the channel
    fails, `assertQueue` fails after the channel was assigned, or all steps
    succeed.
   */
  datatype ConnectOutcome = ConnectFailed | QueueRejected | Connected

  class Backend {
    var products: seq<Product>
    var orders: seq<Order>
    var users: seq<User>
    var admins: seq<Admin>
    var cache: map<CacheKey, CacheEntry>
    var channel: Channel
    /** Messages on `email_queue` not yet delivered to the consumer. */
    var queue: seq<EmailJob>
    /** Messages the consumer has acknowledged, in order. */
    var acked: seq<EmailJob>
    /** Mails the transport accepted. */
    var outbox: seq<Mail>
    /** Source of fresh document ids. */
    var nextId: nat
    /** Every job ever published on `email_queue`. */
    ghost var published: seq<EmailJob>

    ghost predicate CacheValid()
      reads this`cache
    {
      && (ProductsList in cache ==> cache[ProductsList].value.Listing?)
      && (forall k :: k in cache && k.UserSession? ==> cache[k].value.Session?)
    }

    ghost predicate QueueValid()
      reads this`queue, this`acked, this`published
    {
      acked + queue == published
    }

    ghost predicate Valid()
      reads this
    {
      && Catalog.Consistent(products, nextId)
      && Ledger.Consistent(orders, nextId)
      && Accounts.Consistent(users, admins, nextId)
      && CacheValid()
      && QueueValid()
    }

    constructor ()
      ensures Valid()
      ensures products == [] && orders == [] && users == [] && admins == [] && cache == map[]
      ensures channel == Unassigned && queue == [] && acked == [] && outbox == [] && nextId == 0
    {
      products, orders, users, admins, cache := [], [], [], [], map[];
      channel, queue, acked, outbox, nextId := Unassigned, [], [], [], 0;
      published := [];
    }

    /**
      `POST /api/seed`: replaces the products and the admins with the sample
      catalog and the default admin, and drops the cached listing. Users and
      orders are kept.
     */
    method Seed(adminPassword: string)
      requires Valid()
      modifies this`products, this`admins, this`cache, this`nextId
      ensures Valid()
      ensures admins == [Accounts.DefaultAdmin(old(nextId), adminPassword)]
      ensures products == Catalog.SampleProducts(old(nextId) + 1)
      ensures cache == old(cache) - {ProductsList}
      ensures nextId == old(nextId) + 4
    {
      admins := [Accounts.DefaultAdmin(nextId, adminPassword)];
      products := Catalog.SampleProducts(nextId + 1);
      nextId := nextId + 4;
      cache := cache - {ProductsList};
    }

    /**
      `GET /api/products`: a cache hit answers from the cache without reading
      the products; a miss answers the first page of products and caches it
      under `products_list` for an hour.
     */
    method ListProducts() returns (r: seq<Product>)
      requires Valid()
      modifies this`cache
      ensures Valid()
      ensures ProductsList in old(cache) ==>
                r == old(cache)[ProductsList].value.products && cache == old(cache)
      ensures ProductsList !in old(cache) ==>
                && r == Catalog.ListingPage(products)
                && cache == old(cache)[ProductsList := CacheEntry(Listing(r), ListingTtl)]
    {
      if ProductsList in cache {
        return cache[ProductsList].value.products;
      }
      r := Catalog.ListingPage(products);
      cache := cache[ProductsList := CacheEntry(Listing(r), ListingTtl)];
    }

    /**
      `POST /api/orders` for an authenticated caller. Rejects an unknown
      product (404) and a quantity above the stock (400). Otherwise builds the
      order; a failed save (a missing required field or a duplicate order
      number) answers 500 before anything is written. A saved order lowers the
      stock and publishes the confirmation job; on a closed channel the
      publish throws and the route answers 500 with the order stored and the
      stock lowered. The cached listing is left alone.
     */
    method PlaceOrder(caller: Claims, productId: Id, quantity: int, deliveryAddress: Address, now: nat)
      returns (r: Result<Placement>)
      requires Valid()
      modifies this`products, this`orders, this`nextId, this`queue, this`published
      ensures Valid()
      ensures cache == old(cache) && users == old(users) && acked == old(acked)
      ensures var found := Catalog.FindProduct(old(products), productId);
              r == Err(ProductNotFound) <==> found.None?
      ensures var found := Catalog.FindProduct(old(products), productId);
              r == Err(InsufficientStock) <==> found.Some? && old(products)[found.value].stock < quantity
      ensures r.Err? ==> r.error in {ProductNotFound, InsufficientStock, ServerError}
      ensures var found := Catalog.FindProduct(old(products), productId);
              var stored := && found.Some?
                            && Catalog.StockCheckAsWritten(old(products)[found.value].stock, quantity)
                            && Ledger.Savable(NewOrder(old(nextId), caller, old(products)[found.value], quantity,
                                                       deliveryAddress, now), old(orders));
              && (r.Ok? <==> stored && !channel.Closed?)
              && (!stored ==> unchanged(this))
              && (stored ==>
                    var p := old(products)[found.value];
                    var o := NewOrder(old(nextId), caller, p, quantity, deliveryAddress, now);
                    && orders == old(orders) + [o] && nextId == old(nextId) + 1
                    && products == old(products)[found.value := p.(stock := p.stock - quantity)]
                    && queue == (if channel.Consuming? then old(queue) + [Ledger.JobOf(o)] else old(queue))
                    && (r.Ok? ==> r.value == Placement(o.orderNumber, o.totalAmount)))
      ensures forall id :: Catalog.StockOf(products, id) + Ledger.Ordered(orders, id)
                           == old(Catalog.StockOf(products, id) + Ledger.Ordered(orders, id))
      ensures quantity >= 1 && old(Ledger.Sound(orders)) ==> Ledger.Sound(orders)
    {
      var found := Catalog.FindProduct(products, productId);
      if found.None? {
        return Err(ProductNotFound);
      }
      var i := found.value;
      var product := products[i];
      if !Catalog.StockCheckAsWritten(product.stock, quantity) {
        return Err(InsufficientStock);
      }
      var order := NewOrder(nextId, caller, product, quantity, deliveryAddress, now);
      if !Ledger.Savable(order, orders) {
        return Err(ServerError);
      }
      SaveAndDecrement(i, order);
      var sent := Publish(Ledger.JobOf(order));
      if !sent {
        return Err(ServerError);
      }
      r := Ok(Placement(order.orderNumber, order.totalAmount));
    }

    /**
      The two writes of a placement that passed its checks: `order.save()`
      appends the order, then `product.stock -= quantity; product.save()`
      lowers the stock of product `i`.
     */
    method SaveAndDecrement(i: nat, order: Order)
      requires Valid()
      requires i < |products| && order.product.productId == products[i].id
      requires Catalog.StockCheckAsWritten(products[i].stock, order.product.quantity)
      requires order.id == nextId && Ledger.Savable(order, orders)
      modifies this`products, this`orders, this`nextId
      ensures Valid()
      ensures orders == old(orders) + [order] && nextId == old(nextId) + 1
      ensures products == old(products)[i := old(products)[i].(stock := old(products)[i].stock - order.product.quantity)]
      ensures forall id :: Catalog.StockOf(products, id) + Ledger.Ordered(orders, id)
                           == old(Catalog.StockOf(products, id) + Ledger.Ordered(orders, id))
    {
      ghost var before, placed := products, orders;
      var product := products[i];
      orders := orders + [order];
      nextId := nextId + 1;
      products := products[i := product.(stock := product.stock - order.product.quantity)];
      forall id
        ensures Catalog.StockOf(products, id) + Ledger.Ordered(orders, id)
                == Catalog.StockOf(before, id) + Ledger.Ordered(placed, id)
      {
        Ledger.PlacementConservesUnits(before, placed, i, order, id);
      }
      Catalog.DecrementKeepsConsistent(before, nextId - 1, i, order.product.quantity, nextId);
      Ledger.SaveKeepsConsistent(placed, nextId - 1, order);
      Accounts.ConsistentLater(users, admins, nextId - 1, nextId);
    }

    /**
      `if (emailChannel) emailChannel.sendToQueue('email_queue', ...)`: no
      channel skips the publish, a consuming channel queues the job, a closed
      one throws (`sent` is false).
     */
    method Publish(job: EmailJob) returns (sent: bool)
      requires Valid()
      modifies this`queue, this`published
      ensures Valid()
      ensures sent <==> !channel.Closed?
      ensures queue == if channel.Consuming? then old(queue) + [job] else old(queue)
    {
      match channel
      case Unassigned =>
        sent := true;
      case Consuming =>
        queue := queue + [job];
        published := published + [job];
        sent := true;
      case Closed =>
        sent := false;
    }

    /**
      The broker connection, attempted once at start-up. The channel is
      assigned before the queue is asserted, so a failed assertion leaves an
      assigned channel, closed, with no consumer registered.
     */
    method ConnectBroker(outcome: ConnectOutcome)
      modifies this`channel
      ensures channel == match outcome
                         case ConnectFailed => old(channel)
                         case QueueRejected => Closed
                         case Connected => Consuming
    {
      match outcome
      case ConnectFailed =>
      case QueueRejected =>
        channel := Closed;
      case Connected =>
        channel := Consuming;
    }

    /**
      The `email_queue` consumer handling one delivery: the head job is taken,
      its confirmation mail is attempted and the job is acknowledged whether
      or not the transport accepted the mail, because the send routine catches
      its own errors. With nothing to deliver it does nothing.
     */
    method HandleDelivery(sendSucceeds: bool)
      requires Valid() && channel == Consuming
      modifies this`queue, this`acked, this`outbox
      ensures Valid()
      ensures old(queue) == [] ==> unchanged(this)
      ensures old(queue) != [] ==>
                && queue == old(queue)[1..]
                && acked == old(acked) + [old(queue)[0]]
                && outbox == old(outbox) + (if sendSucceeds then [ConfirmationMail(old(queue)[0])] else [])
    {
      if queue == [] {
        return;
      }
      var job := queue[0];
      if sendSucceeds {
        outbox := outbox + [ConfirmationMail(job)];
      }
      assert (acked + [job]) + queue[1..] == acked + queue;
      acked := acked + [job];
      queue := queue[1..];
    }

    /**
      `POST /api/auth/register`: refuses a username or email already in use;
      otherwise stores the user with the hashed password, opens a day-long
      session entry in the cache and answers the token's claims. An empty
      required field fails validation on save (500).
     */
    method Register(username: string, email: string, hashedPassword: string) returns (r: Result<Claims>)
      requires Valid()
      modifies this`users, this`nextId, this`cache
      ensures Valid()
      ensures r == Err(UserExists) <==> Accounts.FindClash(old(users), username, email).Some?
      ensures r == Err(ServerError) <==>
                Accounts.FindClash(old(users), username, email).None?
                && (username == "" || email == "" || hashedPassword == "")
      ensures r.Err? ==> r.error in {UserExists, ServerError} && unchanged(this)
      ensures r.Ok? ==>
                && r.value == Claims(old(nextId), username, email, UserRole)
                && nextId == old(nextId) + 1
                && users == old(users) + [User(old(nextId), username, email, hashedPassword)]
                && cache == old(cache)[UserSession(old(nextId)) := CacheEntry(Session(username, email), SessionTtl)]
    {
      if Accounts.FindClash(users, username, email).Some? {
        return Err(UserExists);
      }
      if !Present(username) || !Present(email) || !Present(hashedPassword) {
        return Err(ServerError);
      }
      var user := User(nextId, username, email, hashedPassword);
      Accounts.AppendKeepsUnique(users, user);
      users := users + [user];
      nextId := nextId + 1;
      cache := cache[UserSession(user.id) := CacheEntry(Session(username, email), SessionTtl)];
      r := Ok(Claims(user.id, username, email, UserRole));
    }

    /**
      `POST /api/auth/login`: an unknown username and a wrong password give
      the same 400; a match refreshes the user's session entry. `compare`
      stands for bcrypt's comparison of a plain password with a stored hash.
     */
    method Login(username: string, password: string, compare: (string, string) -> bool)
      returns (r: Result<Claims>)
      requires Valid()
      modifies this`cache
      ensures Valid()
      ensures var found := Accounts.FindUser(users, username);
              && (r.Ok? <==> found.Some? && compare(password, users[found.value].password))
              && (r.Err? ==> r.error == InvalidCredentials && cache == old(cache))
              && (r.Ok? ==>
                    var u := users[found.value];
                    && r.value == Claims(u.id, u.username, u.email, UserRole)
                    && cache == old(cache)[UserSession(u.id) := CacheEntry(Session(u.username, u.email), SessionTtl)])
    {
      var found := Accounts.FindUser(users, username);
      if found.None? {
        return Err(InvalidCredentials);
      }
      var user := users[found.value];
      if !compare(password, user.password) {
        return Err(InvalidCredentials);
      }
      cache := cache[UserSession(user.id) := CacheEntry(Session(user.username, user.email), SessionTtl)];
      r := Ok(Claims(user.id, user.username, user.email, UserRole));
    }

    /** `POST /api/admin/login`: like user login over the admins, with role "admin" and no session entry. */
    method AdminLogin(username: string, password: string, compare: (string, string) -> bool)
      returns (r: Result<Claims>)
      ensures var found := Accounts.FindAdmin(admins, username);
              && (r.Ok? <==> found.Some? && compare(password, admins[found.value].password))
              && (r.Err? ==> r.error == InvalidCredentials)
              && (r.Ok? ==>
                    var a := admins[found.value];
                    r.value == Claims(a.id, a.username, a.email, AdminRole))
    {
      var found := Accounts.FindAdmin(admins, username);
      if found.None? {
        return Err(InvalidCredentials);
      }
      var admin := admins[found.value];
      if !compare(password, admin.password) {
        return Err(InvalidCredentials);
      }
      r := Ok(Claims(admin.id, admin.username, admin.email, AdminRole));
    }

    /**
      `PATCH /api/admin/orders/:id`: sets the status of the order with that id
      and answers the updated order, or answers null when there is none. No
      other field, and so neither the revenue nor any order number, changes.
     */
    method UpdateOrderStatus(orderId: Id, status: string) returns (r: Option<Order>)
      requires Valid()
      modifies this`orders
      ensures Valid()
      ensures var found := Ledger.FindOrder(old(orders), orderId);
              && (found.None? ==> r.None? && orders == old(orders))
              && (found.Some? ==>
                    && orders == old(orders)[found.value := old(orders)[found.value].(status := status)]
                    && r == Some(orders[found.value]))
      ensures |orders| == |old(orders)|
      ensures forall i :: 0 <= i < |orders| ==>
                orders[i] == old(orders)[i].(status := orders[i].status)
      ensures Ledger.Revenue(orders) == old(Ledger.Revenue(orders))
    {
      var found := Ledger.FindOrder(orders, orderId);
      if found.None? {
        return None;
      }
      var i := found.value;
      var updated := orders[i].(status := status);
      Ledger.RevenueUpdate(orders, i, updated);
      orders := orders[i := updated];
      r := Some(updated);
    }

    /**
      `GET /api/admin/stats`. The revenue is the plain sum of the totals; it
      is non-negative when the ledger is sound.
     */
    method GetStats() returns (s: Stats)
      requires Valid()
      ensures s.totalUsers == |users| && s.totalOrders == |orders|
      ensures s.totalRevenue == Ledger.Revenue(orders)
      ensures Ledger.Sound(orders) ==> s.totalRevenue >= 0
      ensures |s.recentOrders| == if |orders| < RecentLimit then |orders| else RecentLimit
      ensures Ledger.NewestFirst(s.recentOrders) && multiset(s.recentOrders) <= multiset(orders)
      ensures forall o :: o in multiset(orders) - multiset(s.recentOrders) ==>
                forall k :: 0 <= k < |s.recentOrders| ==> o.createdAt <= s.recentOrders[k].createdAt
    {
      if Ledger.Sound(orders) {
        Ledger.RevenueNonNegative(orders);
      }
      s := Stats(|users|, |orders|, Ledger.Revenue(orders), Ledger.Recent(orders, RecentLimit));
    }
  }
}
