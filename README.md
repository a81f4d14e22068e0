# Store backend model

A Dafny model of the Express backend of a small web shop (`ecommerce-app/backend/serverold.js`).
The backend keeps products, orders, users and admins in MongoDB. It caches the product listing and
user sessions in Redis. It publishes order confirmations on a RabbitMQ queue (`email_queue`), and a
consumer of that queue sends the mails.

The model is one object, `Server.Backend`. Its fields stand for the collections, the cache
(a `map` from key to entry), the channel and its queue, the consumer's acknowledgements and the
mail outbox. Every route handler in scope is a method with a `modifies` clause on the fields it
writes. The handlers run one at a time. Every state change is proved to keep the invariants
(`Valid`). Every order placement is proved to keep the balance of stock against units ordered.

Modules:

- `Domain`: documents, cache keys and values, queue jobs, response errors and the constants of
  the source (status codes and messages, TTLs, page sizes, default payment method and status).
- `Collection`: `findOne` over an in-memory collection, the first document that matches.
- `Decimal`: decimal rendering of a timestamp and the `"ORD" + Date.now()` order numbers.
- `Catalog`: product lookup, the stock admission test, the listing page and the sample catalog.
- `Ledger`: saving an order, order lookup, revenue, units ordered per product, recent orders.
- `Accounts`: user and admin lookups of registration and login.
- `Auth`: the two middlewares, with token verification passed in as a function.
- `Server`: the backend object and its route handlers and queue consumer.
- `Scenarios`: short request sequences showing what the route contracts let a caller conclude.

Prices and totals are integers counting cents. The clock, the bcrypt hash and comparison, and
JWT verification are parameters. Document ids come from a counter, `nextId`, standing for fresh
ObjectIds.

## Model

| member | source | states |
|---|---|---|
| Collection.FindOne | ecommerce-app/backend/serverold.js:197 | the result is the first index whose document matches; `None` exactly when no document matches |
| Decimal.ParseDigits | ecommerce-app/backend/serverold.js:394 | reading back the decimal digits of a timestamp gives the timestamp |
| Decimal.OrderNumber | ecommerce-app/backend/serverold.js:394 | an order number is "ORD" followed by digits that read back as the timestamp |
| Decimal.OrderNumberInjective | ecommerce-app/backend/serverold.js:93-94 | two order numbers are equal if and only if their timestamps are, so only same-millisecond orders collide on the unique index |
| Catalog.FindProduct | ecommerce-app/backend/serverold.js:385-388 | a found index holds a product with that id; `None` exactly when no product has it |
| Catalog.FindProductUnique | ecommerce-app/backend/serverold.js:385 | with unique ids the lookup finds the one product carrying the id |
| Catalog.FindProductAfterRestock | ecommerce-app/backend/serverold.js:414-415 | changing a product's stock leaves every lookup by id where it was |
| Catalog.StockAfterDecrement | ecommerce-app/backend/serverold.js:414-415 | the decrement lowers the stock of the ordered id by the quantity and no other id's stock |
| Catalog.DecrementKeepsConsistent | ecommerce-app/backend/serverold.js:390-392 | a decrement that passed the check as written, for any quantity, keeps every stock non-negative and the ids unique |
| Catalog.StockCheckAsWritten | ecommerce-app/backend/serverold.js:390 | the check exactly as written: only a stock below the quantity rejects |
| Catalog.ListingPage | ecommerce-app/backend/serverold.js:372 | the page holds min(count, 3) products, the first ones in stored order |
| Catalog.NegativeQuantityRestocks | ecommerce-app/backend/serverold.js:390 | a negative quantity passes the check as written against any non-negative stock, and the decrement then raises the stock |
| Catalog.Admits | ecommerce-app/backend/serverold.js:390-392 | admitted exactly when the check as written passes and the quantity is at least one; then the new stock is non-negative and below the old |
| Catalog.SampleProducts | ecommerce-app/backend/serverold.js:466-490 | three products with consecutive fresh ids, non-negative prices and stocks |
| Ledger.Savable | ecommerce-app/backend/serverold.js:74-94 | `order.save()` succeeds: every required string of the order schema is non-empty and no stored order has the same order number |
| Ledger.SaveKeepsConsistent | ecommerce-app/backend/serverold.js:412 | saving a savable fresh order keeps ids and order numbers unique |
| Ledger.JobOf | ecommerce-app/backend/serverold.js:417-423 | the job carries the order's email, username, order number, product name and total |
| Ledger.FindOrder | ecommerce-app/backend/serverold.js:308 | a found index holds the order with that id; `None` exactly when there is none |
| Ledger.Revenue | ecommerce-app/backend/serverold.js:324-332 | the `$sum` of the totals, 0 for no orders and the one total for one order |
| Ledger.RevenueAppend | ecommerce-app/backend/serverold.js:324-326 | a new order raises the `$sum` of totals by exactly its own total |
| Ledger.RevenueUpdate | ecommerce-app/backend/serverold.js:324-326 | replacing one order changes the revenue by the difference of the two totals only |
| Ledger.RevenueNonNegative | ecommerce-app/backend/serverold.js:324-332 | the revenue of orders with non-negative totals is non-negative |
| Ledger.OrderedAppend | ecommerce-app/backend/serverold.js:397-412 | a new order adds its quantity to the units ordered of its product id and nothing to other ids |
| Ledger.PlacementConservesUnits | ecommerce-app/backend/serverold.js:405-415 | for every product id, stock plus units ordered is the same before and after a placement |
| Ledger.SortByDate | ecommerce-app/backend/serverold.js:327 | a permutation of the orders, sorted by `createdAt` descending |
| Ledger.Recent | ecommerce-app/backend/serverold.js:327 | min(count, limit) of the orders, sorted by `createdAt` descending, and no order left out is newer than one listed |
| Accounts.FindClash | ecommerce-app/backend/serverold.js:197-200 | a found user shares the email or the username; `None` exactly when nobody shares either |
| Accounts.AppendKeepsUnique | ecommerce-app/backend/serverold.js:197-206 | adding a user that clashes with nobody keeps usernames and emails unique |
| Accounts.FindUser | ecommerce-app/backend/serverold.js:229-232 | a found user has the username; `None` exactly when no user has it |
| Accounts.DefaultAdmin | ecommerce-app/backend/serverold.js:459-463 | the seeded admin has role "admin" and admin login by username "admin" finds it |
| Accounts.FindAdmin | ecommerce-app/backend/serverold.js:259-262 | a found admin has the username; `None` exactly when no admin has it |
| Auth.Authenticate | ecommerce-app/backend/serverold.js:159-172 | a missing or empty token gives "No token" (401); otherwise success exactly when verification succeeds, with the decoded claims; every failure is a 401 |
| Auth.AuthorizeAdmin | ecommerce-app/backend/serverold.js:174-190 | success exactly when authentication succeeds with role "admin"; 403 exactly when it succeeds with another role; authentication's own failures otherwise |
| Server.Backend.constructor | ecommerce-app/backend/serverold.js:99 | the backend starts empty with the channel unassigned, and valid |
| Server.Backend.Seed | ecommerce-app/backend/serverold.js:451-501 | products and admins are replaced by the sample catalog and the default admin, the cached listing is dropped, users, orders and sessions are kept |
| Server.Backend.ListProducts | ecommerce-app/backend/serverold.js:365-379 | a hit answers the cached listing and changes nothing; a miss answers the first page and caches it for 3600 seconds |
| Server.NewOrder | ecommerce-app/backend/serverold.js:394-410 | the order gets the fresh id, the caller, the timestamp, and the job built from it equals the one the route builds from the request; an admitted quantity gives a sound order, a negative quantity a negative total |
| Server.Backend.PlaceOrder | ecommerce-app/backend/serverold.js:381-439 | 404 exactly for an unknown product and 400 exactly when the stock is below the quantity, both with no state change; the order is stored exactly when the check as written passes and the save succeeds, with the fresh id, the stock lowered by the quantity and the job queued on a consuming channel; the answer is 201 exactly when stored and the channel is not closed, 500 otherwise; the cache is untouched; stock plus units ordered is conserved for every product; a sound ledger stays sound for a quantity of at least one |
| Server.Backend.SaveAndDecrement | ecommerce-app/backend/serverold.js:412-415 | the order is appended and the stock of product i lowered, keeping the invariants and conserving stock plus units ordered |
| Server.Backend.Publish | ecommerce-app/backend/serverold.js:425-427 | no channel skips the publish, a consuming channel queues the job, a closed channel throws |
| Server.Backend.ConnectBroker | ecommerce-app/backend/serverold.js:101-120 | a failed connect leaves the channel as it was; a failed queue assertion leaves it assigned and closed with no consumer; a full connect leaves it consuming |
| Server.ConfirmationMail | ecommerce-app/backend/serverold.js:131-137 | the mail goes to the job's address with the order number in the subject |
| Server.Backend.HandleDelivery | ecommerce-app/backend/serverold.js:108-156 | the head job is taken and acknowledged whether or not its mail was sent; a mail to the job's address with the order number in its subject is added only when sending succeeded |
| Server.Backend.Register | ecommerce-app/backend/serverold.js:193-223 | "User already exists" exactly when the email or username is taken; 500 exactly when there is no clash and a required field is empty; otherwise the user is stored under the fresh id, a day-long session entry is written and the claims carry role "user" |
| Server.Backend.Login | ecommerce-app/backend/serverold.js:225-253 | success exactly when the username is found and the password matches; failure is "Invalid credentials" with the cache untouched; success refreshes the session entry |
| Server.Backend.AdminLogin | ecommerce-app/backend/serverold.js:255-283 | success exactly when the admin is found and the password matches, with role "admin"; failure is "Invalid credentials" |
| Server.Backend.UpdateOrderStatus | ecommerce-app/backend/serverold.js:305-318 | the order with that id gets the new status and is answered; an unknown id answers null; no other field of any order changes, so the revenue does not |
| Server.Backend.GetStats | ecommerce-app/backend/serverold.js:320-339 | user and order counts, the revenue (non-negative for a sound ledger) and the five newest orders by `createdAt`, none left out being newer than one listed |
| Scenarios.StaleListingAfterOrder | ecommerce-app/backend/serverold.js:365-415 | after an order, the cached listing still shows the stock from before it, which exceeds the stored stock by the quantity |
| Scenarios.SameMillisecondOrders | ecommerce-app/backend/serverold.js:394-415 | a second order in the same millisecond fails with 500, and one order is stored with the stock decremented once |
| Scenarios.FailedMailStillAcked | ecommerce-app/backend/serverold.js:108-113 | a published job carries the stored order's values and is acknowledged although no mail went out |
| Scenarios.OrderOnClosedChannel | ecommerce-app/backend/serverold.js:101-118 | after a failed queue assertion an order answers 500, yet it is stored and the stock is lowered |

## Left out

- The frontend is not part of this model. Its order form caps the quantity at min(stock, 10) (`ecommerce-app/frontend/src/components/OrderPage.js:77`). The backend does not enforce that cap.
- Connecting to MongoDB, Redis, S3 and the mail transport, CORS and the server start are left out. The S3 client and multer are never used by a route in scope.
- The broker connect runs once, 10 seconds after start-up. The model has `ConnectBroker` with its outcome as a parameter, and no timer.
- Hashing and comparing passwords, and signing and verifying tokens, are parameters. The token string itself is not modelled. Register and login answer the claims it would carry.
- Prices are JavaScript floating-point numbers. The model uses integer cents, so the rounding of `price * quantity` is not modelled.
- Cache TTLs are recorded in each entry but never expire. The JSON serialisation of cached values is not modelled.
- Requests run one at a time. The race between concurrent orders that read the same stock is not modelled.
- Server.Backend.SaveAndDecrement: a failure of `product.save()` after `order.save()` succeeded, which would leave the order stored and the stock not decremented, is not modelled. Only the order save can fail in the model.
- A malformed product or order id, which makes Mongoose throw a cast error and the route answer 500, is not modelled. Ids are numbers.
- A queue message that is not valid JSON, which makes the consumer throw before acknowledging, is not modelled. Jobs only come from order placement.
- A token that verifies but carries no `user` object is not modelled: `Auth` works on decoded claims.
- Ledger.SortByDate: the order of orders with equal `createdAt`, which MongoDB leaves open, is fixed here as later-placed first.
- Server.Backend.GetStats: the revenue is promised non-negative only for a sound ledger (`Ledger.Sound`), because the stock check admits negative quantities (see Findings).
- Server.Backend.PlaceOrder: the quantity is an integer. Fractional or non-numeric quantities from the request body are not modelled.
- Server.Backend.ConnectBroker: a failure to register the consumer after the queue assertion succeeded is not modelled.
- The routes `GET /api/admin/users`, `GET /api/admin/orders`, `GET /api/user/dashboard` and `GET /api/orders/my-orders` are left out. They only read and filter the collections above.
- Server.Backend.PlaceOrder: its contract does not state the revenue. `Ledger.RevenueAppend` states that the appended order raises it by its own total.
- Server.Backend.UpdateOrderStatus: any string is accepted as a status, as in the source. A missing status is not modelled.
- Where the intended design differs from the code, the model follows the code:
  - placing an order does not invalidate the cached listing;
  - the consumer acknowledges every job, whether or not the mail was sent;
  - a duplicate order number answers 500 "Server error";
  - a failed broker connect is not retried.

## Findings

| source | as written | input that shows it | evidently intended | confidence | as-written member | corrected member |
|---|---|---|---|---|---|---|
| ecommerce-app/backend/serverold.js:390-392 | only `stock < quantity` rejects an order, so a zero or negative quantity passes | stock 15, quantity -3: the check passes, the total is negative and the stock rises to 18 | only a quantity of at least one that the stock covers is admitted | not executed; high | Catalog.NegativeQuantityRestocks | Catalog.Admits |

`Server.Backend.PlaceOrder` keeps the check as written. A quantity of zero or below is stored, and a
negative one raises the stock. `Catalog.Admits` is the intended test, and `Ledger.Sound` is the state
it keeps: an admitted quantity makes a sound order (`Server.NewOrder`), and placement keeps a sound
ledger sound for a quantity of at least one. `Server.Backend.GetStats` promises a non-negative
revenue for a sound ledger only.
