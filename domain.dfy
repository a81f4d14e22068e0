/**
  The documents, messages and cache entries of the store backend, and the
  fixed responses its routes send. Money is in integer cents; document ids
  (MongoDB ObjectIds) are natural numbers handed out by the backend.
 */
module Domain {

  type Id = nat

  datatype Option<+T> = None | Some(value: T)

  /** An HTTP error response: status code and the `message` field of its body. */
  datatype HttpError = HttpError(status: nat, message: string)

  datatype Result<+T> = Ok(value: T) | Err(error: HttpError)

  const ProductNotFound := HttpError(404, "Product not found")
  const InsufficientStock := HttpError(400, "Insufficient stock")
  const ServerError := HttpError(500, "Server error")
  const UserExists := HttpError(400, "User already exists")
  const InvalidCredentials := HttpError(400, "Invalid credentials")
  const NoToken := HttpError(401, "No token, authorization denied")
  const BadToken := HttpError(401, "Token is not valid")
  const AdminOnly := HttpError(403, "Access denied. Admin only.")

  /** Mongoose's `required` check on a string: present and non-empty. */
  predicate Present(s: string) {
    s != ""
  }

  /** Schema defaults of an order document. */
  const CashOnDelivery := "Cash on Delivery"
  const Confirmed := "Confirmed"

  /** Roles written into token payloads. */
  const UserRole := "user"
  const AdminRole := "admin"

  datatype Product = Product(
    id: Id, name: string, description: string, price: int, image: string, stock: int)

  /** The product snapshot embedded in an order. */
  datatype LineItem = LineItem(productId: Id, name: string, price: int, quantity: int)

  datatype Address = Address(street: string, city: string, zipCode: string, phone: string)

  datatype Order = Order(
    id: Id,
    user: Id,
    username: string,
    email: string,
    product: LineItem,
    deliveryAddress: Address,
    totalAmount: int,
    paymentMethod: string,
    status: string,
    orderNumber: string,
    createdAt: nat)

  datatype User = User(id: Id, username: string, email: string, password: string)

  datatype Admin = Admin(id: Id, username: string, email: string, password: string, role: string)

  /** The `user` object of a token payload, as signed at login and read back by the middlewares. */
  datatype Claims = Claims(id: Id, username: string, email: string, role: string)

  /** The body of an order placement's 201 response. */
  datatype Placement = Placement(orderNumber: string, totalAmount: int)

  /** The payload published on `email_queue`. */
  datatype EmailJob = EmailJob(
    email: string, username: string, orderNumber: string, productName: string, totalAmount: int)

  /** A mail handed to the mail transport (the HTML body is not modelled). */
  datatype Mail = Mail(to: string, subject: string)

  /** Cache keys: `products_list` and `user_session_<id>`. */
  datatype CacheKey = ProductsList | UserSession(userId: Id)

  datatype CacheValue = Listing(products: seq<Product>) | Session(username: string, email: string)

  datatype CacheEntry = CacheEntry(value: CacheValue, ttl: nat)

  const ListingTtl := 3600
  const SessionTtl := 86400
  const ListingLimit := 3
  const RecentLimit := 5
}
