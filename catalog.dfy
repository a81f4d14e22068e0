/**
  The product collection: lookup by id, the stock admission test of order
  placement, the listing page that `GET /api/products` serves, and the sample
  catalog that seeding inserts.
 */
module Catalog {
  import opened Domain
  import Collection

  predicate UniqueIds(products: seq<Product>) {
    forall i, j :: 0 <= i < j < |products| ==> products[i].id != products[j].id
  }

  /**
    The invariant of the product collection: unique ids, all below the next
    fresh id, and neither stock nor price negative.
   */
  predicate Consistent(products: seq<Product>, nextId: Id) {
    && UniqueIds(products)
    && forall i :: 0 <= i < |products| ==>
         products[i].id < nextId && products[i].stock >= 0 && products[i].price >= 0
  }

  /**
    A decrement that passed the stock check as written keeps the collection
    consistent, also once more ids are handed out: whatever the quantity, the
    stock left is not negative.
   */
  lemma DecrementKeepsConsistent(products: seq<Product>, nextId: Id, i: nat, quantity: int, nextId': Id)
    requires Consistent(products, nextId) && nextId <= nextId'
    requires i < |products| && StockCheckAsWritten(products[i].stock, quantity)
    ensures Consistent(products[i := products[i].(stock := products[i].stock - quantity)], nextId')
  {
    var after := products[i := products[i].(stock := products[i].stock - quantity)];
    assert forall j :: 0 <= j < |products| ==> after[j].id == products[j].id;
  }

  /** `Product.findById(id)`: the index of the product with that id. */
  function FindProduct(products: seq<Product>, id: Id): (r: Option<nat>)
    ensures r.Some? ==> r.value < |products| && products[r.value].id == id
    ensures r.None? <==> forall j :: 0 <= j < |products| ==> products[j].id != id
  {
    Collection.FindOne(products, (p: Product) => p.id == id)
  }

  /** With unique ids the product found is the only one carrying `id`. */
  lemma FindProductUnique(products: seq<Product>, id: Id, j: nat)
    requires UniqueIds(products)
    requires j < |products| && products[j].id == id
    ensures FindProduct(products, id) == Some(j)
  {
  }

  /** Stock of the product with id `id`, zero when there is none. */
  function StockOf(products: seq<Product>, id: Id): int {
    match FindProduct(products, id)
    case None => 0
    case Some(i) => products[i].stock
  }

  /** Changing one product's stock keeps every id, hence every lookup, in place. */
  lemma {:induction false} FindProductAfterRestock(products: seq<Product>, i: nat, stock: int, id: Id)
    requires i < |products|
    ensures FindProduct(products[i := products[i].(stock := stock)], id) == FindProduct(products, id)
  {
    var after := products[i := products[i].(stock := stock)];
    assert forall j :: 0 <= j < |products| ==> after[j].id == products[j].id;
    match FindProduct(products, id)
    case None =>
    case Some(k) =>
      assert after[k].id == id;
      assert forall j :: 0 <= j < k ==> after[j].id != id;
  }

  /**
    Decrementing product `i` by `quantity` lowers the stock of its id by
    exactly `quantity` and leaves the stock of every other id as it was.
   */
  lemma StockAfterDecrement(products: seq<Product>, i: nat, quantity: int, id: Id)
    requires UniqueIds(products) && i < |products|
    ensures StockOf(products[i := products[i].(stock := products[i].stock - quantity)], id)
            == StockOf(products, id) - (if products[i].id == id then quantity else 0)
  {
    FindProductAfterRestock(products, i, products[i].stock - quantity, id);
    if products[i].id == id {
      FindProductUnique(products, id, i);
    } else if FindProduct(products, id).Some? {
      assert FindProduct(products, id).value != i;
    }
  }

  /** The first page of the catalog: at most `ListingLimit` products, in stored order. */
  function ListingPage(products: seq<Product>): (r: seq<Product>)
    ensures |r| == if |products| < ListingLimit then |products| else ListingLimit
    ensures r == products[..|r|]
  {
    if |products| <= ListingLimit then products else products[..ListingLimit]
  }

  /**
    The admission test exactly as `POST /api/orders` writes it: only
    `stock < quantity` rejects, with no lower bound on `quantity`.
   */
  predicate StockCheckAsWritten(stock: int, quantity: int) {
    !(stock < quantity)
  }

  /**
    A negative quantity passes the as-written check against any stock that is
    not itself negative, and the decrement then raises the stock.
   */
  lemma NegativeQuantityRestocks(stock: int, quantity: int)
    requires stock >= 0 && quantity < 0
    ensures StockCheckAsWritten(stock, quantity)
    ensures stock - quantity > stock
    ensures !Admits(stock, quantity)
  {
  }

  /**
    The admission test the check evidently means: it also rejects what the
    as-written check lets through, so an admitted quantity leaves a stock that
    is neither negative nor larger.
   */
  function Admits(stock: int, quantity: int): (ok: bool)
    ensures ok <==> quantity >= 1 && StockCheckAsWritten(stock, quantity)
    ensures ok ==> 0 <= stock - quantity < stock
  {
    1 <= quantity <= stock
  }

  /** The text of the three sample products. */
  const HeadphonesName: string := "Wireless Headphones"
  const HeadphonesDescription: string := "High-quality wireless headphones with noise cancellation"
  const HeadphonesImage: string := "https://ninzstore-products-images.s3.us-east-1.amazonaws.com/products/headphones.jpg"
  const WatchName: string := "Smart Watch"
  const WatchDescription: string := "Fitness tracking smart watch with heart rate monitor"
  const WatchImage: string := "https://ninzstore-products-images.s3.us-east-1.amazonaws.com/products/smartwatch.jpg"
  const StandName: string := "Laptop Stand"
  const StandDescription: string := "Adjustable aluminum laptop stand for better ergonomics"
  const StandImage: string := "https://ninzstore-products-images.s3.us-east-1.amazonaws.com/products/laptop-stand.jpg"

  /** The three sample products `POST /api/seed` inserts (prices in cents), with ids from `firstId` on. */
  function SampleProducts(firstId: Id): (r: seq<Product>)
    ensures |r| == 3 && UniqueIds(r)
    ensures forall i :: 0 <= i < |r| ==> r[i].id == firstId + i && r[i].stock >= 0 && r[i].price >= 0
  {
    [ Product(firstId, HeadphonesName, HeadphonesDescription, 9999, HeadphonesImage, 15),
      Product(firstId + 1, WatchName, WatchDescription, 19999, WatchImage, 20),
      Product(firstId + 2, StandName, StandDescription, 4999, StandImage, 25) ]
  }
}
