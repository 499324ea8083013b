/**
 * The product ledger of the mock backend (mock-svc/handler/product_handler.go):
 * a map from product id to product whose stock `ReserveProduct` lowers and
 * `ReleaseProduct` raises.
 */
module MockProduct {
  import opened MockReply

  datatype Product = Product(id: string, name: string, stock: int, price: int)

  /** What a reservation answers: the product after it, and the amount charged (`float64` in the source). */
  datatype ProductResponse = ProductResponse(product: Product, amount: int)

  datatype ProductRequest = ProductRequest(productId: string, quantity: int)

  type Db = map<string, Product>

  /** The request's tags: `product_id` not blank, `quantity` at least 1. */
  predicate ValidRequest(req: ProductRequest)
  {
    NotBlank(req.productId) && req.quantity >= 1
  }

  /** One `ReserveProduct`: the new table and the reply. */
  function ReserveSpec(db: Db, req: ProductRequest): (Db, Reply<ProductResponse>)
  {
    if !ValidRequest(req) then (db, Invalid)
    else if req.productId !in db then (db, Err(404, "product not found"))
    else if db[req.productId].stock < req.quantity then (db, Err(400, "stock is not enough"))
    else
      var product := db[req.productId].(stock := db[req.productId].stock - req.quantity);
      (db[req.productId := product], Ok(200, ProductResponse(product, req.quantity * product.price)))
  }

  /** One `ReleaseProduct`: the new table and the reply. */
  function ReleaseSpec(db: Db, req: ProductRequest): (Db, Reply<Product>)
  {
    if !ValidRequest(req) then (db, Invalid)
    else if req.productId !in db then (db, Err(404, "product not found"))
    else
      var product := db[req.productId].(stock := db[req.productId].stock + req.quantity);
      (db[req.productId := product], Ok(200, product))
  }

  /** No product has negative stock. */
  predicate StockNonNegative(db: Db)
  {
    forall p :: p in db ==> db[p].stock >= 0
  }

  class ProductHandler {
    var db: Db

    constructor (db: Db)
      ensures this.db == db
    {
      this.db := db;
    }

    /** `ReserveProduct`. */
    method ReserveProduct(req: ProductRequest) returns (reply: Reply<ProductResponse>)
      modifies this
      ensures (db, reply) == ReserveSpec(old(db), req)
    {
      if !ValidRequest(req) {
        return Invalid;
      }
      if req.productId !in db {
        return Err(404, "product not found");
      }
      var product := db[req.productId];
      if product.stock < req.quantity {
        return Err(400, "stock is not enough");
      }
      product := product.(stock := product.stock - req.quantity);
      db := db[req.productId := product];
      reply := Ok(200, ProductResponse(product, req.quantity * product.price));
    }

    /** `ReleaseProduct`. */
    method ReleaseProduct(req: ProductRequest) returns (reply: Reply<Product>)
      modifies this
      ensures (db, reply) == ReleaseSpec(old(db), req)
    {
      if !ValidRequest(req) {
        return Invalid;
      }
      if req.productId !in db {
        return Err(404, "product not found");
      }
      var product := db[req.productId];
      product := product.(stock := product.stock + req.quantity);
      db := db[req.productId := product];
      reply := Ok(200, product);
    }
  }

  /** An unknown product, or too little stock, is turned away with the table unchanged. */
  lemma ReserveRejections(db: Db, req: ProductRequest)
    requires ValidRequest(req)
    ensures var (db', r) := ReserveSpec(db, req);
      (req.productId !in db ==> db' == db && r == Err(404, "product not found"))
      && (req.productId in db && db[req.productId].stock < req.quantity ==>
            db' == db && r == Err(400, "stock is not enough"))
      && (r.Ok? <==> req.productId in db && db[req.productId].stock >= req.quantity)
  {
  }

  /**
   * A successful reservation lowers the stock of that product by exactly the
   * quantity and no further than 0, leaves every other entry alone, and
   * charges quantity times unit price.
   */
  lemma ReserveTakesStock(db: Db, req: ProductRequest)
    requires ReserveSpec(db, req).1.Ok?
    ensures var (db', r) := ReserveSpec(db, req);
      db'.Keys == db.Keys && db'[req.productId].stock == db[req.productId].stock - req.quantity
      && db'[req.productId].stock >= 0
      && db'[req.productId] == db[req.productId].(stock := db'[req.productId].stock)
      && (forall p :: p in db && p != req.productId ==> db'[p] == db[p])
      && r.data.amount == req.quantity * db[req.productId].price && r.data.product == db'[req.productId]
  {
  }

  /** A release raises the stock of a known product by the quantity and leaves every other entry alone. */
  lemma ReleaseReturnsStock(db: Db, req: ProductRequest)
    requires ValidRequest(req)
    ensures var (db', r) := ReleaseSpec(db, req);
      (req.productId !in db ==> db' == db && r == Err(404, "product not found"))
      && (req.productId in db ==>
            r.Ok? && db'.Keys == db.Keys && db'[req.productId].stock == db[req.productId].stock + req.quantity
            && (forall p :: p in db && p != req.productId ==> db'[p] == db[p]))
  {
  }

  /** Releasing what a successful reservation took restores the table exactly. */
  lemma ReserveThenReleaseRestores(db: Db, req: ProductRequest)
    requires ReserveSpec(db, req).1.Ok?
    ensures ReleaseSpec(ReserveSpec(db, req).0, req).0 == db
  {
    var db' := ReserveSpec(db, req).0;
    var db'' := ReleaseSpec(db', req).0;
    assert db''[req.productId] == db[req.productId];
    assert forall p :: p in db'' <==> p in db;
  }

  /** Neither handler ever leaves a product with negative stock. */
  lemma HandlersKeepStockNonNegative(db: Db, req: ProductRequest)
    requires StockNonNegative(db)
    ensures StockNonNegative(ReserveSpec(db, req).0)
    ensures StockNonNegative(ReleaseSpec(db, req).0)
  {
  }
}
