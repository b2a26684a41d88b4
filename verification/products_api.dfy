/** The serverless handler of server/api/products.js: CORS first, then GET lists
    every product, POST creates one after a truthiness check on name, price and
    stock, and every other method gets 405. */
module ProductsApi {
  import opened Common
  import opened Tables
  import opened Http
  import opened Middleware

  /** The body `{name, description, price, stock, image_url}`; price in cents. */
  datatype ProductRequest = ProductRequest(name: Option<string>, description: Option<string>,
                                           price: Option<int>, stock: Option<int>, imageUrl: Option<string>)

  datatype ProductOutcome = MissingProductFields | ProductInsertFailed | ProductAdded(productId: int)

  /** `!name || !price || !stock` is false. */
  predicate RequiredFieldsPresent(req: ProductRequest)
  {
    TruthyText(req.name) && TruthyNumber(req.price) && TruthyNumber(req.stock)
  }

  /** The truthiness check refuses a zero price and a zero stock along with absent fields,
      and lets every other number through, negative ones included. */
  lemma RequiredFieldsRefuseZero(req: ProductRequest)
    ensures req.price == Some(0) || req.stock == Some(0) ==> !RequiredFieldsPresent(req)
    ensures TruthyText(req.name) && req.price.Some? && req.stock.Some? ==>
              (RequiredFieldsPresent(req) <==> req.price.value != 0 && req.stock.value != 0)
  {
  }

  /** The POST branch: the field check, then one insert with no uniqueness check. */
  method CreateProduct(db: Database, req: ProductRequest, insertFails: bool) returns (outcome: ProductOutcome)
    requires db.Valid()
    modifies db
    ensures db.Valid()
    ensures db.users == old(db.users) && db.orders == old(db.orders) && db.orderItems == old(db.orderItems)
    ensures !RequiredFieldsPresent(req) ==> outcome == MissingProductFields && unchanged(db)
    ensures RequiredFieldsPresent(req) && insertFails ==> outcome == ProductInsertFailed && unchanged(db)
    ensures RequiredFieldsPresent(req) && !insertFails ==>
              && outcome == ProductAdded(old(db.nextProductId))
              && (forall p :: p in old(db.products) ==> p.id != outcome.productId)
              && db.products == old(db.products) + [ProductRow(outcome.productId, req.name.value, req.description,
                                                               req.price.value, req.stock.value, req.imageUrl)]
  {
    if !RequiredFieldsPresent(req) {
      return MissingProductFields;
    }
    var inserted := db.InsertProduct(req.name.value, req.description, req.price.value, req.stock.value,
                                     req.imageUrl, insertFails);
    if inserted.StorageError? {
      return ProductInsertFailed;
    }
    outcome := ProductAdded(inserted.id);
    assert forall p :: p in old(db.products) ==> p.id != inserted.id by {
      forall p | p in old(db.products) ensures p.id != inserted.id {
        var k :| 0 <= k < |old(db.products)| && old(db.products)[k] == p;
        assert ProductIds(old(db.products))[k] == p.id;
      }
    }
  }

  /** Two identical creations are two products: nothing compares the new row with the
      existing ones, so both rows are stored, with distinct ids and equal fields. */
  method CreateSameProductTwice(db: Database, req: ProductRequest) returns (first: ProductOutcome, second: ProductOutcome)
    requires db.Valid() && RequiredFieldsPresent(req)
    modifies db
    ensures db.Valid()
    ensures first.ProductAdded? && second.ProductAdded? && first.productId != second.productId
    ensures |db.products| == |old(db.products)| + 2
    ensures db.products[|db.products| - 2].(id := 0) == db.products[|db.products| - 1].(id := 0)
  {
    first := CreateProduct(db, req, false);
    assert db.products[|db.products| - 1] in db.products;
    second := CreateProduct(db, req, false);
  }

  /** The status and body sent for each outcome of a creation. */
  function ProductReply(outcome: ProductOutcome): (r: Reply)
    ensures r.status == 200 <==> outcome.ProductAdded?
    ensures outcome.ProductAdded? ==> r.payload == ProductAddedBody(outcome.productId)
    ensures outcome == MissingProductFields ==> r == Reply(400, ErrorBody("Name, price, and stock are required"))
    ensures outcome == ProductInsertFailed ==> r == Reply(500, StorageErrorBody)
  {
    match outcome
    case MissingProductFields => Reply(400, ErrorBody("Name, price, and stock are required"))
    case ProductInsertFailed => Reply(500, StorageErrorBody)
    case ProductAdded(id) => Reply(200, ProductAddedBody(id))
  }

  /** The GET branch: `SELECT * FROM products`, wrapped as `{success: true, data}`. */
  method ListProducts(db: Database, queryFails: bool) returns (r: Reply)
    ensures queryFails ==> r == Reply(500, StorageErrorBody)
    ensures !queryFails ==> r.status == 200 && r.payload.ProductListBody? && r.payload.rows == db.products
  {
    if queryFails {
      return Reply(500, StorageErrorBody);
    }
    var rows := db.products;
    r := Reply(200, ProductListBody(rows));
  }

  method Handle(db: Database, req: Request<ProductRequest>, storageFails: bool, res: Response)
    requires db.Valid()
    modifies db, res
    ensures db.Valid()
    ensures db.users == old(db.users) && db.orders == old(db.orders) && db.orderItems == old(db.orderItems)
    ensures res.headers == old(res.headers) + CorsHeaders(req.origin)
    ensures req.verb == Options ==>
              unchanged(db) && res.statusCode == 204 && res.ended && res.body == old(res.body)
    ensures req.verb == Get ==>
              unchanged(db) && res.statusCode == (if storageFails then 500 else 200)
              && res.body == Some(if storageFails then StorageErrorBody else ProductListBody(db.products))
    ensures req.verb != Options && req.verb != Get && req.verb != Post ==>
              unchanged(db) && res.statusCode == 405 && res.body == Some(ErrorBody("Method not allowed"))
    ensures req.verb == Post && !RequiredFieldsPresent(req.body) ==>
              unchanged(db) && res.statusCode == 400 && res.body == Some(ErrorBody("Name, price, and stock are required"))
    ensures req.verb == Post && RequiredFieldsPresent(req.body) && storageFails ==>
              unchanged(db) && res.statusCode == 500 && res.body == Some(StorageErrorBody)
    ensures req.verb == Post && RequiredFieldsPresent(req.body) && !storageFails ==>
              && res.statusCode == 200 && res.body == Some(ProductAddedBody(old(db.nextProductId)))
              && db.products == old(db.products) + [ProductRow(old(db.nextProductId), req.body.name.value,
                                                               req.body.description, req.body.price.value,
                                                               req.body.stock.value, req.body.imageUrl)]
  {
    var handled := CorsMiddleware(req, res);
    if handled {
      return;
    }
    if req.verb == Get {
      var reply := ListProducts(db, storageFails);
      res.Send(reply);
    } else if req.verb == Post {
      var outcome := CreateProduct(db, req.body, storageFails);
      res.Send(ProductReply(outcome));
    } else {
      res.Send(MethodNotAllowed);
    }
  }
}
