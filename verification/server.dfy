/** The Express routes of server/index.js. They carry no CORS handling and no
    method dispatch of their own (Express routes by method and path); the order,
    registration and login logic is the same as in the serverless handlers. */
module Server {
  import opened Common
  import opened Bcrypt
  import opened Tables
  import opened Orders
  import opened Accounts
  import opened Http
  import opened OrdersApi
  import opened AuthApi

  /** `GET /products`: the bare array of rows. */
  method GetProducts(db: Database, queryFails: bool) returns (r: Reply)
    ensures queryFails ==> r == Reply(500, StorageErrorBody)
    ensures !queryFails ==> r.status == 200 && r.payload.ProductRowsBody? && r.payload.rows == db.products
  {
    if queryFails {
      return Reply(500, StorageErrorBody);
    }
    var rows := db.products;
    r := Reply(200, ProductRowsBody(rows));
  }

  /** `POST /orders`: the same validation, pricing and insert order as the serverless handler. */
  method PostOrders(db: Database, body: OrderRequest, faults: OrderFaults) returns (r: Reply)
    requires db.Valid()
    modifies db
    ensures db.Valid()
    ensures db.users == old(db.users) && db.products == old(db.products)
    ensures !ValidOrderRequest(body) ==> unchanged(db) && r == Reply(400, ErrorBody("Invalid order data"))
    ensures ValidOrderRequest(body) && faults.headerInsertFails ==> unchanged(db) && r == Reply(500, StorageErrorBody)
    ensures ValidOrderRequest(body) && !faults.headerInsertFails ==>
              && r == Reply(200, OrderCreatedBody(old(db.nextOrderId)))
              && (forall o :: o in old(db.orders) ==> o.id != old(db.nextOrderId))
              && db.orders == old(db.orders) + [OrderRow(old(db.nextOrderId), body.userId.value,
                                                         OrderTotal(old(db.products), body.items.value, faults.lookupErrors))]
              && |old(db.orderItems)| <= |db.orderItems|
              && db.orderItems[..|old(db.orderItems)|] == old(db.orderItems)
              && LinesOf(db.orderItems[|old(db.orderItems)|..]) == KeptLines(body.items.value, faults.lineInsertErrors)
              && (forall k :: |old(db.orderItems)| <= k < |db.orderItems| ==> db.orderItems[k].orderId == old(db.nextOrderId))
  {
    var outcome := PlaceOrder(db, body, faults);
    r := OrderReply(outcome);
  }

  /** Two identical, valid orders are two orders: `orders.id` is AUTOINCREMENT and
      nothing deduplicates, so the second gets a different id and both rows stay. */
  method PostSameOrderTwice(db: Database, body: OrderRequest) returns (first: Reply, second: Reply)
    requires db.Valid() && ValidOrderRequest(body)
    modifies db
    ensures db.Valid()
    ensures first.payload.OrderCreatedBody? && second.payload.OrderCreatedBody?
    ensures first.payload.orderId != second.payload.orderId
    ensures |db.orders| == |old(db.orders)| + 2
    ensures db.orders[|db.orders| - 2].total == db.orders[|db.orders| - 1].total
  {
    first := PostOrders(db, body, NoFaults);
    assert db.orders[|db.orders| - 1] in db.orders;
    second := PostOrders(db, body, NoFaults);
  }

  /** `POST /register`: identical to `action=register` of the serverless handler. */
  method PostRegister(db: Database, body: RegisterRequest, salt: nat, insertFails: bool) returns (r: Reply)
    requires db.Valid()
    modifies db
    ensures db.Valid()
    ensures db.products == old(db.products) && db.orders == old(db.orders) && db.orderItems == old(db.orderItems)
    ensures !RegisterFieldsPresent(body) ==> unchanged(db) && r == Reply(400, ErrorBody("All fields are required"))
    ensures RegisterFieldsPresent(body) && insertFails ==> unchanged(db) && r == Reply(500, StorageErrorBody)
    ensures RegisterFieldsPresent(body) && !insertFails && EmailTaken(old(db.users), body.email.value) ==>
              unchanged(db) && r == Reply(400, ErrorBody("Email already in use"))
    ensures RegisterFieldsPresent(body) && !insertFails && !EmailTaken(old(db.users), body.email.value) ==>
              && r == Reply(200, UserRegisteredBody(old(db.nextUserId)))
              && db.users == old(db.users) + [UserRow(old(db.nextUserId), body.name.value, body.email.value,
                                                      Hash(body.password.value, salt), 0)]
    ensures r.status == 200 ==>
              PostLogin(db.users, LoginRequest(body.email, body.password), false)
                == Reply(200, LoginBody(r.payload.userId, None))
  {
    var outcome := Register(db, body, salt, insertFails);
    r := RegisterReply(outcome);
  }

  /** `POST /login`: the reply of a success carries the user id and no admin flag. */
  function PostLogin(users: seq<UserRow>, body: LoginRequest, queryFails: bool): (r: Reply)
    ensures r.status == 200 ==>
              && r.payload.LoginBody? && r.payload.isAdmin == None && body.password.Some?
              && exists u :: u in users && u.id == r.payload.userId && Some(u.email) == body.email &&
                             Verify(body.password.value, u.password)
    ensures r.status == 400 <==> !TruthyText(body.email) || !TruthyText(body.password)
    ensures r.status == 401 ==> r == Reply(401, ErrorBody("Invalid credentials"))
  {
    LoginReply(Login(users, body, queryFails), false)
  }

  /** Registration followed by login with the same credentials returns the registered id. */
  lemma RegisterThenLogin(users: seq<UserRow>, row: UserRow, password: string, salt: nat)
    requires EmailsUnique(users) && !EmailTaken(users, row.email)
    requires row.email != "" && password != "" && row.password == Hash(password, salt)
    ensures PostLogin(users + [row], LoginRequest(Some(row.email), Some(password)), false)
              == Reply(200, LoginBody(row.id, None))
  {
    LoginAfterRegistration(users, row, password, salt);
  }
}
