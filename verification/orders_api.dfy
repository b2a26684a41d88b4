/** The serverless handler of server/api/orders.js: CORS first, then the order
    workflow for POST and 405 for every other method. */
module OrdersApi {
  import opened Common
  import opened Tables
  import opened Orders
  import opened Http
  import opened Middleware

  /** The status and body sent for each outcome of the workflow. */
  function OrderReply(outcome: OrderOutcome): (r: Reply)
    ensures r.status == 200 <==> outcome.OrderCreated?
    ensures r.status == 400 <==> outcome == InvalidOrderData
    ensures outcome.OrderCreated? ==> r.payload == OrderCreatedBody(outcome.orderId)
    ensures outcome == InvalidOrderData ==> r.payload == ErrorBody("Invalid order data")
    ensures outcome == OrderInsertFailed ==> r == Reply(500, StorageErrorBody)
  {
    match outcome
    case InvalidOrderData => Reply(400, ErrorBody("Invalid order data"))
    case OrderInsertFailed => Reply(500, StorageErrorBody)
    case OrderCreated(id) => Reply(200, OrderCreatedBody(id))
  }

  method Handle(db: Database, req: Request<OrderRequest>, faults: OrderFaults, res: Response)
    requires db.Valid()
    modifies db, res
    ensures db.Valid()
    ensures db.users == old(db.users) && db.products == old(db.products)
    ensures res.headers == old(res.headers) + CorsHeaders(req.origin)
    ensures req.verb == Options ==>
              unchanged(db) && res.statusCode == 204 && res.ended && res.body == old(res.body)
    ensures req.verb != Options && req.verb != Post ==>
              unchanged(db) && res.statusCode == 405 && res.body == Some(ErrorBody("Method not allowed"))
    ensures req.verb == Post && !ValidOrderRequest(req.body) ==>
              unchanged(db) && res.statusCode == 400 && res.body == Some(ErrorBody("Invalid order data"))
    ensures req.verb == Post && ValidOrderRequest(req.body) && faults.headerInsertFails ==>
              unchanged(db) && res.statusCode == 500 && res.body == Some(StorageErrorBody)
    ensures req.verb == Post && ValidOrderRequest(req.body) && !faults.headerInsertFails ==>
              && res.statusCode == 200
              && res.body == Some(OrderCreatedBody(old(db.nextOrderId)))
              && db.orders == old(db.orders) + [OrderRow(old(db.nextOrderId), req.body.userId.value,
                                                         OrderTotal(old(db.products), req.body.items.value, faults.lookupErrors))]
              && |old(db.orderItems)| <= |db.orderItems|
              && db.orderItems[..|old(db.orderItems)|] == old(db.orderItems)
              && LinesOf(db.orderItems[|old(db.orderItems)|..]) == KeptLines(req.body.items.value, faults.lineInsertErrors)
              && (forall k :: |old(db.orderItems)| <= k < |db.orderItems| ==> db.orderItems[k].orderId == old(db.nextOrderId))
  {
    var handled := CorsMiddleware(req, res);
    if handled {
      return;
    }
    if req.verb == Post {
      var outcome := PlaceOrder(db, req.body, faults);
      res.Send(OrderReply(outcome));
    } else {
      res.Send(MethodNotAllowed);
    }
  }
}
