/** The order-placement workflow of `POST /orders` (server/api/orders.js, and the
    identical route in server/index.js): validate `{user_id, items}`, price every
    line from the products table (a missing product or a failed lookup prices at 0),
    sum the costs, insert the `orders` row and then one `order_items` row per line. */
module Orders {
  import opened Common
  import opened Tables

  /** One requested line `{product_id, quantity}`. */
  datatype LineRequest = LineRequest(productId: int, quantity: int)

  /** The request body `{user_id, items}`; `items == None` when it is not an array. */
  datatype OrderRequest = OrderRequest(userId: Option<int>, items: Option<seq<LineRequest>>)

  /** What the database does on its own during one placement: the lines (by position)
      whose price lookup errors, whether the `orders` insert errors, and the lines
      whose `order_items` insert errors (those errors go unchecked). */
  datatype OrderFaults = OrderFaults(lookupErrors: set<nat>, headerInsertFails: bool, lineInsertErrors: set<nat>)

  const NoFaults := OrderFaults({}, false, {})

  datatype OrderOutcome = InvalidOrderData | OrderInsertFailed | OrderCreated(orderId: int)

  /** `user_id` truthy, `items` an array, and `items` not empty. */
  predicate ValidOrderRequest(req: OrderRequest)
  {
    TruthyNumber(req.userId) && req.items.Some? && |req.items.value| > 0
  }

  /** `getPrice`: `price * quantity` of a product found in the table, 0 when the
      lookup errors or finds no row. */
  function LineCost(products: seq<ProductRow>, line: LineRequest, lookupFailed: bool): int
  {
    if lookupFailed then 0
    else match FindProduct(products, line.productId)
      case Some(p) => p.price * line.quantity
      case None => 0
  }

  /** The total accumulated by `total += cost`, one line after another; line `k`'s
      lookup errors when `k in lookupErrors`. */
  function OrderTotal(products: seq<ProductRow>, items: seq<LineRequest>, lookupErrors: set<nat>): int
    decreases |items|
  {
    if items == [] then 0
    else OrderTotal(products, items[..|items| - 1], lookupErrors)
         + LineCost(products, items[|items| - 1], |items| - 1 in lookupErrors)
  }

  /** The lines whose `order_items` insert goes through, in request order. */
  function KeptLines(items: seq<LineRequest>, insertErrors: set<nat>): seq<LineRequest>
    decreases |items|
  {
    if items == [] then []
    else KeptLines(items[..|items| - 1], insertErrors)
         + (if |items| - 1 in insertErrors then [] else [items[|items| - 1]])
  }

  /** The `(product_id, quantity)` columns of `order_items` rows, in table order. */
  function LinesOf(rows: seq<OrderItemRow>): (lines: seq<LineRequest>)
    ensures |lines| == |rows|
    ensures forall k :: 0 <= k < |rows| ==> lines[k] == LineRequest(rows[k].productId, rows[k].quantity)
  {
    seq(|rows|, k requires 0 <= k < |rows| => LineRequest(rows[k].productId, rows[k].quantity))
  }

  /** A line contributes `price * quantity` of its product's row when the lookup succeeds,
      and 0 when the product is not in the table or the lookup errors. */
  lemma LineCostFromTable(products: seq<ProductRow>, line: LineRequest, lookupFailed: bool)
    requires ProductIdsUnique(products)
    ensures lookupFailed ==> LineCost(products, line, lookupFailed) == 0
    ensures (forall p :: p in products ==> p.id != line.productId) ==> LineCost(products, line, lookupFailed) == 0
    ensures forall p :: p in products && p.id == line.productId && !lookupFailed ==>
              LineCost(products, line, lookupFailed) == p.price * line.quantity
  {
    forall p | p in products && p.id == line.productId && !lookupFailed
      ensures LineCost(products, line, lookupFailed) == p.price * line.quantity
    {
      var k :| 0 <= k < |products| && products[k] == p;
      FindProductUnique(products, k);
    }
    if forall p :: p in products ==> p.id != line.productId {
      assert forall i :: 0 <= i < |products| ==> products[i].id != line.productId by {
        forall i | 0 <= i < |products| ensures products[i].id != line.productId {
          assert products[i] in products;
        }
      }
    }
  }

  /** Totals add up over concatenated requests: every line counts, duplicates included. */
  lemma {:induction false} OrderTotalAppend(products: seq<ProductRow>, a: seq<LineRequest>, b: seq<LineRequest>)
    ensures OrderTotal(products, a + b, {}) == OrderTotal(products, a, {}) + OrderTotal(products, b, {})
    decreases |b|
  {
    if b == [] {
      assert a + b == a;
    } else {
      var b' := b[..|b| - 1];
      assert (a + b)[..|a + b| - 1] == a + b';
      assert (a + b)[|a + b| - 1] == b[|b| - 1];
      OrderTotalAppend(products, a, b');
    }
  }

  /** Lines whose product is missing from the table can be dropped without changing the
      total: only known products are priced, at `price * quantity`. */
  function KnownLines(products: seq<ProductRow>, items: seq<LineRequest>): (r: seq<LineRequest>)
    ensures forall l :: l in r <==> l in items && FindProduct(products, l.productId).Some?
    decreases |items|
  {
    if items == [] then []
    else
      var last := items[|items| - 1];
      KnownLines(products, items[..|items| - 1])
        + (if FindProduct(products, last.productId).Some? then [last] else [])
  }

  lemma {:induction false} OrderTotalOfKnownLines(products: seq<ProductRow>, items: seq<LineRequest>)
    ensures OrderTotal(products, items, {}) == OrderTotal(products, KnownLines(products, items), {})
    decreases |items|
  {
    if items != [] {
      var init, last := items[..|items| - 1], items[|items| - 1];
      OrderTotalOfKnownLines(products, init);
      var known := if FindProduct(products, last.productId).Some? then [last] else [];
      OrderTotalAppend(products, KnownLines(products, init), known);
      if known == [] {
        assert OrderTotal(products, known, {}) == 0;
      } else {
        assert known[..0] == [];
      }
    }
  }

  lemma {:induction false} KeptLinesWithoutErrors(items: seq<LineRequest>)
    ensures KeptLines(items, {}) == items
    decreases |items|
  {
    if items != [] {
      KeptLinesWithoutErrors(items[..|items| - 1]);
    }
  }

  /** The pricing loop: one `SELECT price` per line, in request order, every line
      priced before the header is written (`pricesFetched === items.length`). */
  method PriceLines(db: Database, items: seq<LineRequest>, lookupErrors: set<nat>) returns (total: int)
    requires db.Valid()
    ensures total == OrderTotal(db.products, items, lookupErrors)
  {
    total := 0;
    var pricesFetched := 0;
    while pricesFetched < |items|
      invariant 0 <= pricesFetched <= |items|
      invariant total == OrderTotal(db.products, items[..pricesFetched], lookupErrors)
    {
      var line := items[pricesFetched];
      var lookup := db.SelectPrice(line.productId, pricesFetched in lookupErrors);
      var cost := if lookup.Found? then lookup.price * line.quantity else 0;
      assert items[..pricesFetched + 1][..pricesFetched] == items[..pricesFetched];
      total := total + cost;
      pricesFetched := pricesFetched + 1;
    }
    assert items[..|items|] == items;
  }

  /** The `order_items` loop: one insert per line, in request order, each under
      `orderId`; a failing insert (line `n in insertErrors`) is skipped unchecked. */
  method InsertLines(db: Database, orderId: int, items: seq<LineRequest>, insertErrors: set<nat>)
    requires db.Valid()
    modifies db
    ensures db.Valid()
    ensures db.users == old(db.users) && db.products == old(db.products) && db.orders == old(db.orders)
    ensures |old(db.orderItems)| <= |db.orderItems| && db.orderItems[..|old(db.orderItems)|] == old(db.orderItems)
    ensures LinesOf(db.orderItems[|old(db.orderItems)|..]) == KeptLines(items, insertErrors)
    ensures forall k :: |old(db.orderItems)| <= k < |db.orderItems| ==> db.orderItems[k].orderId == orderId
  {
    ghost var added: seq<OrderItemRow> := [];
    var n := 0;
    while n < |items|
      invariant 0 <= n <= |items|
      invariant db.Valid()
      invariant db.users == old(db.users) && db.products == old(db.products) && db.orders == old(db.orders)
      invariant db.orderItems == old(db.orderItems) + added
      invariant LinesOf(added) == KeptLines(items[..n], insertErrors)
      invariant forall k :: 0 <= k < |added| ==> added[k].orderId == orderId
    {
      var r := db.InsertOrderItem(orderId, items[n].productId, items[n].quantity, n in insertErrors);
      assert items[..n + 1][..n] == items[..n];
      if r.Inserted? {
        added := added + [OrderItemRow(r.id, orderId, items[n].productId, items[n].quantity)];
      }
      n := n + 1;
    }
    assert items[..|items|] == items;
    assert db.orderItems[|old(db.orderItems)|..] == added;
  }

  /** The handler's POST branch. On success the new `orders` row carries the request's
      `user_id` and the total of every line, priced before the row is written; then the
      request's lines are appended to `order_items` in order, each with the new id. */
  method PlaceOrder(db: Database, req: OrderRequest, faults: OrderFaults) returns (outcome: OrderOutcome)
    requires db.Valid()
    modifies db
    ensures db.Valid()
    ensures db.users == old(db.users) && db.products == old(db.products)
    ensures !ValidOrderRequest(req) ==> outcome == InvalidOrderData && unchanged(db)
    ensures ValidOrderRequest(req) && faults.headerInsertFails ==> outcome == OrderInsertFailed && unchanged(db)
    ensures ValidOrderRequest(req) && !faults.headerInsertFails ==>
      var id := old(db.nextOrderId);
      var base := |old(db.orderItems)|;
      && outcome == OrderCreated(id)
      && (forall o :: o in old(db.orders) ==> o.id != id)
      && db.orders == old(db.orders) + [OrderRow(id, req.userId.value,
                                                 OrderTotal(old(db.products), req.items.value, faults.lookupErrors))]
      && base <= |db.orderItems|
      && db.orderItems[..base] == old(db.orderItems)
      && LinesOf(db.orderItems[base..]) == KeptLines(req.items.value, faults.lineInsertErrors)
      && (forall k :: base <= k < |db.orderItems| ==> db.orderItems[k].orderId == id)
  {
    if !ValidOrderRequest(req) {
      return InvalidOrderData;
    }
    var items := req.items.value;
    var total := PriceLines(db, items, faults.lookupErrors);
    var header := db.InsertOrder(req.userId.value, total, faults.headerInsertFails);
    if header.StorageError? {
      return OrderInsertFailed;
    }
    var orderId := header.id;
    assert forall o :: o in old(db.orders) ==> o.id != orderId by {
      forall o | o in old(db.orders) ensures o.id != orderId {
        var k :| 0 <= k < |old(db.orders)| && old(db.orders)[k] == o;
        assert OrderIds(old(db.orders))[k] == o.id;
      }
    }
    outcome := OrderCreated(orderId);
    InsertLines(db, orderId, items, faults.lineInsertErrors);
  }
}
