/** The Checkout page: the same looked-up total as the Cart page, the lines it
    displays, and `handleCheckout`, which posts the cart to `POST /orders` of the
    Express server and empties the cart only when that post succeeds. */
module CheckoutPage {
  import opened Common
  import opened Tables
  import opened Orders
  import opened Http
  import opened Server
  import opened CartModel

  /** `cart.map(item => ({product_id: item.product_id, quantity: item.quantity}))`. */
  function OrderItemsOf(cart: seq<CartItem>): (items: seq<LineRequest>)
    ensures |items| == |cart|
    ensures forall i :: 0 <= i < |cart| ==>
              items[i].productId == cart[i].productId && items[i].quantity == cart[i].quantity
    decreases |cart|
  {
    if cart == [] then []
    else
      var last := cart[|cart| - 1];
      OrderItemsOf(cart[..|cart| - 1]) + [LineRequest(last.productId, last.quantity)]
  }

  /** The lines the page renders: `product ? <line> : null` drops products missing from
      the price table. */
  function DisplayedItems(prices: map<int, int>, cart: seq<CartItem>): (r: seq<CartItem>)
    ensures forall x :: x in r <==> x in cart && x.productId in prices
    decreases |cart|
  {
    if cart == [] then []
    else
      var last := cart[|cart| - 1];
      DisplayedItems(prices, cart[..|cart| - 1]) + (if last.productId in prices then [last] else [])
  }

  /** A single cart line is shown once if its product is known, and not at all otherwise. */
  lemma DisplayedItemsOfLine(prices: map<int, int>, x: CartItem)
    ensures DisplayedItems(prices, [x]) == if x.productId in prices then [x] else []
  {
    assert [x][..0] == [];
  }

  /** The page renders in cart order: the lines shown for a concatenation are those shown
      for each part, one after the other. */
  lemma {:induction false} DisplayedItemsAppend(prices: map<int, int>, a: seq<CartItem>, b: seq<CartItem>)
    ensures DisplayedItems(prices, a + b) == DisplayedItems(prices, a) + DisplayedItems(prices, b)
    decreases |b|
  {
    if b == [] {
      assert a + b == a;
    } else {
      assert (a + b)[..|a + b| - 1] == a + b[..|b| - 1];
      DisplayedItemsAppend(prices, a, b[..|b| - 1]);
    }
  }

  /** Unknown products are left off the page and out of the total, but they are still
      submitted with the order. */
  lemma {:induction false} UnknownItemsHiddenButSubmitted(prices: map<int, int>, cart: seq<CartItem>)
    ensures LookupTotal(prices, cart) == LookupTotal(prices, DisplayedItems(prices, cart))
    ensures forall i :: 0 <= i < |cart| && cart[i].productId !in prices ==>
              cart[i] !in DisplayedItems(prices, cart) &&
              LineRequest(cart[i].productId, cart[i].quantity) in OrderItemsOf(cart)
    decreases |cart|
  {
    if cart != [] {
      var init, last := cart[..|cart| - 1], cart[|cart| - 1];
      UnknownItemsHiddenButSubmitted(prices, init);
      var shown := if last.productId in prices then [last] else [];
      LookupTotalAppend(prices, DisplayedItems(prices, init), shown);
      if shown != [] {
        assert shown[..0] == [];
      }
    }
    forall i | 0 <= i < |cart| && cart[i].productId !in prices
      ensures LineRequest(cart[i].productId, cart[i].quantity) in OrderItemsOf(cart)
    {
      assert OrderItemsOf(cart)[i] == LineRequest(cart[i].productId, cart[i].quantity);
    }
  }

  /** When the page's price table agrees with the products table on the products in the
      cart, the total shown is the total the server stores for the submitted items. */
  lemma {:induction false} CheckoutTotalMatchesServer(prices: map<int, int>, products: seq<ProductRow>, cart: seq<CartItem>)
    requires forall i :: 0 <= i < |cart| ==>
               (cart[i].productId in prices <==> FindProduct(products, cart[i].productId).Some?)
    requires forall i :: 0 <= i < |cart| && cart[i].productId in prices ==>
               prices[cart[i].productId] == FindProduct(products, cart[i].productId).value.price
    ensures LookupTotal(prices, cart) == OrderTotal(products, OrderItemsOf(cart), {})
    decreases |cart|
  {
    if cart != [] {
      var init := cart[..|cart| - 1];
      assert forall i :: 0 <= i < |init| ==> init[i] == cart[i];
      CheckoutTotalMatchesServer(prices, products, init);
      var items := OrderItemsOf(cart);
      assert items[..|items| - 1] == OrderItemsOf(init);
    }
  }

  /** `handleCheckout`: without a truthy `userId` nothing is sent; otherwise the cart's
      lines are posted, and the cart is emptied exactly when the server answers with
      success (`networkFails`: the post never reaches the server). */
  method HandleCheckout(userId: Option<int>, cart: seq<CartItem>, db: Database, faults: OrderFaults, networkFails: bool)
    returns (newCart: seq<CartItem>, placed: bool)
    requires db.Valid()
    modifies db
    ensures db.Valid()
    ensures !TruthyNumber(userId) || networkFails ==> !placed && unchanged(db)
    ensures placed <==> TruthyNumber(userId) && !networkFails && |cart| > 0 && !faults.headerInsertFails
    ensures newCart == if placed then [] else cart
    ensures db.users == old(db.users) && db.products == old(db.products)
    ensures !placed ==> unchanged(db)
    ensures placed ==>
              && db.orders == old(db.orders) + [OrderRow(old(db.nextOrderId), userId.value,
                                                         OrderTotal(old(db.products), OrderItemsOf(cart), faults.lookupErrors))]
              && |old(db.orderItems)| <= |db.orderItems|
              && db.orderItems[..|old(db.orderItems)|] == old(db.orderItems)
              && LinesOf(db.orderItems[|old(db.orderItems)|..]) == KeptLines(OrderItemsOf(cart), faults.lineInsertErrors)
              && (forall k :: |old(db.orderItems)| <= k < |db.orderItems| ==> db.orderItems[k].orderId == old(db.nextOrderId))
  {
    if !TruthyNumber(userId) {
      return cart, false;
    }
    var orderItems := OrderItemsOf(cart);
    if networkFails {
      return cart, false;
    }
    var reply := PostOrders(db, OrderRequest(userId, Some(orderItems)), faults);
    placed := reply.status == 200;
    newCart := if placed then [] else cart;
  }
}
