/** The client's cart: an array of `{product_id, quantity}` held in React state,
    and the price table the Cart and Checkout pages look products up in. */
module CartModel {

  datatype CartItem = CartItem(productId: int, quantity: int)

  /** The static `productData` of the Cart and Checkout pages: product id to price in cents
      (19.99, 29.99 and 9.99); names are display-only and left out. */
  const ProductData: map<int, int> := map[1 := 1999, 2 := 2999, 3 := 999]

  /** `cart.find(item => item.product_id === id)` is truthy: some line carries the id. */
  predicate InCart(cart: seq<CartItem>, id: int)
  {
    exists i :: 0 <= i < |cart| && cart[i].productId == id
  }

  /** No product appears on two lines. */
  predicate UniqueIds(cart: seq<CartItem>)
  {
    forall i, j :: 0 <= i < j < |cart| ==> cart[i].productId != cart[j].productId
  }

  /** Sum of all quantities. */
  function TotalQuantity(cart: seq<CartItem>): int
    decreases |cart|
  {
    if cart == [] then 0 else TotalQuantity(cart[..|cart| - 1]) + cart[|cart| - 1].quantity
  }

  /** Sum of the quantities on lines for product `id`. */
  function QuantityOf(cart: seq<CartItem>, id: int): int
    decreases |cart|
  {
    if cart == [] then 0
    else QuantityOf(cart[..|cart| - 1], id) + (if cart[|cart| - 1].productId == id then cart[|cart| - 1].quantity else 0)
  }

  /** Number of lines for product `id`. */
  function Occurrences(cart: seq<CartItem>, id: int): nat
    decreases |cart|
  {
    if cart == [] then 0
    else Occurrences(cart[..|cart| - 1], id) + (if cart[|cart| - 1].productId == id then 1 else 0)
  }

  /** What one line adds to the total: `price * quantity` when its product is in the
      table, 0 otherwise. */
  function LineTotal(prices: map<int, int>, item: CartItem): int
  {
    if item.productId in prices then prices[item.productId] * item.quantity else 0
  }

  /** `cart.reduce((sum, item) => sum + (product ? product.price * item.quantity : 0), 0)`. */
  function LookupTotal(prices: map<int, int>, cart: seq<CartItem>): int
    decreases |cart|
  {
    if cart == [] then 0 else LookupTotal(prices, cart[..|cart| - 1]) + LineTotal(prices, cart[|cart| - 1])
  }

  /** The total is additive over concatenation. */
  lemma {:induction false} LookupTotalAppend(prices: map<int, int>, a: seq<CartItem>, b: seq<CartItem>)
    ensures LookupTotal(prices, a + b) == LookupTotal(prices, a) + LookupTotal(prices, b)
    decreases |b|
  {
    if b == [] {
      assert a + b == a;
    } else {
      assert (a + b)[..|a + b| - 1] == a + b[..|b| - 1];
      assert (a + b)[|a + b| - 1] == b[|b| - 1];
      LookupTotalAppend(prices, a, b[..|b| - 1]);
    }
  }

  /** The total reads the price table only at the products in the cart. */
  lemma {:induction false} LookupTotalReadsCartIds(p: map<int, int>, q: map<int, int>, cart: seq<CartItem>)
    requires forall i :: 0 <= i < |cart| ==> LineTotal(p, cart[i]) == LineTotal(q, cart[i])
    ensures LookupTotal(p, cart) == LookupTotal(q, cart)
    decreases |cart|
  {
    if cart != [] {
      var init := cart[..|cart| - 1];
      assert forall i :: 0 <= i < |init| ==> init[i] == cart[i];
      LookupTotalReadsCartIds(p, q, init);
      assert LineTotal(p, cart[|cart| - 1]) == LineTotal(q, cart[|cart| - 1]);
    }
  }

  /** On the pages' own table: two units of product 1 and one of product 3 cost
      2 * 19.99 + 9.99, and five units of product 4, which the table lacks, add nothing. */
  lemma {:induction false} ProductDataTotal()
    ensures LookupTotal(ProductData, [CartItem(1, 2), CartItem(4, 5), CartItem(3, 1)]) == 2 * 1999 + 999
    ensures LookupTotal(ProductData, [CartItem(4, 5)]) == 0
  {
    var cart := [CartItem(1, 2), CartItem(4, 5), CartItem(3, 1)];
    assert cart[..2] == [CartItem(1, 2), CartItem(4, 5)];
    assert cart[..2][..1] == [CartItem(1, 2)];
    assert [CartItem(1, 2)][..0] == [];
    assert [CartItem(4, 5)][..0] == [];
    assert 4 !in ProductData;
  }
}
