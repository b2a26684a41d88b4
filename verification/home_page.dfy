/** `addToCart` of the Home page: a product already in the cart has its quantity
    raised by one in place; any other product is appended with quantity 1. */
module HomePage {
  import opened CartModel

  /** `cart.map(item => item.product_id === id ? {...item, quantity: item.quantity + 1} : item)`. */
  function IncrementQuantity(cart: seq<CartItem>, id: int): (r: seq<CartItem>)
    ensures |r| == |cart|
    ensures forall i :: 0 <= i < |cart| ==> r[i].productId == cart[i].productId
    ensures forall i :: 0 <= i < |cart| && cart[i].productId != id ==> r[i] == cart[i]
    ensures forall i :: 0 <= i < |cart| && cart[i].productId == id ==> r[i].quantity == cart[i].quantity + 1
    decreases |cart|
  {
    if cart == [] then []
    else
      var last := cart[|cart| - 1];
      IncrementQuantity(cart[..|cart| - 1], id)
        + [if last.productId == id then last.(quantity := last.quantity + 1) else last]
  }

  /** `addToCart(product)` with `product.id == id`: the cart handed to `setCart`. */
  function AddToCart(cart: seq<CartItem>, id: int): (r: seq<CartItem>)
    ensures !InCart(cart, id) ==> r == cart + [CartItem(id, 1)]
    ensures InCart(cart, id) ==>
              && |r| == |cart|
              && (forall i :: 0 <= i < |cart| ==> r[i].productId == cart[i].productId)
              && (forall i :: 0 <= i < |cart| && cart[i].productId != id ==> r[i] == cart[i])
              && (forall i :: 0 <= i < |cart| && cart[i].productId == id ==> r[i].quantity == cart[i].quantity + 1)
    ensures InCart(r, id)
  {
    if InCart(cart, id) then
      var r := IncrementQuantity(cart, id);
      var i :| 0 <= i < |cart| && cart[i].productId == id;
      assert r[i].productId == id;
      r
    else
      var r := cart + [CartItem(id, 1)];
      assert r[|cart|].productId == id;
      r
  }

  /** Raising every line of `id` adds one unit per such line to the cart's size. */
  lemma {:induction false} IncrementTotalQuantity(cart: seq<CartItem>, id: int)
    ensures TotalQuantity(IncrementQuantity(cart, id)) == TotalQuantity(cart) + Occurrences(cart, id)
    ensures QuantityOf(IncrementQuantity(cart, id), id) == QuantityOf(cart, id) + Occurrences(cart, id)
    ensures forall j :: j != id ==> QuantityOf(IncrementQuantity(cart, id), j) == QuantityOf(cart, j)
    decreases |cart|
  {
    if cart != [] {
      var init := cart[..|cart| - 1];
      var r := IncrementQuantity(cart, id);
      assert r[..|r| - 1] == IncrementQuantity(init, id);
      IncrementTotalQuantity(init, id);
    }
  }

  /** A product with a line in a cart of distinct products has exactly one line. */
  lemma {:induction false} OccursOnce(cart: seq<CartItem>, id: int)
    requires UniqueIds(cart) && InCart(cart, id)
    ensures Occurrences(cart, id) == 1
    decreases |cart|
  {
    var init := cart[..|cart| - 1];
    assert UniqueIds(init);
    if cart[|cart| - 1].productId == id {
      NoOccurrences(init, id);
    } else {
      var i :| 0 <= i < |cart| && cart[i].productId == id;
      assert init[i].productId == id;
      OccursOnce(init, id);
    }
  }

  lemma {:induction false} NoOccurrences(cart: seq<CartItem>, id: int)
    requires !InCart(cart, id)
    ensures Occurrences(cart, id) == 0 && QuantityOf(cart, id) == 0
    decreases |cart|
  {
    if cart != [] {
      var init := cart[..|cart| - 1];
      NoOccurrences(init, id);
    }
  }

  /** On a cart of distinct products, adding one product raises its quantity by exactly 1,
      leaves every other product's quantity alone, and so raises the total count by 1. */
  lemma AddToCartQuantities(cart: seq<CartItem>, id: int)
    requires UniqueIds(cart)
    ensures TotalQuantity(AddToCart(cart, id)) == TotalQuantity(cart) + 1
    ensures QuantityOf(AddToCart(cart, id), id) == QuantityOf(cart, id) + 1
    ensures forall j :: j != id ==> QuantityOf(AddToCart(cart, id), j) == QuantityOf(cart, j)
  {
    var r := AddToCart(cart, id);
    if InCart(cart, id) {
      IncrementTotalQuantity(cart, id);
      OccursOnce(cart, id);
    } else {
      assert r[..|r| - 1] == cart;
    }
  }

  /** `addToCart` keeps the products of the cart distinct. */
  lemma AddToCartKeepsUnique(cart: seq<CartItem>, id: int)
    requires UniqueIds(cart)
    ensures UniqueIds(AddToCart(cart, id))
  {
    var r := AddToCart(cart, id);
    if !InCart(cart, id) {
      forall i, j | 0 <= i < j < |r| ensures r[i].productId != r[j].productId {
        if j == |cart| {
          assert r[i] == cart[i];
        }
      }
    }
  }
}
