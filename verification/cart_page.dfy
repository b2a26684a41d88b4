/** The Cart page: `removeFromCart` filters out every line of a product, and the
    page total prices each line from `productData`, unknown products at 0. */
module CartPage {
  import opened CartModel

  /** `cart.filter(item => item.product_id !== id)`. */
  function RemoveFromCart(cart: seq<CartItem>, id: int): (r: seq<CartItem>)
    ensures forall x :: x in r <==> x in cart && x.productId != id
    ensures |r| == |cart| - Occurrences(cart, id)
    decreases |cart|
  {
    if cart == [] then []
    else
      var last := cart[|cart| - 1];
      RemoveFromCart(cart[..|cart| - 1], id) + (if last.productId == id then [] else [last])
  }

  /** Removal works line by line, so it keeps the surviving lines in their order. */
  lemma {:induction false} RemoveFromCartAppend(a: seq<CartItem>, b: seq<CartItem>, id: int)
    ensures RemoveFromCart(a + b, id) == RemoveFromCart(a, id) + RemoveFromCart(b, id)
    decreases |b|
  {
    if b == [] {
      assert a + b == a;
    } else {
      assert (a + b)[..|a + b| - 1] == a + b[..|b| - 1];
      RemoveFromCartAppend(a, b[..|b| - 1], id);
    }
  }

  /** Removing the same product twice is removing it once. */
  lemma {:induction false} RemoveFromCartIdempotent(cart: seq<CartItem>, id: int)
    ensures RemoveFromCart(RemoveFromCart(cart, id), id) == RemoveFromCart(cart, id)
    decreases |cart|
  {
    if cart != [] {
      var init, last := cart[..|cart| - 1], cart[|cart| - 1];
      var kept := if last.productId == id then [] else [last];
      RemoveFromCartIdempotent(init, id);
      RemoveFromCartAppend(RemoveFromCart(init, id), kept, id);
      if kept != [] {
        assert kept[..0] == [];
      }
    }
  }

  /** The page total of the empty cart is 0, and after `removeFromCart(id)` the total no
      longer depends on `id`'s price, nor on whether `id` is in the table at all. */
  lemma RemovedProductLeavesTotal(prices: map<int, int>, cart: seq<CartItem>, id: int, price: int)
    ensures LookupTotal(prices, []) == 0
    ensures LookupTotal(prices[id := price], RemoveFromCart(cart, id)) == LookupTotal(prices, RemoveFromCart(cart, id))
    ensures LookupTotal(prices - {id}, RemoveFromCart(cart, id)) == LookupTotal(prices, RemoveFromCart(cart, id))
  {
    var r := RemoveFromCart(cart, id);
    assert forall i :: 0 <= i < |r| ==> r[i].productId != id by {
      forall i | 0 <= i < |r| ensures r[i].productId != id {
        assert r[i] in r;
      }
    }
    LookupTotalReadsCartIds(prices[id := price], prices, r);
    LookupTotalReadsCartIds(prices - {id}, prices, r);
  }

  /** The total splits into what `removeFromCart(id)` keeps and the lines of `id`. */
  lemma {:induction false} TotalSplitsAtProduct(prices: map<int, int>, cart: seq<CartItem>, id: int)
    ensures LookupTotal(prices, cart) ==
              LookupTotal(prices, RemoveFromCart(cart, id)) + (if id in prices then prices[id] * QuantityOf(cart, id) else 0)
    decreases |cart|
  {
    if cart != [] {
      var init, last := cart[..|cart| - 1], cart[|cart| - 1];
      TotalSplitsAtProduct(prices, init, id);
      var kept := if last.productId == id then [] else [last];
      LookupTotalAppend(prices, RemoveFromCart(init, id), kept);
      assert LookupTotal(prices, kept) == if last.productId == id then 0 else LineTotal(prices, last) by {
        if kept != [] {
          assert kept[..0] == [];
        }
      }
      if id in prices {
        ScaleStep(prices[id], QuantityOf(init, id), if last.productId == id then last.quantity else 0);
      }
    }
  }

  lemma ScaleStep(p: int, q: int, d: int)
    ensures p * (q + d) == p * q + p * d
  {
  }
}
