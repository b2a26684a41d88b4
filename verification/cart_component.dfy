/** The `Cart` component: it renders items that already carry their price, shows
    each line's subtotal and the cart total, and forwards quantity changes to its
    parent only when the new quantity is not negative. */
module CartComponent {
  import opened Common

  /** One entry of the `items` prop; `name` and `description` are display-only. */
  datatype LineItem = LineItem(id: int, price: int, quantity: int)

  /** The call `onUpdateQuantity(id, quantity)` made on the parent. */
  datatype QuantityUpdate = QuantityUpdate(id: int, quantity: int)

  /** A rendered line: the item id and its subtotal. */
  datatype RenderedLine = RenderedLine(id: int, subtotal: int)

  datatype View = EmptyCart | Listing(lines: seq<RenderedLine>, total: int)

  function Subtotal(item: LineItem): int
  {
    item.price * item.quantity
  }

  /** `items.reduce((sum, item) => sum + item.price * item.quantity, 0)`. */
  function ItemsTotal(items: seq<LineItem>): int
    decreases |items|
  {
    if items == [] then 0 else ItemsTotal(items[..|items| - 1]) + Subtotal(items[|items| - 1])
  }

  /** Sum of the subtotals shown on the rendered lines. */
  function LinesTotal(lines: seq<RenderedLine>): int
    decreases |lines|
  {
    if lines == [] then 0 else LinesTotal(lines[..|lines| - 1]) + lines[|lines| - 1].subtotal
  }

  /** The total is additive over concatenation. */
  lemma {:induction false} ItemsTotalAppend(a: seq<LineItem>, b: seq<LineItem>)
    ensures ItemsTotal(a + b) == ItemsTotal(a) + ItemsTotal(b)
    decreases |b|
  {
    if b == [] {
      assert a + b == a;
    } else {
      assert (a + b)[..|a + b| - 1] == a + b[..|b| - 1];
      ItemsTotalAppend(a, b[..|b| - 1]);
    }
  }

  /** With non-negative prices and quantities the total is never negative. */
  lemma {:induction false} ItemsTotalNonNegative(items: seq<LineItem>)
    requires forall i :: 0 <= i < |items| ==> items[i].price >= 0 && items[i].quantity >= 0
    ensures ItemsTotal(items) >= 0
    decreases |items|
  {
    if items != [] {
      ItemsTotalNonNegative(items[..|items| - 1]);
    }
  }

  /** `handleQuantityChange(item, newQuantity)`: the parent is called only for a
      non-negative quantity, and then with the item's id and that quantity. */
  function HandleQuantityChange(item: LineItem, newQuantity: int): (r: Option<QuantityUpdate>)
    ensures r.Some? <==> newQuantity >= 0
    ensures r.Some? ==> r.value.id == item.id && r.value.quantity == newQuantity
  {
    if newQuantity >= 0 then Some(QuantityUpdate(item.id, newQuantity)) else None
  }

  /** The `-` button: a line at quantity 0 (or below) asks for nothing, any other line
      asks for one unit less, which is never negative. */
  function Decrement(item: LineItem): (r: Option<QuantityUpdate>)
    ensures r.Some? <==> item.quantity >= 1
    ensures r.Some? ==> r.value == QuantityUpdate(item.id, item.quantity - 1) && r.value.quantity >= 0
  {
    HandleQuantityChange(item, item.quantity - 1)
  }

  /** The `+` button: it asks for exactly one unit more whenever that is not negative, so a
      line with a non-negative quantity always goes through. */
  function Increment(item: LineItem): (r: Option<QuantityUpdate>)
    ensures r.Some? <==> item.quantity >= -1
    ensures r.Some? ==> r.value == QuantityUpdate(item.id, item.quantity + 1) && r.value.quantity >= 0
    ensures item.quantity >= 0 ==> r.Some?
  {
    HandleQuantityChange(item, item.quantity + 1)
  }

  /** The component's output: the empty-cart message for no items, otherwise one line per
      item, in order, with its subtotal, and the total. */
  function Render(items: seq<LineItem>): (v: View)
    ensures v.EmptyCart? <==> |items| == 0
    ensures v.Listing? ==>
              && |v.lines| == |items|
              && (forall i :: 0 <= i < |items| ==>
                    v.lines[i] == RenderedLine(items[i].id, items[i].price * items[i].quantity))
              && v.total == ItemsTotal(items)
  {
    if |items| == 0 then EmptyCart
    else Listing(seq(|items|, i requires 0 <= i < |items| => RenderedLine(items[i].id, Subtotal(items[i]))),
                 ItemsTotal(items))
  }

  /** The total shown below the list is the sum of the subtotals shown on the lines. */
  lemma RenderedTotalSumsLines(items: seq<LineItem>)
    requires |items| > 0
    ensures Render(items).Listing? && LinesTotal(Render(items).lines) == Render(items).total
  {
    LinesMatchItems(items, Render(items).lines);
  }

  lemma {:induction false} LinesMatchItems(items: seq<LineItem>, lines: seq<RenderedLine>)
    requires |lines| == |items|
    requires forall i :: 0 <= i < |items| ==> lines[i].subtotal == Subtotal(items[i])
    ensures LinesTotal(lines) == ItemsTotal(items)
    decreases |items|
  {
    if items != [] {
      LinesMatchItems(items[..|items| - 1], lines[..|lines| - 1]);
    }
  }
}
