/** The SQLite database the server writes: the four tables of the schema
    (users, products, orders, order_items), each with its AUTOINCREMENT counter.
    Each method of `Database` is one SQL statement the handlers run. */
module Tables {
  import opened Common
  import opened Bcrypt

  /** `users`: `email` is UNIQUE; `password` holds the bcrypt digest; `isAdmin` is the
      stored admin flag (an SQLite integer, 0 for accounts made by registration). */
  datatype UserRow = UserRow(id: int, name: string, email: string, password: Digest, isAdmin: int)

  /** `products`; `price` is in cents. */
  datatype ProductRow = ProductRow(id: int, name: string, description: Option<string>,
                                   price: int, stock: int, imageUrl: Option<string>)

  /** `orders`; `total` is in cents. The timestamp column is not modelled. */
  datatype OrderRow = OrderRow(id: int, userId: int, total: int)

  /** `order_items`: no per-line price is stored. */
  datatype OrderItemRow = OrderItemRow(id: int, orderId: int, productId: int, quantity: int)

  /** Outcome of an INSERT: the new `lastID`, a UNIQUE-constraint error, or any other error. */
  datatype InsertResult = Inserted(id: int) | UniqueViolation | StorageError

  /** Outcome of `SELECT price FROM products WHERE id = ?`. */
  datatype PriceLookup = Found(price: int) | NotFound | LookupError

  /** AUTOINCREMENT ids: positive, increasing in insertion order, and below the next id to hand out. */
  predicate IdsIncreasing(ids: seq<int>, next: int)
  {
    0 < next &&
    (forall i :: 0 <= i < |ids| ==> 0 < ids[i] < next) &&
    (forall i, j :: 0 <= i < j < |ids| ==> ids[i] < ids[j])
  }

  function UserIds(users: seq<UserRow>): seq<int>
  {
    seq(|users|, i requires 0 <= i < |users| => users[i].id)
  }

  function ProductIds(products: seq<ProductRow>): seq<int>
  {
    seq(|products|, i requires 0 <= i < |products| => products[i].id)
  }

  function OrderIds(orders: seq<OrderRow>): seq<int>
  {
    seq(|orders|, i requires 0 <= i < |orders| => orders[i].id)
  }

  function OrderItemIds(rows: seq<OrderItemRow>): seq<int>
  {
    seq(|rows|, i requires 0 <= i < |rows| => rows[i].id)
  }

  /** The UNIQUE constraint on `users.email`. */
  predicate EmailsUnique(users: seq<UserRow>)
  {
    forall i, j :: 0 <= i < j < |users| ==> users[i].email != users[j].email
  }

  predicate ProductIdsUnique(products: seq<ProductRow>)
  {
    forall i, j :: 0 <= i < j < |products| ==> products[i].id != products[j].id
  }

  predicate EmailTaken(users: seq<UserRow>, email: string)
  {
    exists i :: 0 <= i < |users| && users[i].email == email
  }

  /** `SELECT * FROM products WHERE id = ?`: the first row with that id. */
  function FindProduct(products: seq<ProductRow>, id: int): (r: Option<ProductRow>)
    ensures r.Some? ==> r.value in products && r.value.id == id
    ensures r.None? <==> forall i :: 0 <= i < |products| ==> products[i].id != id
  {
    if products == [] then None
    else if products[0].id == id then Some(products[0])
    else FindProduct(products[1..], id)
  }

  /** `SELECT * FROM users WHERE email = ?`: the first row with that email. */
  function FindUserByEmail(users: seq<UserRow>, email: string): (r: Option<UserRow>)
    ensures r.Some? ==> r.value in users && r.value.email == email
    ensures r.None? <==> !EmailTaken(users, email)
  {
    if users == [] then None
    else if users[0].email == email then Some(users[0])
    else
      var r := FindUserByEmail(users[1..], email);
      assert EmailTaken(users, email) <==> EmailTaken(users[1..], email) by {
        if EmailTaken(users, email) {
          var i :| 0 <= i < |users| && users[i].email == email;
          assert users[1..][i - 1].email == email;
        }
        if EmailTaken(users[1..], email) {
          var i :| 0 <= i < |users[1..]| && users[1..][i].email == email;
          assert users[i + 1].email == email;
        }
      }
      r
  }

  /** With unique emails, the lookup finds the row that holds the email. */
  lemma {:induction false} FindUserUnique(users: seq<UserRow>, k: nat)
    requires EmailsUnique(users) && k < |users|
    ensures FindUserByEmail(users, users[k].email) == Some(users[k])
  {
    if k > 0 {
      assert users[0].email != users[k].email;
      assert users[1..][k - 1] == users[k];
      FindUserUnique(users[1..], k - 1);
    }
  }

  /** With unique ids, the lookup finds the row that holds the id. */
  lemma {:induction false} FindProductUnique(products: seq<ProductRow>, k: nat)
    requires ProductIdsUnique(products) && k < |products|
    ensures FindProduct(products, products[k].id) == Some(products[k])
  {
    if k > 0 {
      assert products[0].id != products[k].id;
      assert products[1..][k - 1] == products[k];
      FindProductUnique(products[1..], k - 1);
    }
  }

  lemma IncreasingIdsUnique(products: seq<ProductRow>, next: int)
    requires IdsIncreasing(ProductIds(products), next)
    ensures ProductIdsUnique(products)
  {
    forall i, j | 0 <= i < j < |products| ensures products[i].id != products[j].id {
      assert ProductIds(products)[i] < ProductIds(products)[j];
    }
  }

  class Database {
    var users: seq<UserRow>
    var products: seq<ProductRow>
    var orders: seq<OrderRow>
    var orderItems: seq<OrderItemRow>
    // the AUTOINCREMENT counter of each table: the id its next insert receives
    var nextUserId: int
    var nextProductId: int
    var nextOrderId: int
    var nextOrderItemId: int

    /** The schema's constraints: AUTOINCREMENT primary keys and the UNIQUE email. */
    ghost predicate Valid()
      reads this
    {
      IdsIncreasing(UserIds(users), nextUserId) &&
      IdsIncreasing(ProductIds(products), nextProductId) &&
      IdsIncreasing(OrderIds(orders), nextOrderId) &&
      IdsIncreasing(OrderItemIds(orderItems), nextOrderItemId) &&
      EmailsUnique(users)
    }

    /** `CREATE TABLE IF NOT EXISTS` on a fresh database file. */
    constructor ()
      ensures Valid()
      ensures users == [] && products == [] && orders == [] && orderItems == []
      ensures nextUserId == 1 && nextProductId == 1 && nextOrderId == 1 && nextOrderItemId == 1
    {
      users, products, orders, orderItems := [], [], [], [];
      nextUserId, nextProductId, nextOrderId, nextOrderItemId := 1, 1, 1, 1;
    }

    /** `INSERT INTO users (name, email, password) VALUES (?, ?, ?)`. `fails` is SQLite
        reporting some other error on this insert (a locked or read-only file, say); it
        takes precedence, and only without it does a taken email give the UNIQUE error. */
    method InsertUser(name: string, email: string, password: Digest, fails: bool) returns (r: InsertResult)
      requires Valid()
      modifies this
      ensures Valid()
      ensures products == old(products) && orders == old(orders) && orderItems == old(orderItems)
      ensures nextProductId == old(nextProductId) && nextOrderId == old(nextOrderId)
      ensures nextOrderItemId == old(nextOrderItemId)
      ensures fails ==> r == StorageError
      ensures !fails && EmailTaken(old(users), email) ==> r == UniqueViolation
      ensures r.Inserted? <==> !EmailTaken(old(users), email) && !fails
      ensures !r.Inserted? ==> unchanged(this)
      ensures r.Inserted? ==>
        r.id == old(nextUserId) &&
        users == old(users) + [UserRow(r.id, name, email, password, 0)] &&
        nextUserId == old(nextUserId) + 1
    {
      if fails {
        return StorageError;
      }
      if EmailTaken(users, email) {
        return UniqueViolation;
      }
      r := Inserted(nextUserId);
      var row := UserRow(nextUserId, name, email, password, 0);
      assert UserIds(users + [row]) == UserIds(users) + [row.id];
      users := users + [row];
      nextUserId := nextUserId + 1;
    }

    /** `INSERT INTO products (name, description, price, stock, image_url) VALUES (...)`:
        no uniqueness constraint besides the fresh id. */
    method InsertProduct(name: string, description: Option<string>, price: int, stock: int,
                         imageUrl: Option<string>, fails: bool) returns (r: InsertResult)
      requires Valid()
      modifies this
      ensures Valid()
      ensures users == old(users) && orders == old(orders) && orderItems == old(orderItems)
      ensures nextUserId == old(nextUserId) && nextOrderId == old(nextOrderId)
      ensures nextOrderItemId == old(nextOrderItemId)
      ensures r.Inserted? <==> !fails
      ensures fails ==> r == StorageError && unchanged(this)
      ensures !fails ==>
        r.id == old(nextProductId) &&
        products == old(products) + [ProductRow(r.id, name, description, price, stock, imageUrl)] &&
        nextProductId == old(nextProductId) + 1
    {
      if fails {
        return StorageError;
      }
      r := Inserted(nextProductId);
      var row := ProductRow(nextProductId, name, description, price, stock, imageUrl);
      assert ProductIds(products + [row]) == ProductIds(products) + [row.id];
      products := products + [row];
      nextProductId := nextProductId + 1;
    }

    /** `INSERT INTO orders (user_id, total) VALUES (?, ?)`. */
    method InsertOrder(userId: int, total: int, fails: bool) returns (r: InsertResult)
      requires Valid()
      modifies this
      ensures Valid()
      ensures users == old(users) && products == old(products) && orderItems == old(orderItems)
      ensures nextUserId == old(nextUserId) && nextProductId == old(nextProductId)
      ensures nextOrderItemId == old(nextOrderItemId)
      ensures r.Inserted? <==> !fails
      ensures fails ==> r == StorageError && unchanged(this)
      ensures !fails ==>
        r.id == old(nextOrderId) &&
        orders == old(orders) + [OrderRow(r.id, userId, total)] &&
        nextOrderId == old(nextOrderId) + 1
    {
      if fails {
        return StorageError;
      }
      r := Inserted(nextOrderId);
      var row := OrderRow(nextOrderId, userId, total);
      assert OrderIds(orders + [row]) == OrderIds(orders) + [row.id];
      orders := orders + [row];
      nextOrderId := nextOrderId + 1;
    }

    /** `stmt.run(orderId, product_id, quantity)` on the prepared
        `INSERT INTO order_items (order_id, product_id, quantity) VALUES (?, ?, ?)`. */
    method InsertOrderItem(orderId: int, productId: int, quantity: int, fails: bool) returns (r: InsertResult)
      requires Valid()
      modifies this
      ensures Valid()
      ensures users == old(users) && products == old(products) && orders == old(orders)
      ensures nextUserId == old(nextUserId) && nextProductId == old(nextProductId)
      ensures nextOrderId == old(nextOrderId)
      ensures r.Inserted? <==> !fails
      ensures fails ==> r == StorageError && unchanged(this)
      ensures !fails ==>
        r.id == old(nextOrderItemId) &&
        orderItems == old(orderItems) + [OrderItemRow(r.id, orderId, productId, quantity)] &&
        nextOrderItemId == old(nextOrderItemId) + 1
    {
      if fails {
        return StorageError;
      }
      r := Inserted(nextOrderItemId);
      var row := OrderItemRow(nextOrderItemId, orderId, productId, quantity);
      assert OrderItemIds(orderItems + [row]) == OrderItemIds(orderItems) + [row.id];
      orderItems := orderItems + [row];
      nextOrderItemId := nextOrderItemId + 1;
    }

    /** `SELECT price FROM products WHERE id = ?`. */
    method SelectPrice(productId: int, fails: bool) returns (r: PriceLookup)
      ensures fails ==> r == LookupError
      ensures !fails ==> match FindProduct(products, productId)
                         case Some(p) => r == Found(p.price)
                         case None => r == NotFound
    {
      if fails {
        return LookupError;
      }
      var p := FindProduct(products, productId);
      r := if p.Some? then Found(p.value.price) else NotFound;
    }
  }
}
