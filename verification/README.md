# flashsavvy storefront — a verified model of its core

flashsavvy is a small storefront: an Express/SQLite server and serverless
handlers behind a React client. This project models the parts of it whose
behaviour can be stated exactly, and proves properties of that model:

- **order placement**: `POST /orders` in `server/api/orders.js` and the
  identical route in `server/index.js`. The request is validated, each line
  is priced from the `products` table (a missing product or a failed lookup
  costs 0), and the costs are summed. Then one `orders` row is inserted,
  followed by one `order_items` row per line under the new id;
- **the account store**: registration under the UNIQUE email constraint with a
  bcrypt digest, and login by email lookup plus `bcrypt.compare`. This covers
  `/register` and `/login` in `server/index.js` and the two actions of
  `server/api/auth.js`;
- **the product store**: listing and creation in `server/api/products.js`;
- **the CORS middleware** of `server/utils/middleware.js`;
- **the client's cart operations**:
  - `addToCart` in `Home.jsx`;
  - `removeFromCart` and the looked-up total in `Cart.jsx`;
  - the total, the order-items mapping and `handleCheckout` in `Checkout.jsx`;
  - the total, the quantity guard and the rendered subtotals in `components/Cart.js`.

## How the model is built

- **Money.** Amounts are integer cents, so `19.99` is `1999` and totals are
  exact sums.
- **Truthiness.** A JavaScript truthiness test on a request field becomes
  `Common.TruthyText` or `Common.TruthyNumber`. An absent field, `""` and `0`
  are falsy.
- **The database.** The SQLite file is one `Tables.Database` object. It holds
  the four tables as sequences plus one AUTOINCREMENT counter per table.
  - Each method is one SQL statement.
  - `Valid()` states that ids are positive, strictly increasing and below the
    counter, and that emails are unique.
  - Every statement that writes keeps `Valid()`.
- **Failures.** Whether the database fails is a parameter of the operation, not
  a hidden choice:
  - `fails`, `queryFails`, `insertFails` and `storageFails` are booleans;
  - for order placement, `Orders.OrderFaults` names the lines whose price
    lookup errors and the lines whose `order_items` insert errors.
- **Order placement.** `db.serialize` and the `pricesFetched` counter of the
  callbacks run the lookups one after another. The order row is written only
  after the last one. The model uses two sequential loops:
  - `Orders.PriceLines` sums the costs;
  - `Orders.InsertLines` writes the lines.
- **The response.** `res` is the class `Http.Response`:
  - headers, status code, JSON body and an ended flag;
  - methods `SetHeader`, `Status`, `End`, `Json` and `Send`.
  Each handler runs `Middleware.CorsMiddleware` on it first.
- **bcrypt.** `Bcrypt.Hash` produces a `Digest` that records the work factor
  (10) and the random salt, which is a parameter. `Bcrypt.Verify` accepts
  exactly the password the digest was made from.
- **Client code.** The cart code is pure list transformation over
  `seq<CartItem>`, written as functions. `handleCheckout` is a method that
  calls the server's `POST /orders` model.

## Behaviour worth knowing

- **No identity check on product creation.** `server/api/products.js` checks no
  identity at all; any caller may create products.
- **No bounds on price, stock or quantity.** No handler refuses a negative
  value:
  - a negative price, stock or quantity is truthy and is accepted;
  - only 0 is refused, and only for price and stock (`ProductsApi.RequiredFieldsRefuseZero`).
- **No transaction around an order.** The `orders` row is written first and
  the `order_items` rows one by one after it:
  - the handler does not check the line inserts;
  - nothing removes the order row when a line insert fails.
- **Other origins still get CORS headers.** For an origin outside the
  allow-list the middleware still sets Allow-Methods, Allow-Headers and
  Allow-Credentials; only Allow-Origin is withheld.
- **No CORS on the Express server.** The Express routes of `server/index.js` do
  not run the middleware at all.

## Model

| member | source | states |
|---|---|---|
| Bcrypt.VerifyHash | server/index.js:133-161 | the digest stored at registration accepts the password it was made from, whatever the salt |
| Bcrypt.VerifyRejectsOthers | server/index.js:160-161 | the exact-comparison stand-in for `bcrypt.compare` rejects every password other than the one the digest was made from; real bcrypt only compares the first 72 bytes (see Left out) |
| Tables.FindProduct | server/api/orders.js:19-20 | the lookup by id returns a row of the table carrying that id, and returns nothing exactly when no row has that id |
| Tables.FindUserByEmail | server/index.js:156-158 | the lookup by email returns a row of the table with that email, and returns nothing exactly when the email is not taken |
| Tables.FindUserUnique | server/index.js:20-25 | under the UNIQUE email constraint, looking up a stored user's email finds that very user |
| Tables.FindProductUnique | server/index.js:27-33 | with distinct product ids, looking up a stored product's id finds that very row |
| Tables.IncreasingIdsUnique | server/index.js:27-28 | AUTOINCREMENT product ids are pairwise distinct |
| Tables.Database.constructor | server/index.js:19-51 | the freshly created database has four empty tables, every counter at 1, and satisfies the table invariant |
| Tables.Database.InsertUser | server/index.js:135-147 | another SQLite error (a locked or read-only file) is reported as that error, whether or not the email is taken, and nothing changes; otherwise a taken email is a UNIQUE violation and nothing changes; otherwise one row is appended with the next id, admin flag 0, and the invariant kept |
| Tables.Database.InsertProduct | server/api/products.js:26-39 | there is no uniqueness check: unless the insert errors, one row with the given fields and the next id is appended; on error nothing changes |
| Tables.Database.InsertOrder | server/api/orders.js:31-37 | unless the insert errors, one `orders` row `(nextId, user_id, total)` is appended and `lastID` is that id; on error nothing changes |
| Tables.Database.InsertOrderItem | server/api/orders.js:38-43 | unless the insert errors, one `order_items` row with the order id, product id and quantity is appended; on error nothing changes |
| Tables.Database.SelectPrice | server/api/orders.js:19-21 | the lookup errors when told to, otherwise returns the price of the row that `FindProduct` finds, or not-found |
| Orders.ValidOrderRequest | server/api/orders.js:10 | defines the validation: `user_id` truthy, `items` an array, and `items` not empty |
| Orders.LineCost | server/api/orders.js:18-23 | defines `getPrice`: 0 when the lookup errors or finds no row, `price * quantity` of the row found otherwise |
| Orders.OrderTotal | server/api/orders.js:16-30 | defines the accumulated total: the sum of the line costs, line after line, with line `k`'s lookup erroring when `k` is in the error set |
| Orders.KeptLines | server/api/orders.js:38-43 | defines the `order_items` lines the `forEach` of `stmt.run` writes: the request's lines in request order, minus those whose insert errors |
| Orders.LineCostFromTable | server/api/orders.js:18-23 | a line costs 0 when its lookup errors or no product has its id, and `price * quantity` of the matching product otherwise |
| Orders.OrderTotalAppend | server/api/orders.js:16-30 | the total over concatenated requests is the sum of the totals: every line counts, duplicates included |
| Orders.KnownLines | server/api/orders.js:19-21 | a line is kept exactly when it is one of the request's lines and its product has a row |
| Orders.OrderTotalOfKnownLines | server/api/orders.js:19-21 | dropping the lines of missing products leaves the total unchanged |
| Orders.KeptLinesWithoutErrors | server/api/orders.js:41-43 | when no line insert errors, every requested line is written, in request order |
| Orders.PriceLines | server/api/orders.js:16-30 | the loop's total equals the sum of the line costs over all lines, and the database is left as it was |
| Orders.InsertLines | server/api/orders.js:38-43 | the lines whose insert succeeds are appended to `order_items` in request order, each under the given order id with its product id and quantity; no earlier row and no other table changes |
| Orders.PlaceOrder | server/api/orders.js:9-52 | invalid data changes nothing; a failed order insert changes nothing and writes no lines; otherwise exactly one order row with a fresh id, the request's user and the full total is added, followed by the request's lines under that id |
| Middleware.OriginAllowed | server/utils/middleware.js:5 | defines `allowedOrigins.includes(origin)`: the origin is present and one of the two allowed values |
| Middleware.CorsHeaders | server/utils/middleware.js:2-11 | Allow-Origin is set, to the request's origin, exactly when that origin is one of the two allowed ones; the other three headers always carry their fixed values; no other header is set |
| Middleware.CorsMiddleware | server/utils/middleware.js:1-18 | the response gains exactly the CORS headers; OPTIONS ends it with 204 and returns true; any other method returns false with status and body untouched |
| Middleware.DisallowedOriginProceeds | server/utils/middleware.js:5-11 | a request from an origin outside the allow-list gets the same headers as an allowed one, minus Allow-Origin (that it is then handed on like any other request is stated by `Middleware.CorsMiddleware`) |
| Accounts.RegisterFieldsPresent | server/api/auth.js:16 | defines the required-field check: name, email and password all truthy |
| Accounts.Register | server/api/auth.js:14-35 | a missing field is refused and nothing changes; a non-UNIQUE insert error: failure (500), nothing changes, even for a taken email; otherwise a taken email: in-use, nothing changes; otherwise a row with a fresh id and the password's digest (not the password) is added, and logging in with the same credentials then authenticates that id |
| Accounts.Login | server/api/auth.js:36-55 | missing credentials exactly when email or password is falsy; lookup failure exactly when the query errors; success only for a stored user with that email whose digest accepts the password, carrying its id and admin flag as a boolean |
| Accounts.LoginSucceedsIffCredentialsMatch | server/index.js:156-163 | under unique emails, login succeeds exactly when some user has the email and a digest accepting the password; otherwise the outcome is invalid credentials |
| Accounts.UnknownEmailAndWrongPasswordAgree | server/index.js:158-161 | an unknown email and a known email with a wrong password both give invalid credentials |
| Accounts.LoginAfterRegistration | server/index.js:133-163 | appending a user under the UNIQUE constraint keeps emails unique, and logging in with its email and password yields its id |
| OrdersApi.OrderReply | server/api/orders.js:10-46 | 200 with the order id exactly on success, 400 "Invalid order data" exactly for invalid data, 500 for a failed order insert |
| OrdersApi.Handle | server/api/orders.js:4-57 | CORS headers always; `users` and `products` never change; OPTIONS is 204 and touches no table; any method but POST is 405 and touches no table; POST gives the statuses of order placement with the same table effects: one order row with the full total, earlier `order_items` rows kept, and the request's lines appended in order under the new id |
| AuthApi.RegisterReply | server/api/auth.js:16-32 | 200 with the user id exactly on success; 400 "All fields are required", 400 "Email already in use" and 500 for the three failures |
| AuthApi.LoginReply | server/api/auth.js:38-53 | 200 exactly on success, with the id and, when asked for, the admin flag; 400 for missing credentials, 500 for a query error, 401 "Invalid credentials" otherwise |
| AuthApi.LoginFailuresIndistinguishable | server/api/auth.js:44-47 | the reply for an unknown email and for a wrong password is the same 401 "Invalid credentials" |
| AuthApi.Handle | server/api/auth.js:5-63 | CORS headers always; OPTIONS is 204 before any table access; any method but POST is 405; another action is 400 "Invalid action"; login replies with `Login`'s outcome including `is_admin`; register gives each registration case with its status, body and table effect, a non-UNIQUE storage error being 500 even for a taken email |
| ProductsApi.RequiredFieldsPresent | server/api/products.js:22 | defines the required-field check: name, price and stock all truthy |
| ProductsApi.RequiredFieldsRefuseZero | server/api/products.js:22-24 | a zero price or zero stock is refused like a missing field; with a name and both numbers present, the check passes exactly when neither number is 0 |
| ProductsApi.CreateProduct | server/api/products.js:19-40 | a falsy name, price or stock changes nothing; an insert error changes nothing; otherwise exactly one row with the given fields and a fresh id is added and that id returned |
| ProductsApi.CreateSameProductTwice | server/api/products.js:26-28 | two identical creations store two rows with equal fields and distinct ids |
| ProductsApi.ProductReply | server/api/products.js:22-37 | 200 with the product id exactly on success; 400 "Name, price, and stock are required" for missing fields; 500 for an insert error |
| ProductsApi.ListProducts | server/api/products.js:11-16 | a query error is 500; otherwise 200 with every row of the table |
| ProductsApi.Handle | server/api/products.js:4-44 | CORS headers always; `users`, `orders` and `order_items` never change; OPTIONS is 204; GET lists without writing; POST gives the creation cases with their table effect; any other method is 405 and touches no table |
| Server.GetProducts | server/index.js:54-59 | a query error is 500; otherwise 200 with every row as a bare array |
| Server.PostOrders | server/index.js:61-105 | the same validation, pricing and insert order as the serverless handler: 400 and 500 change nothing; 200 returns a fresh id, adds one order row with the full total, keeps the earlier `order_items` rows, and appends the request's lines whose insert succeeds, in order, under the new id; `users` and `products` never change |
| Server.PostSameOrderTwice | server/index.js:83-89 | two identical valid orders get two distinct ids and add two order rows with equal totals |
| Server.PostRegister | server/index.js:128-148 | the registration cases with their statuses and table effects, a non-UNIQUE insert error being 500 even for a taken email; a 200 is followed by a successful login for the returned id |
| Server.PostLogin | server/index.js:151-165 | 200 only for a stored user with that email whose digest accepts the password, without an admin flag; 400 exactly for a falsy email or password; every 401 is "Invalid credentials" |
| Server.RegisterThenLogin | server/index.js:145-163 | registering and then logging in with the same credentials returns the registered id |
| CartModel.LookupTotal | client/src/pages/Cart.jsx:17-20 | defines the page total, the same on the Checkout page: the sum over the lines of `price * quantity` for products in the table, 0 for the others |
| CartModel.LineTotal | client/src/pages/Cart.jsx:18-19 | defines the reduce callback's contribution: the product's price times the quantity when the product is in the table, 0 otherwise |
| CartModel.InCart | client/src/pages/Home.jsx:16-17 | defines the truthiness of `cart.find(...)`: some line of the cart carries the product id |
| CartModel.ProductDataTotal | client/src/pages/Cart.jsx:6-20 | on the pages' own price table, a concrete cart totals the known lines' `price * quantity`, and a product missing from the table adds 0 |
| CartModel.LookupTotalAppend | client/src/pages/Cart.jsx:17-20 | the page total of concatenated carts is the sum of their totals |
| CartModel.LookupTotalReadsCartIds | client/src/pages/Cart.jsx:18-19 | the total depends on the price table only through the lines' products |
| HomePage.IncrementQuantity | client/src/pages/Home.jsx:19-23 | same length and positions; each line of the product gains one unit; every other line is unchanged |
| HomePage.AddToCart | client/src/pages/Home.jsx:15-28 | a product not in the cart is appended at the end with quantity 1; otherwise the cart keeps its length and order, that product's line gains one unit and the rest are unchanged; either way the product is in the cart |
| HomePage.IncrementTotalQuantity | client/src/pages/Home.jsx:19-23 | incrementing adds one unit per line of the product to the cart's size and to the product's quantity, and leaves other products' quantities alone |
| HomePage.AddToCartQuantities | client/src/pages/Home.jsx:15-27 | on a cart of distinct products, adding one raises the total quantity and that product's quantity by exactly 1 and no other product's |
| HomePage.AddToCartKeepsUnique | client/src/pages/Home.jsx:16-26 | distinct product ids stay distinct |
| CartPage.RemoveFromCart | client/src/pages/Cart.jsx:13-15 | the result holds exactly the cart's lines of other products; its length drops by the number of lines of the removed product |
| CartPage.RemoveFromCartAppend | client/src/pages/Cart.jsx:14 | removal works line by line, so it keeps the surviving lines in their order |
| CartPage.RemoveFromCartIdempotent | client/src/pages/Cart.jsx:14 | removing a product twice is removing it once |
| CartPage.RemovedProductLeavesTotal | client/src/pages/Cart.jsx:14-20 | the empty cart totals 0; after removal the total depends neither on the removed product's price nor on whether it is in the table |
| CartPage.TotalSplitsAtProduct | client/src/pages/Cart.jsx:17-20 | the total is the total after removing a product plus that product's price times its quantity (0 if unknown) |
| CheckoutPage.OrderItemsOf | client/src/pages/Checkout.jsx:27-30 | one submitted item per cart line, in the same order, with the same product id and quantity |
| CheckoutPage.DisplayedItems | client/src/pages/Checkout.jsx:55-71 | the lines shown are exactly the cart lines whose product is in the price table |
| CheckoutPage.DisplayedItemsOfLine | client/src/pages/Checkout.jsx:55-71 | one cart line is shown once if its product is known and not at all otherwise |
| CheckoutPage.DisplayedItemsAppend | client/src/pages/Checkout.jsx:55-71 | the page renders in cart order: the lines shown for two carts joined are those of the first followed by those of the second, so each known line appears once, in its place |
| CheckoutPage.UnknownItemsHiddenButSubmitted | client/src/pages/Checkout.jsx:15-57 | the total is the total of the shown lines; a line of an unknown product is not shown but is still submitted |
| CheckoutPage.CheckoutTotalMatchesServer | client/src/pages/Checkout.jsx:15-35 | when the page's prices agree with the products table on the cart's products, the page total equals the total the server stores for the submitted items |
| CheckoutPage.HandleCheckout | client/src/pages/Checkout.jsx:20-44 | without a truthy user id, or when the post fails to reach the server, nothing is written and the cart is kept; the order is placed exactly when the user id is truthy, the post arrives, the cart is non-empty and the order insert succeeds; the cart is cleared exactly then; `users` and `products` never change and a post that is not placed changes nothing; a placed one adds one order row with the new id and the submitted lines' total, keeps the earlier `order_items`, and appends the cart's lines, in order, under the new id |
| CartComponent.Subtotal | client/src/components/Cart.js:42 | defines a line's subtotal, `price * quantity` |
| CartComponent.ItemsTotal | client/src/components/Cart.js:4 | defines the component total: the sum of the subtotals of all items |
| CartComponent.ItemsTotalAppend | client/src/components/Cart.js:4 | the component total of concatenated lists is the sum of their totals |
| CartComponent.ItemsTotalNonNegative | client/src/components/Cart.js:4 | with non-negative prices and quantities the total is not negative |
| CartComponent.HandleQuantityChange | client/src/components/Cart.js:6-10 | the parent is called exactly when the new quantity is at least 0, and then with the item's id and that quantity |
| CartComponent.Decrement | client/src/components/Cart.js:49 | the minus button calls the parent exactly when the quantity is at least 1, with one unit less, which is never negative |
| CartComponent.Increment | client/src/components/Cart.js:58 | the plus button calls the parent exactly when one unit more is not negative, and then with exactly one unit more; a line with a non-negative quantity always goes through |
| CartComponent.Render | client/src/components/Cart.js:12-84 | the empty-cart branch exactly for no items; otherwise one line per item, in order, with its id and `price * quantity`, and the component total |
| CartComponent.RenderedTotalSumsLines | client/src/components/Cart.js:4-84 | the total shown under the list is the sum of the subtotals shown on the lines |

## Left out

- Floating point: prices and totals are integer cents, so the rounding of JavaScript floats and SQLite `REAL` is not modelled, and neither is `toFixed`.
- bcrypt internals: the salt is a parameter and `Verify` is exact. Truncation of passwords to 72 bytes, hash collisions and the cost of hashing are not modelled.
- The SQLite engine:
  - callbacks, prepared statements and `db.serialize` are replaced by sequential calls;
  - the text of `err.message` becomes one `StorageErrorBody`;
  - which statement fails is a parameter of each operation.
- Columns with no bearing on the modelled behaviour are left out:
  - `created_at` on `orders`;
  - the foreign keys. SQLite enforces them only after `PRAGMA foreign_keys = ON`, which `server/index.js` never runs. The serverless handlers open their database through `getDb()` in `server/utils/db.js`, which is not part of this model, so whether they enable enforcement is not known here. A foreign-key error would in any case be one of the modelled insert faults: `headerInsertFails` for the `orders` row and `lineInsertErrors` for the unchecked `order_items` inserts.
- The schema of the serverless handlers lives in `server/utils/db.js`, which is not part of this model. Two columns follow those handlers, not `server/index.js`'s schema, which has neither:
  - `is_admin` on `users`, read by `server/api/auth.js`; rows made by registration carry 0;
  - `image_url` on `products`, written by `server/api/products.js`. `Tables.ProductRow` gives every row an `imageUrl`, including the rows `Server.GetProducts` returns, although the `products` table of `server/index.js` (lines 27-33) has no such column.
- `/seed`, `app.listen` and the connection set-up in `server/index.js` are left out, because they are start-up I/O.
- Request bodies are typed: a non-numeric `user_id` or `quantity`, or a string price, is not modelled. Only absence, `""` and `0` are falsy; `NaN` is not modelled.
- Concurrency between requests is not modelled: each operation runs alone.
- UI side effects are not modelled:
  - React rendering beyond the values rendered;
  - `alert`, `navigate` and `console` output;
  - the routing and the `localStorage` handling of the client.
  The page components other than those listed above are not part of this model.
- CheckoutPage.HandleCheckout: a network failure is one boolean, and any non-2xx reply counts as failure, because axios rejects it. `networkFails` only models a post that never reaches the server. A post whose reply is lost after the server stored the order cannot be represented: there, the order row is added and the cart is kept, so a retry orders twice. The time the request takes is not modelled.
- Orders.PlaceOrder: the handler does not check the line inserts (`stmt.run` without a callback). The model assumes that a failed line insert is skipped and the reply still goes out once the statement is finalized. What the SQLite driver does with an error that no callback receives is not modelled. There is no rollback, because the code has none.
