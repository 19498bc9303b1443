# Shop backends: carts and orders

This project is a Dafny model of the two backends of a small online shop.

- The Express server (`server/index.js`) keeps users, products, orders and one cart per user in JSON files.
- The browser mock (`client/src/mockApi.js`) keeps the same four collections in `localStorage`.

Each backend is modelled as a class whose fields are the four collections: `ServerApi.Server` and `MockApi.LocalStore`. Each handler that rewrites a collection is a method that reassigns the field, with `modifies this`. Its `ensures` gives the whole new state in terms of pure functions of the old state, and says that the class invariant `Valid()` is kept. `Valid()` means e-mail addresses are unique and no cart holds two lines of the same product. The filters, lookups, merges and reductions the handlers use are functions. The properties the backends promise are proved about those functions, as their `ensures` clauses and as lemmas.

Modules:

- `Common`: the option and result types, roles, the `find`/`findIndex` search (`FirstIndex`), `filter` (`Filter`) and the subsequence relation.
- `Records`: users and products, the registration checks, and the product lookups and deletion the two backends share.
- `Numbering`: `String(n)` for non-negative integers and `padStart`, with their read-back lemmas.
- `ServerApi`: the server's routes.
- `MockApi`: the mock's functions.

Some behaviours of the code are easy to mistake for something else. The model follows the code:

- **Deleting a product on the server.** `DELETE /api/products/:id` answers success for an unknown id. It has no 404.
- **Server order numbers.** They are `"ORD-"` followed by the `Date.now()` stamp. They are not sequential zero-padded numbers. Only the mock numbers orders `0001`, `0002`, and so on.
- **Server order prices.** They are computed from the product record copied into the cart line when the line was created. They are not the current catalog price.
- **Mock order prices.** They use the current catalog price.
- **Checkout check order.** The server rejects an empty cart before it looks at the address.
- **Quantities.** Neither backend checks that a quantity is at least 1. The server replaces a missing or zero quantity by 1 only when adding to the cart.
- **Mock admin checks.** The mock has no admin check on order status updates or product changes.
- **Mock address check.** The mock does not check the address at checkout.

## Model

| member | source | states |
|---|---|---|
| Common.FirstIndex | server/index.js:411 | the index `find`/`findIndex` stop at: the first element satisfying the predicate, or None exactly when no element does |
| Common.Filter | server/index.js:450 | `filter` keeps exactly the elements that satisfy the predicate, and keeps everything when all do |
| Common.FilterCounts | server/index.js:450 | `filter` keeps every copy of an element that satisfies the predicate and no copy of one that does not |
| Common.FilterIsSubsequence | server/index.js:479 | a filter result is a subsequence of its input: the stored order is kept |
| Records.Utf16Length | server/index.js:220 | `length` counts UTF-16 code units: one per character plus one more for each character outside the Basic Multilingual Plane |
| Records.AstralOfPrefix | server/index.js:220 | appending a character adds one to the count of characters outside the Basic Multilingual Plane exactly when it lies outside it |
| Records.CheckRegistration | server/index.js:216-228 | registration is refused for a missing field, then for a password under 6 UTF-16 units, then for an e-mail already registered, each if and only if the earlier checks pass; it is accepted exactly when all three pass |
| Records.EmojiPasswordLongEnough | client/src/mockApi.js:120 | a password of three emoji (six UTF-16 units) passes the length check |
| Records.RegistrationKeepsEmailsUnique | server/index.js:225-241 | appending a user whose e-mail is not registered keeps e-mails unique |
| Records.FindProduct | server/index.js:406 | the product found is the first one in the catalog with the requested id; None exactly when no product has it |
| Records.ProductIndex | server/index.js:363 | `findIndex`: the first product with the id, or None exactly when there is none |
| Records.WithoutProduct | server/index.js:379 | deletion keeps, in order, every copy of every product without the id and nothing else, and changes nothing for an unknown id |
| Records.FindUser | server/index.js:525 | the user found is the first one with the id; None exactly when no user has it |
| Records.UserIndex | server/index.js:525 | the index where `users.find` stops: the first user with the id, or None exactly when there is none |
| ServerApi.RegistrationError | server/index.js:216-228 | every registration refusal is a 400 |
| ServerApi.NewProduct | server/index.js:342-350 | a created product has the fresh id, the body's name, price, description and category, the given image or the placeholder when none is given, and stock 0 when the stock does not parse |
| ServerApi.Merge | server/index.js:367 | each field, the id included, takes the body's value when the body carries it and keeps the stored value otherwise; an empty body changes nothing |
| ServerApi.QuantityOrOne | server/index.js:413-419 | `quantity \|\| 1`: never zero; a given non-zero quantity is kept; a missing or zero one becomes 1 |
| ServerApi.LineOfProduct | server/index.js:411 | the first line of the product, or None exactly when the cart holds none |
| ServerApi.LineWithId | server/index.js:434 | the first line with the id, or None exactly when there is none |
| ServerApi.AddLine | server/index.js:411-421 | adding never creates a second line for a product: it grows the product's line when one exists, otherwise appends exactly one line; other lines are unchanged; one line per product is preserved |
| ServerApi.AddLineCounts | server/index.js:411-421 | adding q units raises the product's total quantity by exactly q and no other product's |
| ServerApi.QuantityOfUpdate | server/index.js:413 | changing one line's quantity changes its product's total by the difference |
| ServerApi.AddLineToHeldProduct | server/index.js:412-413 | in a cart with one line per product, adding a held product changes only that line's quantity |
| ServerApi.UpdateLine | server/index.js:434-439 | 404 "Cart item not found" if and only if no line has the id; otherwise the quantity of the first line with the id becomes the given value and nothing else changes |
| ServerApi.RemoveLine | server/index.js:450 | removal keeps, in order, exactly the other lines, changes nothing for an unknown id, and preserves one line per product |
| ServerApi.FilterKeepsProductsUnique | server/index.js:450 | filtering a cart keeps one line per product |
| ServerApi.OrderLines | server/index.js:532-538 | one order line per cart line, in cart order, with the cached name and price, and subtotal = price × quantity |
| ServerApi.CartTotal | server/index.js:520-522 | the reduced total is never negative when no price or quantity is |
| ServerApi.CartTotalIsSumOfSubtotals | server/index.js:520-538 | the total reduced from the cart equals the sum of the order lines' subtotals |
| ServerApi.PlaceOrder | server/index.js:508-546 | checkout fails with 400 "Cart is empty", then 400 "Address is required", then 500 when the user record is gone; otherwise a pending order for the caller, numbered "ORD-" + stamp, stamped with the creation time, whose total is the sum of its subtotals |
| ServerApi.ListOrders | server/index.js:474-481 | an admin lists every order; anyone else lists every copy of each of their own orders and nothing else, in stored order |
| ServerApi.SubsequenceOfSelf | server/index.js:476 | the admin's unfiltered list is trivially a subsequence |
| ServerApi.OrderIndex | server/index.js:491 | the first order with the id, or None exactly when there is none |
| ServerApi.GetOrder | server/index.js:491-498 | 404 if and only if no order has the id; 403 if and only if the caller neither owns the first order with the id nor is an admin; success exactly otherwise, returning that first order |
| ServerApi.GetOrderAgreesWithList | server/index.js:471-498 | an order a caller can fetch by id is in that caller's list |
| ServerApi.AppendedOrderReadable | server/index.js:546 | an order appended under a new id can be fetched by its owner and by an admin |
| ServerApi.StoreCartKeepsValid | server/index.js:423 | storing a cart with one line per product keeps every stored cart so |
| ServerApi.MergeIdempotent | server/index.js:367 | sending the same product update twice stores the same record as sending it once |
| ServerApi.Server.constructor | server/index.js:34 | the store starts with the given users, products and orders and no carts; it satisfies the invariant exactly when the given e-mails are unique |
| ServerApi.Server.CartOf | server/index.js:194-201 | `GET /api/cart` (390-397) answers the stored cart, or an empty one when none is stored; in a valid store it holds one line per product |
| ServerApi.Server.Register | server/index.js:212-256 | refusals store nothing; success appends exactly one customer and returns it without the password; e-mails stay unique |
| ServerApi.Server.CreateProduct | server/index.js:339-357 | appends exactly the new product |
| ServerApi.Server.UpdateProduct | server/index.js:360-373 | 404 for an unknown id, writing nothing; otherwise replaces the first matching product with its merge |
| ServerApi.Server.DeleteProduct | server/index.js:376-385 | the catalog becomes the catalog without the id |
| ServerApi.Server.AddToCart | server/index.js:400-428 | 404 for an unknown product, writing nothing; otherwise stores `AddLine` of the old cart; one line per product is kept |
| ServerApi.Server.UpdateCartItem | server/index.js:431-444 | stores `UpdateLine` of the old cart on success and nothing on error |
| ServerApi.Server.RemoveCartItem | server/index.js:447-456 | stores `RemoveLine` of the old cart |
| ServerApi.Server.ClearCart | server/index.js:459-466 | the caller's cart becomes empty; nothing else changes |
| ServerApi.Server.CreateOrder | server/index.js:505-556 | returns `PlaceOrder` of the old cart; on success appends exactly that order and empties the cart; on error writes nothing |
| ServerApi.Server.UpdateOrderStatus | server/index.js:559-572 | 404 for an unknown id; otherwise only the first matching order's status changes |
| Numbering.Decimal | client/src/mockApi.js:312 | `String(n)` is a non-empty run of digits with no leading zero |
| Numbering.PadStart | client/src/mockApi.js:312 | `padStart` yields max(length, width) characters ending in the input and starting with fill characters |
| Numbering.ParseDecimalOfDecimal | client/src/mockApi.js:312 | reading back `String(n)` gives n |
| Numbering.LeadingZerosIgnored | client/src/mockApi.js:312 | zero padding does not change a numeral's value |
| Numbering.ZerosParseToZero | client/src/mockApi.js:312 | a run of zeros reads as 0 |
| Numbering.DecimalLength | client/src/mockApi.js:312 | `String(n)` has at most k digits exactly when n < 10^k |
| Numbering.PaddedNumeral | client/src/mockApi.js:312 | `String(n)` padded with zeros is all digits and reads as n |
| Numbering.FourDigitBound | client/src/mockApi.js:312 | `String(n)` fits in four characters exactly when n < 10000 |
| MockApi.RegistrationMessage | client/src/mockApi.js:116-127 | each registration refusal throws its own message, from which the refusal can be read back |
| MockApi.FromForm | client/src/mockApi.js:203-206 | a new product has the fresh id and carries the form unchanged |
| MockApi.MergeForm | client/src/mockApi.js:201 | saving the form over a product keeps only the stored id: the result is the form's product under that id |
| MockApi.JoinCart | client/src/mockApi.js:224-237 | one entry per stored line, in order, with the same id and quantity; its product is the first catalog product with the line's product id, and is missing exactly when the catalog has none |
| MockApi.LineOfProduct | client/src/mockApi.js:246 | the first line of the product, or None exactly when the cart holds none |
| MockApi.AddLine | client/src/mockApi.js:246-255 | adding grows the product's line when one exists, otherwise appends exactly one line; other lines are unchanged; one line per product is preserved |
| MockApi.AddLineCounts | client/src/mockApi.js:246-255 | adding q units raises the product's total quantity by exactly q and no other product's |
| MockApi.QuantityOfUpdate | client/src/mockApi.js:248 | changing one line's quantity changes its product's total by the difference |
| MockApi.AddTwiceKeepsOneLine | client/src/mockApi.js:246-255 | adding the same product twice appends at most one line |
| MockApi.SetQuantity | client/src/mockApi.js:265-267 | every line with the id gets the new quantity and every other line is unchanged; an unknown id changes nothing; one line per product is kept |
| MockApi.RemoveLine | client/src/mockApi.js:276 | removal keeps, in order, exactly the other lines, changes nothing for an unknown id, and keeps one line per product |
| MockApi.FilterKeepsProductsUnique | client/src/mockApi.js:276 | filtering a cart keeps one line per product |
| MockApi.StoreCartKeepsValid | client/src/mockApi.js:256 | storing a cart with one line per product keeps every stored cart so |
| MockApi.OrderLines | client/src/mockApi.js:300-309 | checkout prices each line at the product's current price, in cart order, and throws exactly when some line's product is gone |
| MockApi.SumSubtotals | client/src/mockApi.js:311 | the reduced total is never negative when no subtotal is |
| MockApi.SumSubtotalsCons | client/src/mockApi.js:311 | the reduced sum splits off its first line |
| MockApi.OrderTotalAtCurrentPrices | client/src/mockApi.js:300-311 | the order total equals the cart's worth at current catalog prices |
| MockApi.OrderNumber | client/src/mockApi.js:312 | the order number is all digits, reads as the stored order count + 1, and is exactly four characters while that is below 10000, otherwise as long as `String(count + 1)` |
| MockApi.OrderNumbersDistinct | client/src/mockApi.js:312 | different order counts give different order numbers |
| MockApi.SeventhOrderNumber | client/src/mockApi.js:312 | the order placed when six are stored is "0007" |
| MockApi.PlaceOrder | client/src/mockApi.js:296-327 | an empty cart throws "Keranjang kosong"; otherwise the order exists exactly when every line's product does; it is pending, sequentially numbered, for the user, stamped with the creation time, and its total is the sum of its subtotals and the cart's worth at current prices |
| MockApi.GetOrders | client/src/mockApi.js:336-345 | no user gets no orders, an admin gets every order, and a customer gets every copy of each of their own orders and nothing else, in stored order |
| MockApi.OrderIndex | client/src/mockApi.js:350 | the first order with the id, or None exactly when there is none |
| MockApi.PlacedOrderListedForOwner | client/src/mockApi.js:329-344 | a placed order is in its owner's list |
| MockApi.ListAfterPlacing | client/src/mockApi.js:329-344 | placing an order extends its owner's list by exactly that order and leaves other customers' lists alone |
| MockApi.LocalStore.constructor | client/src/mockApi.js:13-25 | the store starts with the given users, products and orders and no carts; it satisfies the invariant exactly when the given e-mails are unique |
| MockApi.LocalStore.CartOf | client/src/mockApi.js:227 | the stored cart, or the empty fallback of `load` when none is stored; in a valid store it holds one line per product |
| MockApi.LocalStore.Register | client/src/mockApi.js:112-143 | refusals store nothing; success appends exactly one customer and returns the new id as token with the public user; e-mails stay unique |
| MockApi.LocalStore.SaveProduct | client/src/mockApi.js:194-211 | with no editing id, appends the form's product; with an unknown one, throws and writes nothing; otherwise replaces the first match with the form's product under the stored id; returns the catalog |
| MockApi.LocalStore.DeleteProduct | client/src/mockApi.js:214-220 | the catalog becomes the catalog without the id, which is returned |
| MockApi.LocalStore.AddToCart | client/src/mockApi.js:241-258 | stores and returns `AddLine` of the old cart; one line per product is kept |
| MockApi.LocalStore.UpdateCartItem | client/src/mockApi.js:261-269 | stores and returns `SetQuantity` of the old cart |
| MockApi.LocalStore.RemoveCartItem | client/src/mockApi.js:272-278 | stores and returns `RemoveLine` of the old cart |
| MockApi.LocalStore.ClearCart | client/src/mockApi.js:281-285 | the user's cart becomes empty; nothing else changes |
| MockApi.LocalStore.CreateOrder | client/src/mockApi.js:289-333 | returns `PlaceOrder` of the old cart and catalog; on success appends exactly that order and empties the cart; when it throws, writes nothing |
| MockApi.LocalStore.UpdateOrderStatus | client/src/mockApi.js:347-355 | throws for an unknown id; otherwise only the first matching order's status changes |

## Left out

- Persistence is left out: reading and writing the JSON files and `localStorage`, and what happens when they are missing or corrupt. A collection is a field, and a missing cart is an empty one.
- Routing, HTTP and JSON (de)serialisation are left out. A handler is a method taking the already-parsed body fields.
- Authentication is left out: tokens, JWT signing and verification, password hashing, and login. The caller's id and role are parameters. The admin middleware is the precondition `caller.role == Admin`.
- Fresh ids (`uuidv4()`, `` `prod-${Date.now()}` `` and so on), `Date.now()` and ISO timestamps are parameters. Their freshness is not modelled.
- Concurrency is left out: the mock's `delay()`, and interleaved requests racing on the same file.
- Falsy JavaScript values are all the empty string (or None): `undefined`, `null` and `""` for names, e-mails, passwords, images and addresses. Values of the wrong JSON type are left out.
- ServerApi.Server.UpdateCartItem: `item.quantity = req.body.quantity` stores `undefined` when the body has no quantity. The model's quantity is always an integer, so that case is left out. The same holds for MockApi.LocalStore.UpdateCartItem.
- ServerApi.Server.UpdateOrderStatus: `order.status = req.body.status` stores `undefined` when the body has no status. The model's status is always a string, so that case is left out.
- ServerApi.NewProduct: `parseInt` is modelled only through its outcome. The price is an integer and the stock is None when it does not parse. An unparsable price (`NaN`) is left out.
- ServerApi.Merge: the body carries the product fields and possibly an `id`. Arbitrary extra fields that the spread would also copy are left out.
- MockApi.MergeForm: the form is taken to carry exactly the six product fields and no id.
- MockApi.AddLine: non-numeric quantities, where `+=` would concatenate strings, are left out. Quantities and prices are unbounded integers, not JavaScript numbers, so rounding of very large values is not modelled.
- `GET /api/products`, `GET /api/products/:id`, login, `GET /api/auth/me`, the mock's read-only product and session functions, and the page components are outside this core.
