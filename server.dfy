/** The Express backend (server/index.js): registration, product
    administration, one cart per user and the order workflow. Every handler
    reads a whole collection, changes it and writes it back; here the four
    collections are the fields of a `Server` object and each handler that
    changes one is a method that reassigns that field. Authentication is
    outside the model: a handler sees the caller's id and role, and the
    routes behind the admin middleware require an admin caller. */
module ServerApi {
  import opened Common
  import opened Records

  /** An error response: HTTP status code and the `error` message. */
  datatype HttpError = HttpError(status: int, message: string)

  type Response<T> = Result<T, HttpError>

  /** The authenticated caller, as the token middleware leaves it in `req.user`. */
  datatype Caller = Caller(id: string, role: Role)

  /** A cart line; `product` is the catalog record as it was when the line
      was created. */
  datatype CartItem = CartItem(id: string, productId: string, product: Product, quantity: int)

  datatype OrderItem = OrderItem(productId: string, productName: string, quantity: int,
                                 price: int, subtotal: int)

  datatype Order = Order(id: string, orderNumber: string, userId: string, userName: string,
                         userEmail: string, items: seq<OrderItem>, address: string,
                         total: int, status: string, createdAt: string)

  const Pending := "pending"
  const PlaceholderImage := "https://via.placeholder.com/500"

  /** What checkout answers when the caller's user record is gone: reading
      `user.name` of `undefined` throws, and the handler's catch turns that
      into a 500. */
  const UserMissing := HttpError(500, "Cannot read properties of undefined (reading 'name')")

  // ---------------------------------------------------------------- users

  function RegistrationError(f: RegistrationFault): (e: HttpError)
    ensures e.status == 400
  {
    match f
    case MissingField => HttpError(400, "Name, email, and password are required")
    case ShortPassword => HttpError(400, "Password must be at least 6 characters")
    case EmailTaken => HttpError(400, "Email already registered")
  }

  // ------------------------------------------------------------- products

  /** The body of a product creation, after `parseInt`: `stock` is None
      when it does not parse. An absent image is the empty string. */
  datatype ProductBody = ProductBody(name: string, price: int, description: string,
                                     image: string, category: string, stock: Option<int>)

  /** The record a creation stores: the image falls back to a placeholder
      and an unparsable stock to 0. */
  function NewProduct(body: ProductBody, id: string): (p: Product)
    ensures p.id == id && p.name == body.name && p.price == body.price
    ensures p.description == body.description && p.category == body.category
    ensures p.image != "" && (body.image != "" ==> p.image == body.image)
    ensures body.image == "" ==> p.image == PlaceholderImage
    ensures p.stock == (if body.stock.Some? then body.stock.value else 0)
  {
    Product(id, body.name, body.price, body.description,
            if body.image == "" then PlaceholderImage else body.image,
            body.category, if body.stock.Some? then body.stock.value else 0)
  }

  /** The body of a product update: the fields it carries. It may carry an
      `id` too, which the spread then copies over the stored one. */
  datatype ProductPatch = ProductPatch(id: Option<string>, name: Option<string>,
                                       price: Option<int>, description: Option<string>,
                                       image: Option<string>, category: Option<string>,
                                       stock: Option<int>)

  const NoChanges := ProductPatch(None, None, None, None, None, None, None)

  function Override<T>(current: T, given: Option<T>): T {
    if given.Some? then given.value else current
  }

  /** `{ ...product, ...patch }`. */
  function Merge(p: Product, patch: ProductPatch): (r: Product)
    ensures patch == NoChanges ==> r == p
    ensures r.id == (if patch.id.Some? then patch.id.value else p.id)
    ensures r.name == (if patch.name.Some? then patch.name.value else p.name)
    ensures r.price == (if patch.price.Some? then patch.price.value else p.price)
    ensures r.description == (if patch.description.Some? then patch.description.value else p.description)
    ensures r.image == (if patch.image.Some? then patch.image.value else p.image)
    ensures r.category == (if patch.category.Some? then patch.category.value else p.category)
    ensures r.stock == (if patch.stock.Some? then patch.stock.value else p.stock)
  {
    Product(Override(p.id, patch.id), Override(p.name, patch.name),
            Override(p.price, patch.price), Override(p.description, patch.description),
            Override(p.image, patch.image), Override(p.category, patch.category),
            Override(p.stock, patch.stock))
  }

  /** Sending the same update twice stores the same record as sending it once. */
  lemma MergeIdempotent(p: Product, patch: ProductPatch)
    ensures Merge(Merge(p, patch), patch) == Merge(p, patch)
  {
  }

  // ----------------------------------------------------------------- cart

  /** `quantity || 1`: a missing, null or zero quantity counts as one. */
  function QuantityOrOne(quantity: Option<int>): (n: int)
    ensures n != 0
    ensures quantity.Some? && quantity.value != 0 ==> n == quantity.value
    ensures quantity.None? || quantity.value == 0 ==> n == 1
  {
    if quantity.Some? && quantity.value != 0 then quantity.value else 1
  }

  predicate HasProduct(cart: seq<CartItem>, productId: string) {
    exists i :: 0 <= i < |cart| && cart[i].productId == productId
  }

  predicate HasItem(cart: seq<CartItem>, itemId: string) {
    exists i :: 0 <= i < |cart| && cart[i].id == itemId
  }

  /** At most one line per product. */
  predicate UniqueProductIds(cart: seq<CartItem>) {
    forall i, j :: 0 <= i < j < |cart| ==> cart[i].productId != cart[j].productId
  }

  /** The number of units of a product in the cart, over all its lines. */
  function QuantityOf(cart: seq<CartItem>, productId: string): int {
    if |cart| == 0 then 0
    else QuantityOf(cart[..|cart| - 1], productId)
         + (if cart[|cart| - 1].productId == productId then cart[|cart| - 1].quantity else 0)
  }

  /** `cart.find(item => item.productId === productId)`, as an index. */
  function LineOfProduct(cart: seq<CartItem>, productId: string): (r: Option<nat>)
    ensures r.Some? ==> r.value < |cart| && cart[r.value].productId == productId
    ensures r.Some? ==> forall k :: 0 <= k < r.value ==> cart[k].productId != productId
    ensures r.None? <==> !HasProduct(cart, productId)
  {
    FirstIndex(cart, (item: CartItem) => item.productId == productId)
  }

  /** `cart.find(item => item.id === id)`, as an index. */
  function LineWithId(cart: seq<CartItem>, itemId: string): (r: Option<nat>)
    ensures r.Some? ==> r.value < |cart| && cart[r.value].id == itemId
    ensures r.Some? ==> forall k :: 0 <= k < r.value ==> cart[k].id != itemId
    ensures r.None? <==> !HasItem(cart, itemId)
  {
    FirstIndex(cart, (item: CartItem) => item.id == itemId)
  }

  /** The cart after adding `q` units of `product`: the existing line of
      that product grows by `q`, otherwise one line is appended. */
  function AddLine(cart: seq<CartItem>, product: Product, q: int, freshId: string)
    : (r: seq<CartItem>)
    ensures HasProduct(r, product.id)
    ensures HasProduct(cart, product.id) ==> |r| == |cart|
    ensures !HasProduct(cart, product.id) ==> r == cart + [CartItem(freshId, product.id, product, q)]
    ensures |r| >= |cart|
    ensures forall i :: 0 <= i < |cart| ==>
              r[i].id == cart[i].id && r[i].productId == cart[i].productId
              && r[i].product == cart[i].product
    ensures forall i :: 0 <= i < |cart| && cart[i].productId != product.id ==> r[i] == cart[i]
    ensures UniqueProductIds(cart) ==> UniqueProductIds(r)
  {
    match LineOfProduct(cart, product.id)
    case Some(j) =>
      var r := cart[j := cart[j].(quantity := cart[j].quantity + q)];
      assert r[j].productId == product.id;
      r
    case None =>
      var r := cart + [CartItem(freshId, product.id, product, q)];
      assert r[|cart|].productId == product.id;
      r
  }

  /** Adding `q` units raises the product's count by exactly `q` and
      leaves every other product's count alone. */
  lemma {:induction false} AddLineCounts(cart: seq<CartItem>, product: Product, q: int,
                                         freshId: string, productId: string)
    ensures QuantityOf(AddLine(cart, product, q, freshId), productId)
            == QuantityOf(cart, productId) + (if productId == product.id then q else 0)
  {
    match LineOfProduct(cart, product.id)
    case Some(j) =>
      QuantityOfUpdate(cart, j, cart[j].(quantity := cart[j].quantity + q), productId);
    case None =>
      var r := cart + [CartItem(freshId, product.id, product, q)];
      assert r[..|r| - 1] == cart;
  }

  lemma {:induction false} QuantityOfUpdate(cart: seq<CartItem>, j: nat, x: CartItem, productId: string)
    requires j < |cart| && x.productId == cart[j].productId
    ensures QuantityOf(cart[j := x], productId)
            == QuantityOf(cart, productId)
               + (if x.productId == productId then x.quantity - cart[j].quantity else 0)
    decreases |cart|
  {
    var r := cart[j := x];
    if j < |cart| - 1 {
      assert r[..|r| - 1] == cart[..|cart| - 1][j := x];
      QuantityOfUpdate(cart[..|cart| - 1], j, x, productId);
    } else {
      assert r[..|r| - 1] == cart[..|cart| - 1];
    }
  }

  /** In a cart with one line per product, adding a product it holds
      raises that line's quantity and changes nothing else. */
  lemma AddLineToHeldProduct(cart: seq<CartItem>, j: nat, product: Product, q: int, freshId: string)
    requires UniqueProductIds(cart)
    requires j < |cart| && cart[j].productId == product.id
    ensures AddLine(cart, product, q, freshId) == cart[j := cart[j].(quantity := cart[j].quantity + q)]
  {
  }

  /** The cart after `PUT /api/cart/:id`: 404 for an unknown line,
      otherwise that line's quantity becomes the given value. */
  function UpdateLine(cart: seq<CartItem>, itemId: string, quantity: int): (r: Response<seq<CartItem>>)
    ensures r.Err? <==> !HasItem(cart, itemId)
    ensures r.Err? ==> r.error == HttpError(404, "Cart item not found")
    ensures r.Ok? ==> exists j :: 0 <= j < |cart| && cart[j].id == itemId
                                  && (forall k :: 0 <= k < j ==> cart[k].id != itemId)
                                  && r.value == cart[j := cart[j].(quantity := quantity)]
    ensures r.Ok? && UniqueProductIds(cart) ==> UniqueProductIds(r.value)
  {
    match LineWithId(cart, itemId)
    case None => Err(HttpError(404, "Cart item not found"))
    case Some(j) => Ok(cart[j := cart[j].(quantity := quantity)])
  }

  /** `cart.filter(item => item.id !== id)`. */
  function RemoveLine(cart: seq<CartItem>, itemId: string): (r: seq<CartItem>)
    ensures forall k :: 0 <= k < |r| ==> r[k] in cart && r[k].id != itemId
    ensures forall k :: 0 <= k < |cart| && cart[k].id != itemId ==> cart[k] in r
    ensures SubsequenceOf(r, cart)
    ensures !HasItem(cart, itemId) ==> r == cart
    ensures UniqueProductIds(cart) ==> UniqueProductIds(r)
  {
    FilterIsSubsequence(cart, (item: CartItem) => item.id != itemId);
    FilterKeepsProductsUnique(cart, (item: CartItem) => item.id != itemId);
    Filter(cart, (item: CartItem) => item.id != itemId)
  }

  lemma {:induction false} FilterKeepsProductsUnique(cart: seq<CartItem>, p: CartItem -> bool)
    ensures UniqueProductIds(cart) ==> UniqueProductIds(Filter(cart, p))
    decreases |cart|
  {
    if |cart| > 0 && UniqueProductIds(cart) {
      var tail := cart[1..];
      FilterKeepsProductsUnique(tail, p);
      var ft := Filter(tail, p);
      if p(cart[0]) {
        var r := [cart[0]] + ft;
        forall i, j | 0 <= i < j < |r| ensures r[i].productId != r[j].productId {
          if i == 0 {
            assert r[j] == ft[j - 1] && ft[j - 1] in tail;
          } else {
            assert r[i] == ft[i - 1] && r[j] == ft[j - 1];
          }
        }
      }
    }
  }

  // --------------------------------------------------------------- orders

  /** What one cart line adds to the total: its cached price times its quantity. */
  function LineAmount(item: CartItem): int {
    item.product.price * item.quantity
  }

  /** `cart.reduce((sum, item) => sum + item.product.price * item.quantity, 0)`:
      no line can make the total negative unless its price or quantity is. */
  function CartTotal(cart: seq<CartItem>): (t: int)
    ensures (forall i :: 0 <= i < |cart| ==> cart[i].product.price >= 0 && cart[i].quantity >= 0) ==> t >= 0
  {
    if |cart| == 0 then 0 else CartTotal(cart[..|cart| - 1]) + LineAmount(cart[|cart| - 1])
  }

  function OrderLine(item: CartItem): OrderItem {
    OrderItem(item.productId, item.product.name, item.quantity, item.product.price,
              item.product.price * item.quantity)
  }

  /** The order's lines, one per cart line in cart order, priced from the
      product record cached in the cart. */
  function OrderLines(cart: seq<CartItem>): (r: seq<OrderItem>)
    ensures |r| == |cart|
    ensures forall i :: 0 <= i < |r| ==>
              r[i].productId == cart[i].productId && r[i].quantity == cart[i].quantity
              && r[i].productName == cart[i].product.name && r[i].price == cart[i].product.price
    ensures forall i :: 0 <= i < |r| ==> r[i].subtotal == r[i].price * r[i].quantity
  {
    seq(|cart|, i requires 0 <= i < |cart| => OrderLine(cart[i]))
  }

  function SumSubtotals(items: seq<OrderItem>): int {
    if |items| == 0 then 0 else SumSubtotals(items[..|items| - 1]) + items[|items| - 1].subtotal
  }

  /** The total computed from the cart equals the sum of the order's subtotals. */
  lemma {:induction false} CartTotalIsSumOfSubtotals(cart: seq<CartItem>)
    ensures CartTotal(cart) == SumSubtotals(OrderLines(cart))
  {
    if |cart| > 0 {
      var n := |cart|;
      assert OrderLines(cart)[..n - 1] == OrderLines(cart[..n - 1]);
      CartTotalIsSumOfSubtotals(cart[..n - 1]);
    }
  }

  /** The order `POST /api/orders` creates from `cart`, or its error. The
      empty cart is refused before the address is looked at. */
  function PlaceOrder(cart: seq<CartItem>, address: string, users: seq<User>, caller: Caller,
                      orderId: string, stamp: string, now: string): (r: Response<Order>)
    ensures |cart| == 0 ==> r == Err(HttpError(400, "Cart is empty"))
    ensures |cart| > 0 && address == "" ==> r == Err(HttpError(400, "Address is required"))
    ensures r.Ok? <==> |cart| > 0 && address != "" && FindUser(users, caller.id).Some?
    ensures r.Err? && |cart| > 0 && address != "" ==> r.error == UserMissing
    ensures r.Ok? ==>
              var o := r.value;
              o.id == orderId && o.userId == caller.id && o.status == Pending
              && o.address == address && o.orderNumber == "ORD-" + stamp
              && o.items == OrderLines(cart) && o.total == SumSubtotals(o.items)
              && o.userName == FindUser(users, caller.id).value.name
              && o.userEmail == FindUser(users, caller.id).value.email
              && o.createdAt == now
  {
    if |cart| == 0 then Err(HttpError(400, "Cart is empty"))
    else if address == "" then Err(HttpError(400, "Address is required"))
    else match FindUser(users, caller.id)
      case None => Err(UserMissing)
      case Some(user) =>
        CartTotalIsSumOfSubtotals(cart);
        Ok(Order(orderId, "ORD-" + stamp, caller.id, user.name, user.email, OrderLines(cart),
                 address, CartTotal(cart), Pending, now))
  }

  /** `GET /api/orders`: an admin gets every order, anyone else exactly
      their own, in stored order. */
  function ListOrders(orders: seq<Order>, caller: Caller): (r: seq<Order>)
    ensures caller.role == Admin ==> r == orders
    ensures caller.role != Admin ==>
              (forall k :: 0 <= k < |r| ==> r[k] in orders && r[k].userId == caller.id)
              && (forall k :: 0 <= k < |orders| && orders[k].userId == caller.id ==> orders[k] in r)
              && (forall x :: multiset(r)[x] == if x.userId == caller.id then multiset(orders)[x] else 0)
    ensures SubsequenceOf(r, orders)
  {
    if caller.role == Admin then
      SubsequenceOfSelf(orders);
      orders
    else
      FilterIsSubsequence(orders, (o: Order) => o.userId == caller.id);
      FilterCounts(orders, (o: Order) => o.userId == caller.id);
      Filter(orders, (o: Order) => o.userId == caller.id)
  }

  lemma {:induction false} SubsequenceOfSelf<T>(s: seq<T>)
    ensures SubsequenceOf(s, s)
    decreases |s|
  {
    if |s| > 0 {
      SubsequenceOfSelf(s[1..]);
    }
  }

  /** `orders.find(o => o.id === id)`, as an index. */
  function OrderIndex(orders: seq<Order>, orderId: string): (r: Option<nat>)
    ensures r.Some? ==> r.value < |orders| && orders[r.value].id == orderId
    ensures r.Some? ==> forall k :: 0 <= k < r.value ==> orders[k].id != orderId
    ensures r.None? <==> forall k :: 0 <= k < |orders| ==> orders[k].id != orderId
  {
    FirstIndex(orders, (o: Order) => o.id == orderId)
  }

  /** `GET /api/orders/:id`: 404 when no order has the id, 403 when the
      caller neither owns it nor is an admin. */
  function GetOrder(orders: seq<Order>, caller: Caller, orderId: string): (r: Response<Order>)
    ensures r == Err(HttpError(404, "Order not found")) <==> OrderIndex(orders, orderId).None?
    ensures r == Err(HttpError(403, "Access denied")) <==>
              OrderIndex(orders, orderId).Some? && caller.role != Admin
              && orders[OrderIndex(orders, orderId).value].userId != caller.id
    ensures r.Ok? <==> OrderIndex(orders, orderId).Some?
                       && (caller.role == Admin || orders[OrderIndex(orders, orderId).value].userId == caller.id)
    ensures r.Ok? ==> r.value == orders[OrderIndex(orders, orderId).value]
    ensures r.Ok? ==> r.value in orders && r.value.id == orderId
                      && (r.value.userId == caller.id || caller.role == Admin)
  {
    match OrderIndex(orders, orderId)
    case None => Err(HttpError(404, "Order not found"))
    case Some(k) =>
      if orders[k].userId != caller.id && caller.role != Admin then Err(HttpError(403, "Access denied"))
      else Ok(orders[k])
  }

  /** Whatever a caller can fetch by id is also in the caller's list. */
  lemma GetOrderAgreesWithList(orders: seq<Order>, caller: Caller, orderId: string)
    requires GetOrder(orders, caller, orderId).Ok?
    ensures GetOrder(orders, caller, orderId).value in ListOrders(orders, caller)
  {
    var k := OrderIndex(orders, orderId).value;
    assert orders[k] == GetOrder(orders, caller, orderId).value;
  }

  /** An order appended under an id no stored order has can be fetched
      back by its owner and by an admin. */
  lemma {:induction false} AppendedOrderReadable(orders: seq<Order>, o: Order, caller: Caller)
    requires forall k :: 0 <= k < |orders| ==> orders[k].id != o.id
    requires caller.id == o.userId || caller.role == Admin
    ensures GetOrder(orders + [o], caller, o.id) == Ok(o)
  {
    var all := orders + [o];
    assert all[|orders|] == o;
    assert forall k :: 0 <= k < |orders| ==> all[k].id != o.id;
    assert OrderIndex(all, o.id) == Some(|orders|);
  }

  predicate CartsValid(carts: map<string, seq<CartItem>>) {
    forall u :: u in carts ==> UniqueProductIds(carts[u])
  }

  lemma StoreCartKeepsValid(carts: map<string, seq<CartItem>>, userId: string, cart: seq<CartItem>)
    ensures CartsValid(carts) && UniqueProductIds(cart) ==> CartsValid(carts[userId := cart])
  {
  }

  // --------------------------------------------------------- the backend

  class Server {
    var users: seq<User>
    var products: seq<Product>
    var orders: seq<Order>
    /** One stored cart per user id; a user without one has an empty cart. */
    var carts: map<string, seq<CartItem>>

    constructor (users: seq<User>, products: seq<Product>, orders: seq<Order>)
      ensures this.users == users && this.products == products && this.orders == orders
      ensures carts == map[]
      ensures Valid() <==> UniqueEmails(users)
    {
      this.users := users;
      this.products := products;
      this.orders := orders;
      carts := map[];
    }

    /** The invariant the handlers keep: e-mails are unique and no cart
        holds two lines of one product. */
    ghost predicate Valid()
      reads this
    {
      UniqueEmails(users) && CartsValid(carts)
    }

    /** `GET /api/cart`: the stored cart, empty when there is none. */
    function CartOf(userId: string): (r: seq<CartItem>)
      reads this
      ensures userId !in carts ==> r == []
      ensures userId in carts ==> r == carts[userId]
      ensures Valid() ==> UniqueProductIds(r)
    {
      if userId in carts then carts[userId] else []
    }

    /** `POST /api/auth/register`. The password hash, the fresh id and the
        timestamp are given. */
    method Register(name: string, email: string, password: string,
                    freshId: string, passwordHash: string, now: string)
      returns (r: Response<PublicUser>)
      modifies this
      ensures var fault := CheckRegistration(old(users), name, email, password);
              if fault.Some? then r == Err(RegistrationError(fault.value)) && users == old(users)
              else r == Ok(PublicUser(freshId, name, email, Customer))
                   && users == old(users) + [User(freshId, name, email, passwordHash, Customer, now)]
      ensures products == old(products) && orders == old(orders) && carts == old(carts)
      ensures old(Valid()) ==> Valid()
    {
      var fault := CheckRegistration(users, name, email, password);
      if fault.Some? {
        return Err(RegistrationError(fault.value));
      }
      var newUser := User(freshId, name, email, passwordHash, Customer, now);
      if UniqueEmails(users) {
        RegistrationKeepsEmailsUnique(users, newUser);
      }
      users := users + [newUser];
      r := Ok(Public(newUser));
    }

    /** `POST /api/products` (admin only): appends one product. */
    method CreateProduct(caller: Caller, body: ProductBody, freshId: string) returns (p: Product)
      requires caller.role == Admin
      modifies this
      ensures p == NewProduct(body, freshId) && products == old(products) + [p]
      ensures users == old(users) && orders == old(orders) && carts == old(carts)
      ensures old(Valid()) ==> Valid()
    {
      p := NewProduct(body, freshId);
      products := products + [p];
    }

    /** `PUT /api/products/:id` (admin only): 404 for an unknown id,
        otherwise merges the body into the first product with that id.
        Orders and carts keep their own copies of the old record. */
    method UpdateProduct(caller: Caller, id: string, patch: ProductPatch) returns (r: Response<Product>)
      requires caller.role == Admin
      modifies this
      ensures ProductIndex(old(products), id).None? ==>
                r == Err(HttpError(404, "Product not found")) && products == old(products)
      ensures ProductIndex(old(products), id).Some? ==>
                var k := ProductIndex(old(products), id).value;
                r == Ok(Merge(old(products)[k], patch))
                && products == old(products)[k := Merge(old(products)[k], patch)]
      ensures users == old(users) && orders == old(orders) && carts == old(carts)
      ensures old(Valid()) ==> Valid()
    {
      var index := ProductIndex(products, id);
      if index.None? {
        return Err(HttpError(404, "Product not found"));
      }
      var k := index.value;
      products := products[k := Merge(products[k], patch)];
      r := Ok(products[k]);
    }

    /** `DELETE /api/products/:id` (admin only): removes every product with
        the id; an unknown id is not an error. */
    method DeleteProduct(caller: Caller, id: string)
      requires caller.role == Admin
      modifies this
      ensures products == WithoutProduct(old(products), id)
      ensures users == old(users) && orders == old(orders) && carts == old(carts)
      ensures old(Valid()) ==> Valid()
    {
      products := WithoutProduct(products, id);
    }

    /** `POST /api/cart`: 404 when no product has the id; otherwise the
        caller's line of that product grows by `quantity || 1`, or a line
        holding the current product record is appended. */
    method AddToCart(caller: Caller, productId: string, quantity: Option<int>, freshId: string)
      returns (r: Response<seq<CartItem>>)
      modifies this
      ensures FindProduct(old(products), productId).None? ==>
                r == Err(HttpError(404, "Product not found")) && carts == old(carts)
      ensures FindProduct(old(products), productId).Some? ==>
                r == Ok(AddLine(old(CartOf(caller.id)), FindProduct(old(products), productId).value,
                                QuantityOrOne(quantity), freshId))
                && carts == old(carts)[caller.id := r.value]
      ensures users == old(users) && products == old(products) && orders == old(orders)
      ensures old(Valid()) ==> Valid()
    {
      var cart := CartOf(caller.id);
      ghost var stored := cart;
      var product := FindProduct(products, productId);
      if product.None? {
        return Err(HttpError(404, "Product not found"));
      }
      var q := QuantityOrOne(quantity);
      var existing := LineOfProduct(cart, productId);
      if existing.Some? {
        var i := existing.value;
        cart := cart[i := cart[i].(quantity := cart[i].quantity + q)];
      } else {
        cart := cart + [CartItem(freshId, productId, product.value, q)];
      }
      assert cart == AddLine(stored, product.value, q, freshId);
      StoreCartKeepsValid(carts, caller.id, cart);
      carts := carts[caller.id := cart];
      r := Ok(cart);
    }

    /** `PUT /api/cart/:id`: sets the quantity of the caller's line. */
    method UpdateCartItem(caller: Caller, itemId: string, quantity: int)
      returns (r: Response<seq<CartItem>>)
      modifies this
      ensures r == UpdateLine(old(CartOf(caller.id)), itemId, quantity)
      ensures carts == if r.Ok? then old(carts)[caller.id := r.value] else old(carts)
      ensures users == old(users) && products == old(products) && orders == old(orders)
      ensures old(Valid()) ==> Valid()
    {
      var cart := CartOf(caller.id);
      var item := LineWithId(cart, itemId);
      if item.None? {
        return Err(HttpError(404, "Cart item not found"));
      }
      var i := item.value;
      cart := cart[i := cart[i].(quantity := quantity)];
      carts := carts[caller.id := cart];
      r := Ok(cart);
    }

    /** `DELETE /api/cart/:id`: drops the caller's lines with that id. */
    method RemoveCartItem(caller: Caller, itemId: string) returns (r: seq<CartItem>)
      modifies this
      ensures r == RemoveLine(old(CartOf(caller.id)), itemId)
      ensures carts == old(carts)[caller.id := r]
      ensures users == old(users) && products == old(products) && orders == old(orders)
      ensures old(Valid()) ==> Valid()
    {
      r := RemoveLine(CartOf(caller.id), itemId);
      carts := carts[caller.id := r];
    }

    /** `DELETE /api/cart`. */
    method ClearCart(caller: Caller)
      modifies this
      ensures carts == old(carts)[caller.id := []] && CartOf(caller.id) == []
      ensures users == old(users) && products == old(products) && orders == old(orders)
      ensures old(Valid()) ==> Valid()
    {
      carts := carts[caller.id := []];
    }

    /** `POST /api/orders`: on success appends exactly one order and
        empties the caller's cart; on failure writes nothing. */
    method CreateOrder(caller: Caller, address: string, orderId: string, stamp: string, now: string)
      returns (r: Response<Order>)
      modifies this
      ensures r == PlaceOrder(old(CartOf(caller.id)), address, old(users), caller, orderId, stamp, now)
      ensures r.Ok? ==> orders == old(orders) + [r.value] && carts == old(carts)[caller.id := []]
      ensures r.Err? ==> orders == old(orders) && carts == old(carts)
      ensures users == old(users) && products == old(products)
      ensures old(Valid()) ==> Valid()
    {
      var cart := CartOf(caller.id);
      if |cart| == 0 {
        return Err(HttpError(400, "Cart is empty"));
      }
      if address == "" {
        return Err(HttpError(400, "Address is required"));
      }
      var total := CartTotal(cart);
      var user := FindUser(users, caller.id);
      if user.None? {
        return Err(UserMissing);
      }
      var order := Order(orderId, "ORD-" + stamp, caller.id, user.value.name, user.value.email,
                         OrderLines(cart), address, total, Pending, now);
      orders := orders + [order];
      carts := carts[caller.id := []];
      r := Ok(order);
    }

    /** `PUT /api/orders/:id/status` (admin only): 404 for an unknown id,
        otherwise overwrites the status of the first order with the id and
        nothing else. Any status string is accepted. */
    method UpdateOrderStatus(caller: Caller, orderId: string, status: string) returns (r: Response<Order>)
      requires caller.role == Admin
      modifies this
      ensures OrderIndex(old(orders), orderId).None? ==>
                r == Err(HttpError(404, "Order not found")) && orders == old(orders)
      ensures OrderIndex(old(orders), orderId).Some? ==>
                var k := OrderIndex(old(orders), orderId).value;
                r == Ok(old(orders)[k].(status := status))
                && orders == old(orders)[k := old(orders)[k].(status := status)]
      ensures users == old(users) && products == old(products) && carts == old(carts)
      ensures old(Valid()) ==> Valid()
    {
      var index := OrderIndex(orders, orderId);
      if index.None? {
        return Err(HttpError(404, "Order not found"));
      }
      var k := index.value;
      orders := orders[k := orders[k].(status := status)];
      r := Ok(orders[k]);
    }
  }
}
