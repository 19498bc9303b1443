/** The localStorage backend the React pages call (client/src/mockApi.js).
    It keeps the same four collections as the server, under its own record
    shapes and rules: carts hold only product ids and are priced at
    checkout from the current catalog, order numbers are sequential, and a
    failure is a thrown Error (here, its message). The collections are the
    fields of a `LocalStore` object; each function of the file that writes
    one back is a method that reassigns that field. */
module MockApi {
  import opened Common
  import opened Records
  import opened Numbering

  /** A value, or the message of the Error thrown instead. */
  type Outcome<T> = Result<T, string>

  /** The signed-in user as the pages hold it and pass it in. */
  datatype Session = Session(id: string, name: string, email: string, role: Role)

  datatype CartItem = CartItem(id: string, productId: string, quantity: int)

  /** A cart line joined with its product, which may have been deleted since. */
  datatype CartEntry = CartEntry(id: string, product: Option<Product>, quantity: int)

  datatype OrderItem = OrderItem(productId: string, productName: string, quantity: int, subtotal: int)

  datatype Order = Order(id: string, orderNumber: string, userId: string, userName: string,
                         userEmail: string, customerName: string, address: string,
                         items: seq<OrderItem>, total: int, status: string, createdAt: string)

  /** The admin page's product form: always these six fields, never an id. */
  datatype ProductForm = ProductForm(name: string, price: int, description: string,
                                     image: string, category: string, stock: int)

  /** What registration returns: the token is the new user's id. */
  datatype Registered = Registered(token: string, user: PublicUser)

  const Pending := "pending"
  const ProductNotFound := "Produk tidak ditemukan"
  const OrderNotFound := "Pesanan tidak ditemukan"
  const EmptyCart := "Keranjang kosong"

  /** What checkout throws when a cart line names a product that no longer
      exists: reading `price` of `undefined`. */
  const ProductMissing := "Cannot read properties of undefined (reading 'price')"

  // ---------------------------------------------------------------- users

  /** The message registration throws for each refusal; each message names
      exactly one refusal. */
  function RegistrationMessage(f: RegistrationFault): (m: string)
    ensures FaultOfMessage(m) == Some(f)
  {
    match f
    case MissingField => "Nama, email, dan password wajib diisi"
    case ShortPassword => "Password minimal 6 karakter"
    case EmailTaken => "Email sudah terdaftar"
  }

  /** Which registration check a thrown message reports, if any. */
  function FaultOfMessage(m: string): Option<RegistrationFault> {
    if m == "Nama, email, dan password wajib diisi" then Some(MissingField)
    else if m == "Password minimal 6 karakter" then Some(ShortPassword)
    else if m == "Email sudah terdaftar" then Some(EmailTaken)
    else None
  }

  // ------------------------------------------------------------- products

  /** `{ ...form, id }`: a new product, carrying the form unchanged. */
  function FromForm(form: ProductForm, id: string): (p: Product)
    ensures p.id == id && FormOf(p) == form
  {
    Product(id, form.name, form.price, form.description, form.image, form.category, form.stock)
  }

  /** The fields of a product that the form edits. */
  function FormOf(p: Product): ProductForm {
    ProductForm(p.name, p.price, p.description, p.image, p.category, p.stock)
  }

  /** `{ ...product, ...form }`: since the form carries every field but the
      id, only the id of the stored record survives. */
  function MergeForm(p: Product, form: ProductForm): (r: Product)
    ensures r == FromForm(form, p.id)
  {
    p.(name := form.name, price := form.price, description := form.description,
       image := form.image, category := form.category, stock := form.stock)
  }

  // ----------------------------------------------------------------- cart

  predicate HasProduct(items: seq<CartItem>, productId: string) {
    exists i :: 0 <= i < |items| && items[i].productId == productId
  }

  predicate HasItem(items: seq<CartItem>, itemId: string) {
    exists i :: 0 <= i < |items| && items[i].id == itemId
  }

  predicate UniqueProductIds(items: seq<CartItem>) {
    forall i, j :: 0 <= i < j < |items| ==> items[i].productId != items[j].productId
  }

  predicate CartsValid(carts: map<string, seq<CartItem>>) {
    forall u :: u in carts ==> UniqueProductIds(carts[u])
  }

  lemma StoreCartKeepsValid(carts: map<string, seq<CartItem>>, userId: string, items: seq<CartItem>)
    ensures CartsValid(carts) && UniqueProductIds(items) ==> CartsValid(carts[userId := items])
  {
  }

  /** The number of units of a product in the cart, over all its lines. */
  function QuantityOf(items: seq<CartItem>, productId: string): int {
    if |items| == 0 then 0
    else QuantityOf(items[..|items| - 1], productId)
         + (if items[|items| - 1].productId == productId then items[|items| - 1].quantity else 0)
  }

  /** `apiGetCart`: each stored line, in order, with its product looked up
      in the current catalog. */
  function JoinCart(items: seq<CartItem>, products: seq<Product>): (r: seq<CartEntry>)
    ensures |r| == |items|
    ensures forall i :: 0 <= i < |r| ==> r[i].id == items[i].id && r[i].quantity == items[i].quantity
    ensures forall i :: 0 <= i < |r| && r[i].product.Some? ==>
              r[i].product.value in products && r[i].product.value.id == items[i].productId
    ensures forall i :: 0 <= i < |r| ==>
              (r[i].product.None? <==> forall k :: 0 <= k < |products| ==> products[k].id != items[i].productId)
    ensures forall i :: 0 <= i < |r| ==> r[i].product == FindProduct(products, items[i].productId)
  {
    seq(|items|, i requires 0 <= i < |items| =>
      CartEntry(items[i].id, FindProduct(products, items[i].productId), items[i].quantity))
  }

  /** `items.find(i => i.productId === productId)`, as an index. */
  function LineOfProduct(items: seq<CartItem>, productId: string): (r: Option<nat>)
    ensures r.Some? ==> r.value < |items| && items[r.value].productId == productId
    ensures r.Some? ==> forall k :: 0 <= k < r.value ==> items[k].productId != productId
    ensures r.None? <==> !HasProduct(items, productId)
  {
    FirstIndex(items, (item: CartItem) => item.productId == productId)
  }

  /** The cart after `apiAddToCart`: the existing line of the product grows
      by `quantity`, otherwise one line is appended. The product is not
      looked up and the quantity is taken as given. */
  function AddLine(items: seq<CartItem>, productId: string, quantity: int, freshId: string)
    : (r: seq<CartItem>)
    ensures HasProduct(r, productId)
    ensures HasProduct(items, productId) ==> |r| == |items|
    ensures !HasProduct(items, productId) ==> r == items + [CartItem(freshId, productId, quantity)]
    ensures |r| >= |items|
    ensures forall i :: 0 <= i < |items| ==> r[i].id == items[i].id && r[i].productId == items[i].productId
    ensures forall i :: 0 <= i < |items| && items[i].productId != productId ==> r[i] == items[i]
    ensures UniqueProductIds(items) ==> UniqueProductIds(r)
  {
    match LineOfProduct(items, productId)
    case Some(j) =>
      var r := items[j := items[j].(quantity := items[j].quantity + quantity)];
      assert r[j].productId == productId;
      r
    case None =>
      var r := items + [CartItem(freshId, productId, quantity)];
      assert r[|items|].productId == productId;
      r
  }

  /** Adding raises the product's count by exactly the quantity added and
      leaves every other product's count alone. */
  lemma {:induction false} AddLineCounts(items: seq<CartItem>, productId: string, quantity: int,
                                         freshId: string, other: string)
    ensures QuantityOf(AddLine(items, productId, quantity, freshId), other)
            == QuantityOf(items, other) + (if other == productId then quantity else 0)
  {
    match LineOfProduct(items, productId)
    case Some(j) =>
      QuantityOfUpdate(items, j, items[j].(quantity := items[j].quantity + quantity), other);
    case None =>
      var r := items + [CartItem(freshId, productId, quantity)];
      assert r[..|r| - 1] == items;
  }

  lemma {:induction false} QuantityOfUpdate(items: seq<CartItem>, j: nat, x: CartItem, other: string)
    requires j < |items| && x.productId == items[j].productId
    ensures QuantityOf(items[j := x], other)
            == QuantityOf(items, other)
               + (if x.productId == other then x.quantity - items[j].quantity else 0)
    decreases |items|
  {
    var r := items[j := x];
    if j < |items| - 1 {
      assert r[..|r| - 1] == items[..|items| - 1][j := x];
      QuantityOfUpdate(items[..|items| - 1], j, x, other);
    } else {
      assert r[..|r| - 1] == items[..|items| - 1];
    }
  }

  /** Adding the same product twice leaves a single line for it: the second
      add appends nothing. */
  lemma AddTwiceKeepsOneLine(items: seq<CartItem>, productId: string, q1: int, q2: int,
                             id1: string, id2: string)
    ensures var once := AddLine(items, productId, q1, id1);
            |AddLine(once, productId, q2, id2)| == |once|
  {
  }

  /** `apiUpdateCartItem`: every line with the id takes the new quantity;
      an unknown id changes nothing and is not an error. */
  function SetQuantity(items: seq<CartItem>, itemId: string, quantity: int): (r: seq<CartItem>)
    ensures |r| == |items|
    ensures forall i :: 0 <= i < |r| ==>
              r[i].id == items[i].id && r[i].productId == items[i].productId
              && r[i].quantity == (if items[i].id == itemId then quantity else items[i].quantity)
    ensures !HasItem(items, itemId) ==> r == items
    ensures UniqueProductIds(items) ==> UniqueProductIds(r)
  {
    seq(|items|, i requires 0 <= i < |items| =>
      if items[i].id == itemId then items[i].(quantity := quantity) else items[i])
  }

  /** `apiRemoveCartItem`: `items.filter(item => item.id !== itemId)`. */
  function RemoveLine(items: seq<CartItem>, itemId: string): (r: seq<CartItem>)
    ensures forall k :: 0 <= k < |r| ==> r[k] in items && r[k].id != itemId
    ensures forall k :: 0 <= k < |items| && items[k].id != itemId ==> items[k] in r
    ensures SubsequenceOf(r, items)
    ensures !HasItem(items, itemId) ==> r == items
    ensures UniqueProductIds(items) ==> UniqueProductIds(r)
  {
    FilterIsSubsequence(items, (item: CartItem) => item.id != itemId);
    FilterKeepsProductsUnique(items, (item: CartItem) => item.id != itemId);
    Filter(items, (item: CartItem) => item.id != itemId)
  }

  lemma {:induction false} FilterKeepsProductsUnique(items: seq<CartItem>, p: CartItem -> bool)
    ensures UniqueProductIds(items) ==> UniqueProductIds(Filter(items, p))
    decreases |items|
  {
    if |items| > 0 && UniqueProductIds(items) {
      var tail := items[1..];
      FilterKeepsProductsUnique(tail, p);
      var ft := Filter(tail, p);
      if p(items[0]) {
        var r := [items[0]] + ft;
        forall i, j | 0 <= i < j < |r| ensures r[i].productId != r[j].productId {
          if i == 0 {
            assert r[j] == ft[j - 1] && ft[j - 1] in tail;
          } else {
            assert r[i] == ft[i - 1] && r[j] == ft[j - 1];
          }
        }
      }
    }
  }

  // --------------------------------------------------------------- orders

  /** An order line priced from the current product record. */
  function OrderLine(item: CartItem, p: Product): OrderItem {
    OrderItem(p.id, p.name, item.quantity, p.price * item.quantity)
  }

  /** The product of the cart line still exists in the catalog. */
  predicate Priced(products: seq<Product>, item: CartItem) {
    FindProduct(products, item.productId).Some?
  }

  /** The `cartItems.map` of checkout: one line per cart line, in order,
      priced at the product's current price; a line whose product is gone
      throws. */
  function OrderLines(items: seq<CartItem>, products: seq<Product>): (r: Outcome<seq<OrderItem>>)
    ensures r.Ok? <==> forall i :: 0 <= i < |items| ==> Priced(products, items[i])
    ensures r.Err? ==> r.error == ProductMissing
    ensures r.Ok? ==> |r.value| == |items|
    ensures r.Ok? ==> forall i :: 0 <= i < |items| ==>
              r.value[i] == OrderLine(items[i], FindProduct(products, items[i].productId).value)
  {
    if |items| == 0 then Ok([])
    else if !Priced(products, items[0]) then Err(ProductMissing)
    else
      var p := FindProduct(products, items[0].productId).value;
      var rest := OrderLines(items[1..], products);
      assert forall i :: 1 <= i < |items| ==> items[i] == items[1..][i - 1];
      if rest.Err? then Err(rest.error)
      else Ok([OrderLine(items[0], p)] + rest.value)
  }

  /** `items.reduce((sum, item) => sum + item.subtotal, 0)`. */
  function SumSubtotals(lines: seq<OrderItem>): (t: int)
    ensures (forall i :: 0 <= i < |lines| ==> lines[i].subtotal >= 0) ==> t >= 0
  {
    if |lines| == 0 then 0 else SumSubtotals(lines[..|lines| - 1]) + lines[|lines| - 1].subtotal
  }

  /** The cart's worth at current catalog prices, summed line by line from
      the front; a line whose product is gone counts nothing. */
  function CatalogTotal(items: seq<CartItem>, products: seq<Product>): int {
    if |items| == 0 then 0
    else (match FindProduct(products, items[0].productId)
          case Some(p) => p.price * items[0].quantity
          case None => 0)
         + CatalogTotal(items[1..], products)
  }

  lemma {:induction false} SumSubtotalsCons(x: OrderItem, rest: seq<OrderItem>)
    ensures SumSubtotals([x] + rest) == x.subtotal + SumSubtotals(rest)
    decreases |rest|
  {
    if |rest| > 0 {
      var all := [x] + rest;
      assert all[..|all| - 1] == [x] + rest[..|rest| - 1];
      SumSubtotalsCons(x, rest[..|rest| - 1]);
    }
  }

  /** When checkout can price every line, the order's total is the cart's
      worth at the current catalog prices. */
  lemma {:induction false} OrderTotalAtCurrentPrices(items: seq<CartItem>, products: seq<Product>)
    requires OrderLines(items, products).Ok?
    ensures SumSubtotals(OrderLines(items, products).value) == CatalogTotal(items, products)
    decreases |items|
  {
    if |items| > 0 {
      var p := FindProduct(products, items[0].productId).value;
      var rest := OrderLines(items[1..], products).value;
      SumSubtotalsCons(OrderLine(items[0], p), rest);
      OrderTotalAtCurrentPrices(items[1..], products);
    }
  }

  /** `String(count + 1).padStart(4, '0')`: the number of the order placed
      when `count` orders are stored. */
  function OrderNumber(count: nat): (r: string)
    ensures |r| == if count + 1 < 10000 then 4 else |Decimal(count + 1)|
    ensures AllDigits(r)
    ensures ParseDecimal(r) == count + 1
  {
    PaddedNumeral(count + 1, 4);
    FourDigitBound(count + 1);
    PadStart(Decimal(count + 1), 4, '0')
  }

  /** Different order counts give different order numbers. */
  lemma OrderNumbersDistinct(a: nat, b: nat)
    requires a != b
    ensures OrderNumber(a) != OrderNumber(b)
  {
    assert ParseDecimal(OrderNumber(a)) != ParseDecimal(OrderNumber(b));
  }

  /** The seventh order, placed when six are stored, is number "0007". */
  lemma SeventhOrderNumber()
    ensures OrderNumber(6) == "0007"
  {
    assert Decimal(7) == "7";
  }

  /** The order `apiCreateOrder` builds, or the message it throws. The
      address is taken as given. */
  function PlaceOrder(items: seq<CartItem>, products: seq<Product>, orders: seq<Order>,
                      user: Session, address: string, orderId: string, now: string)
    : (r: Outcome<Order>)
    ensures |items| == 0 ==> r == Err(EmptyCart)
    ensures r.Ok? <==> |items| > 0 && OrderLines(items, products).Ok?
    ensures r.Err? && |items| > 0 ==> r.error == ProductMissing
    ensures r.Ok? ==>
              var o := r.value;
              o.id == orderId && o.orderNumber == OrderNumber(|orders|)
              && o.userId == user.id && o.userName == user.name && o.userEmail == user.email
              && o.customerName == user.name && o.address == address && o.status == Pending
              && o.items == OrderLines(items, products).value
              && o.total == SumSubtotals(o.items) && o.total == CatalogTotal(items, products)
              && o.createdAt == now
  {
    if |items| == 0 then Err(EmptyCart)
    else match OrderLines(items, products)
      case Err(e) => Err(e)
      case Ok(lines) =>
        OrderTotalAtCurrentPrices(items, products);
        Ok(Order(orderId, OrderNumber(|orders|), user.id, user.name, user.email, user.name,
                 address, lines, SumSubtotals(lines), Pending, now))
  }

  /** `apiGetOrders`: nothing without a user, every order for an admin,
      otherwise exactly the user's own, in stored order. */
  function GetOrders(orders: seq<Order>, user: Option<Session>): (r: seq<Order>)
    ensures user.None? ==> r == []
    ensures user.Some? && user.value.role == Admin ==> r == orders
    ensures user.Some? && user.value.role != Admin ==>
              (forall k :: 0 <= k < |r| ==> r[k] in orders && r[k].userId == user.value.id)
              && (forall k :: 0 <= k < |orders| && orders[k].userId == user.value.id ==> orders[k] in r)
              && SubsequenceOf(r, orders)
              && (forall x :: multiset(r)[x] == if x.userId == user.value.id then multiset(orders)[x] else 0)
  {
    match user
    case None => []
    case Some(u) =>
      if u.role == Admin then orders
      else
        FilterIsSubsequence(orders, (o: Order) => o.userId == u.id);
        FilterCounts(orders, (o: Order) => o.userId == u.id);
        Filter(orders, (o: Order) => o.userId == u.id)
  }

  /** `orders.findIndex(o => o.id === orderId)`. */
  function OrderIndex(orders: seq<Order>, orderId: string): (r: Option<nat>)
    ensures r.Some? ==> r.value < |orders| && orders[r.value].id == orderId
    ensures r.Some? ==> forall k :: 0 <= k < r.value ==> orders[k].id != orderId
    ensures r.None? <==> forall k :: 0 <= k < |orders| ==> orders[k].id != orderId
  {
    FirstIndex(orders, (o: Order) => o.id == orderId)
  }

  /** A placed order shows up in its owner's list. */
  lemma PlacedOrderListedForOwner(orders: seq<Order>, o: Order, user: Session)
    requires o.userId == user.id
    ensures o in GetOrders(orders + [o], Some(user))
  {
    assert (orders + [o])[|orders|] == o;
  }

  /** Placing an order extends its owner's list by exactly that order and
      leaves every other customer's list as it was. */
  lemma ListAfterPlacing(orders: seq<Order>, o: Order, user: Session)
    requires user.role != Admin
    ensures GetOrders(orders + [o], Some(user))
            == GetOrders(orders, Some(user)) + (if o.userId == user.id then [o] else [])
  {
    FilterAppend(orders, [o], (x: Order) => x.userId == user.id);
  }

  // --------------------------------------------------------- the backend

  class LocalStore {
    var users: seq<User>
    var products: seq<Product>
    var orders: seq<Order>
    /** One stored cart per user id; a user without one has an empty cart. */
    var carts: map<string, seq<CartItem>>

    constructor (users: seq<User>, products: seq<Product>, orders: seq<Order>)
      ensures this.users == users && this.products == products && this.orders == orders
      ensures carts == map[]
      ensures Valid() <==> UniqueEmails(users)
    {
      this.users := users;
      this.products := products;
      this.orders := orders;
      carts := map[];
    }

    /** The invariant the functions keep: e-mails are unique and no cart
        holds two lines of one product. */
    ghost predicate Valid()
      reads this
    {
      UniqueEmails(users) && CartsValid(carts)
    }

    /** The stored cart; `load` falls back to an empty one. */
    function CartOf(userId: string): (r: seq<CartItem>)
      reads this
      ensures userId !in carts ==> r == []
      ensures userId in carts ==> r == carts[userId]
      ensures Valid() ==> UniqueProductIds(r)
    {
      if userId in carts then carts[userId] else []
    }

    /** `apiRegister`. The fresh id and the timestamp are given. */
    method Register(name: string, email: string, password: string, freshId: string, now: string)
      returns (r: Outcome<Registered>)
      modifies this
      ensures var fault := CheckRegistration(old(users), name, email, password);
              if fault.Some? then r == Err(RegistrationMessage(fault.value)) && users == old(users)
              else r == Ok(Registered(freshId, PublicUser(freshId, name, email, Customer)))
                   && users == old(users) + [User(freshId, name, email, password, Customer, now)]
      ensures products == old(products) && orders == old(orders) && carts == old(carts)
      ensures old(Valid()) ==> Valid()
    {
      var fault := CheckRegistration(users, name, email, password);
      if fault.Some? {
        return Err(RegistrationMessage(fault.value));
      }
      var newUser := User(freshId, name, email, password, Customer, now);
      if UniqueEmails(users) {
        RegistrationKeepsEmailsUnique(users, newUser);
      }
      users := users + [newUser];
      r := Ok(Registered(newUser.id, Public(newUser)));
    }

    /** `apiSaveProduct`: with an editing id (the empty string standing for
        none), throws for an unknown id and otherwise overwrites the form's
        fields of the first product with that id; without one, appends a
        product under the fresh id. Returns the whole catalog. */
    method SaveProduct(form: ProductForm, editingId: string, freshId: string)
      returns (r: Outcome<seq<Product>>)
      modifies this
      ensures editingId == "" ==>
                products == old(products) + [FromForm(form, freshId)] && r == Ok(products)
      ensures editingId != "" && ProductIndex(old(products), editingId).None? ==>
                r == Err(ProductNotFound) && products == old(products)
      ensures editingId != "" && ProductIndex(old(products), editingId).Some? ==>
                var k := ProductIndex(old(products), editingId).value;
                products == old(products)[k := FromForm(form, editingId)] && r == Ok(products)
      ensures users == old(users) && orders == old(orders) && carts == old(carts)
      ensures old(Valid()) ==> Valid()
    {
      if editingId != "" {
        var index := ProductIndex(products, editingId);
        if index.None? {
          return Err(ProductNotFound);
        }
        var k := index.value;
        products := products[k := MergeForm(products[k], form)];
      } else {
        products := products + [FromForm(form, freshId)];
      }
      r := Ok(products);
    }

    /** `apiDeleteProduct`: removes every product with the id. */
    method DeleteProduct(id: string) returns (r: seq<Product>)
      modifies this
      ensures r == WithoutProduct(old(products), id) && products == r
      ensures users == old(users) && orders == old(orders) && carts == old(carts)
      ensures old(Valid()) ==> Valid()
    {
      products := WithoutProduct(products, id);
      r := products;
    }

    /** `apiAddToCart`. */
    method AddToCart(userId: string, productId: string, quantity: int, freshId: string)
      returns (r: seq<CartItem>)
      modifies this
      ensures r == AddLine(old(CartOf(userId)), productId, quantity, freshId)
      ensures carts == old(carts)[userId := r]
      ensures users == old(users) && products == old(products) && orders == old(orders)
      ensures old(Valid()) ==> Valid()
    {
      var items := CartOf(userId);
      ghost var stored := items;
      var existing := LineOfProduct(items, productId);
      if existing.Some? {
        var i := existing.value;
        items := items[i := items[i].(quantity := items[i].quantity + quantity)];
      } else {
        items := items + [CartItem(freshId, productId, quantity)];
      }
      assert items == AddLine(stored, productId, quantity, freshId);
      StoreCartKeepsValid(carts, userId, items);
      carts := carts[userId := items];
      r := items;
    }

    /** `apiUpdateCartItem`. */
    method UpdateCartItem(userId: string, itemId: string, quantity: int) returns (r: seq<CartItem>)
      modifies this
      ensures r == SetQuantity(old(CartOf(userId)), itemId, quantity)
      ensures carts == old(carts)[userId := r]
      ensures users == old(users) && products == old(products) && orders == old(orders)
      ensures old(Valid()) ==> Valid()
    {
      r := SetQuantity(CartOf(userId), itemId, quantity);
      StoreCartKeepsValid(carts, userId, r);
      carts := carts[userId := r];
    }

    /** `apiRemoveCartItem`. */
    method RemoveCartItem(userId: string, itemId: string) returns (r: seq<CartItem>)
      modifies this
      ensures r == RemoveLine(old(CartOf(userId)), itemId)
      ensures carts == old(carts)[userId := r]
      ensures users == old(users) && products == old(products) && orders == old(orders)
      ensures old(Valid()) ==> Valid()
    {
      r := RemoveLine(CartOf(userId), itemId);
      StoreCartKeepsValid(carts, userId, r);
      carts := carts[userId := r];
    }

    /** `apiClearCart`. */
    method ClearCart(userId: string)
      modifies this
      ensures carts == old(carts)[userId := []] && CartOf(userId) == []
      ensures users == old(users) && products == old(products) && orders == old(orders)
      ensures old(Valid()) ==> Valid()
    {
      carts := carts[userId := []];
    }

    /** `apiCreateOrder`: on success appends exactly one order and empties
        the user's cart; when it throws, writes nothing. */
    method CreateOrder(user: Session, address: string, orderId: string, now: string)
      returns (r: Outcome<Order>)
      modifies this
      ensures r == PlaceOrder(old(CartOf(user.id)), old(products), old(orders), user, address, orderId, now)
      ensures r.Ok? ==> orders == old(orders) + [r.value] && carts == old(carts)[user.id := []]
      ensures r.Err? ==> orders == old(orders) && carts == old(carts)
      ensures users == old(users) && products == old(products)
      ensures old(Valid()) ==> Valid()
    {
      var cartItems := CartOf(user.id);
      if |cartItems| == 0 {
        return Err(EmptyCart);
      }
      var lines := OrderLines(cartItems, products);
      if lines.Err? {
        return Err(lines.error);
      }
      var total := SumSubtotals(lines.value);
      var orderNumber := OrderNumber(|orders|);
      var newOrder := Order(orderId, orderNumber, user.id, user.name, user.email, user.name,
                            address, lines.value, total, Pending, now);
      assert Ok(newOrder) == PlaceOrder(cartItems, products, orders, user, address, orderId, now);
      Record(newOrder, user.id);
      r := Ok(newOrder);
    }

    /** Saves the new order and the emptied cart of its owner. */
    method Record(order: Order, userId: string)
      modifies this
      ensures orders == old(orders) + [order] && carts == old(carts)[userId := []]
      ensures users == old(users) && products == old(products)
      ensures old(Valid()) ==> Valid()
    {
      orders := orders + [order];
      carts := carts[userId := []];
    }

    /** `apiUpdateOrderStatus`: throws for an unknown id, otherwise
        overwrites the status of the first order with the id and nothing
        else. Nothing here checks the caller's role. */
    method UpdateOrderStatus(orderId: string, newStatus: string) returns (r: Outcome<Order>)
      modifies this
      ensures OrderIndex(old(orders), orderId).None? ==> r == Err(OrderNotFound) && orders == old(orders)
      ensures OrderIndex(old(orders), orderId).Some? ==>
                var k := OrderIndex(old(orders), orderId).value;
                r == Ok(old(orders)[k].(status := newStatus))
                && orders == old(orders)[k := old(orders)[k].(status := newStatus)]
      ensures users == old(users) && products == old(products) && carts == old(carts)
      ensures old(Valid()) ==> Valid()
    {
      var index := OrderIndex(orders, orderId);
      if index.None? {
        return Err(OrderNotFound);
      }
      var k := index.value;
      orders := orders[k := orders[k].(status := newStatus)];
      r := Ok(orders[k]);
    }
  }
}
