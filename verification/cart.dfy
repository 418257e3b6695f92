/** The server-side cart of cartController.js: per-user lines keyed by product,
    every write checked against the product's live stock. */
module Cart {
  import opened Store
  import opened Ledger

  // ---------------------------------------------------------------------------
  // getCart

  /** The product object nested in each cart line of the getCart reply. */
  datatype CartProduct = CartProduct(id: int, name: string, price: int, stock: int, imageUrl: Option<string>, category: int, sellerName: string)

  /** One cart line as the client sees it (the same shape the browser keeps locally). */
  datatype CartEntry = CartEntry(id: int, quantity: int, product: CartProduct)

  /** The getCart reply's item count: the quantities of the listed lines, added up. */
  function TotalItems(entries: seq<CartEntry>): int
  {
    if entries == [] then 0 else TotalItems(entries[..|entries| - 1]) + entries[|entries| - 1].quantity
  }

  /** The getCart reply's total price: each listed line's live price times its quantity, added up. */
  function TotalPrice(entries: seq<CartEntry>): int
  {
    if entries == [] then 0 else TotalPrice(entries[..|entries| - 1]) + entries[|entries| - 1].product.price * entries[|entries| - 1].quantity
  }

  /** Both totals add up over a concatenation: the reply's totals are sums over its lines, in any split. */
  lemma {:induction false} TotalsConcat(a: seq<CartEntry>, b: seq<CartEntry>)
    ensures TotalItems(a + b) == TotalItems(a) + TotalItems(b)
    ensures TotalPrice(a + b) == TotalPrice(a) + TotalPrice(b)
  {
    if b == [] {
      assert a + b == a;
    } else {
      TotalsConcat(a, b[..|b| - 1]);
      assert (a + b)[..|a + b| - 1] == a + b[..|b| - 1];
    }
  }

  function EntryOf(row: CartRow, p: Product, seller: User): CartEntry
  {
    CartEntry(row.id, row.quantity, CartProduct(row.product, p.name, p.price, p.stock, p.imageUrl, p.category, seller.fullName))
  }

  /** The getCart query: the buyer's rows joined with their product and the product's
      seller, in row order; a row whose product or seller is gone drops out. */
  function CartEntries(cart: seq<CartRow>, products: map<int, Product>, users: map<int, User>, buyer: int): (r: seq<CartEntry>)
    ensures |r| <= |cart|
    ensures forall e :: e in r ==> e.product.id in products && e.product.stock == products[e.product.id].stock && e.product.price == products[e.product.id].price
  {
    if cart == [] then []
    else
      var rest := CartEntries(cart[1..], products, users, buyer);
      var row := cart[0];
      if row.user == buyer && row.product in products && products[row.product].seller in users
      then [EntryOf(row, products[row.product], users[products[row.product].seller])] + rest
      else rest
  }

  /** Every listed line is one of the buyer's own rows, with that row's id, product
      and quantity. */
  lemma {:induction false} CartEntriesAreBuyerRows(cart: seq<CartRow>, products: map<int, Product>, users: map<int, User>, buyer: int)
    ensures forall e :: e in CartEntries(cart, products, users, buyer) ==>
      exists row :: row in cart && row.user == buyer && row.id == e.id && row.product == e.product.id && row.quantity == e.quantity
  {
    if cart != [] {
      CartEntriesAreBuyerRows(cart[1..], products, users, buyer);
      forall e | e in CartEntries(cart, products, users, buyer)
        ensures exists row :: row in cart && row.user == buyer && row.id == e.id && row.product == e.product.id && row.quantity == e.quantity
      {
        if e !in CartEntries(cart[1..], products, users, buyer) {
          assert cart[0] in cart;
        } else {
          var row :| row in cart[1..] && row.user == buyer && row.id == e.id && row.product == e.product.id && row.quantity == e.quantity;
          assert row in cart;
        }
      }
    }
  }

  datatype CartView = CartView(items: seq<CartEntry>, totalItems: int, totalPrice: int)

  /** getCart: the caller's joined lines, and the item count and price summed over
      exactly the lines returned. */
  function GetCart(t: Tables, buyer: int): (r: CartView)
    ensures r.items == CartEntries(t.cart, t.products, t.users, buyer)
    ensures forall e :: e in r.items ==> exists row :: row in t.cart && row.user == buyer && row.id == e.id && row.quantity == e.quantity
    ensures r.totalItems == TotalItems(r.items) && r.totalPrice == TotalPrice(r.items)
  {
    CartEntriesAreBuyerRows(t.cart, t.products, t.users, buyer);
    var items := CartEntries(t.cart, t.products, t.users, buyer);
    CartView(items, TotalItems(items), TotalPrice(items))
  }

  /** While every product's seller exists, the cart page lists the same lines, in the
      same order, as createOrder would order; so its total price is the order total
      less the shipping fee. */
  lemma {:induction false} CartEntriesMatchLines(cart: seq<CartRow>, products: map<int, Product>, users: map<int, User>, buyer: int)
    requires forall k :: k in products ==> products[k].seller in users
    ensures var e := CartEntries(cart, products, users, buyer);
      var l := CartLines(cart, products, buyer);
      |e| == |l| &&
      forall i :: 0 <= i < |e| ==> e[i].id == l[i].cartId && e[i].product.id == l[i].product && e[i].quantity == l[i].quantity && e[i].product.price == l[i].price
  {
    if cart != [] {
      CartEntriesMatchLines(cart[1..], products, users, buyer);
    }
  }

  lemma {:induction false} SumsAgree(e: seq<CartEntry>, l: seq<Line>)
    requires |e| == |l|
    requires forall i :: 0 <= i < |e| ==> e[i].quantity == l[i].quantity && e[i].product.price == l[i].price
    ensures TotalPrice(e) == ItemsTotal(l)
  {
    if e != [] {
      SumsAgree(e[..|e| - 1], l[..|l| - 1]);
    }
  }

  lemma GetCartMatchesOrderTotal(t: Tables, buyer: int)
    requires forall k :: k in t.products ==> t.products[k].seller in t.users
    ensures GetCart(t, buyer).totalPrice + ShippingFee == OrderTotal(CartLines(t.cart, t.products, buyer))
  {
    CartEntriesMatchLines(t.cart, t.products, t.users, buyer);
    SumsAgree(CartEntries(t.cart, t.products, t.users, buyer), CartLines(t.cart, t.products, buyer));
  }

  // ---------------------------------------------------------------------------
  // The per-user quantity view of the cart

  /** The quantity `user` holds of `product`: the sum over their lines for it (with one
      line per product, that line's quantity; 0 when there is none). */
  function Quantity(cart: seq<CartRow>, user: int, product: int): int
  {
    if cart == [] then 0 else Quantity(cart[..|cart| - 1], user, product) + Contribution(cart[|cart| - 1], user, product)
  }

  /** What one row adds to the quantity `user` holds of `product`. */
  function Contribution(row: CartRow, user: int, product: int): int
  {
    if row.user == user && row.product == product then row.quantity else 0
  }

  lemma QuantityAppend(cart: seq<CartRow>, row: CartRow, user: int, product: int)
    ensures Quantity(cart + [row], user, product) == Quantity(cart, user, product) + Contribution(row, user, product)
  {
    assert (cart + [row])[..|cart|] == cart;
  }

  /** Replacing one row changes each (user, product) quantity by that row's difference. */
  lemma {:induction false} QuantityReplace(cart: seq<CartRow>, i: int, row: CartRow, user: int, product: int)
    requires 0 <= i < |cart|
    ensures Quantity(cart[i := row], user, product) == Quantity(cart, user, product) - Contribution(cart[i], user, product) + Contribution(row, user, product)
  {
    var n := |cart|;
    if i == n - 1 {
      assert cart[i := row][..n - 1] == cart[..n - 1];
    } else {
      QuantityReplace(cart[..n - 1], i, row, user, product);
      assert cart[i := row][..n - 1] == cart[..n - 1][i := row];
    }
  }

  /** A cart with no row for this user and product holds none of it. */
  lemma {:induction false} QuantityOfOthers(cart: seq<CartRow>, user: int, product: int)
    requires forall i :: 0 <= i < |cart| ==> !(cart[i].user == user && cart[i].product == product)
    ensures Quantity(cart, user, product) == 0
  {
    if cart != [] {
      QuantityOfOthers(cart[..|cart| - 1], user, product);
    }
  }

  // ---------------------------------------------------------------------------
  // Row lookups and the quantity UPDATE

  /** The first cart row this user holds for this product, if any. */
  function FindLine(cart: seq<CartRow>, user: int, product: int): (r: Option<nat>)
    ensures r.Some? ==> r.value < |cart| && cart[r.value].user == user && cart[r.value].product == product
    ensures r.None? ==> forall i :: 0 <= i < |cart| ==> !(cart[i].user == user && cart[i].product == product)
  {
    if cart == [] then None
    else if cart[0].user == user && cart[0].product == product then Some(0)
    else match FindLine(cart[1..], user, product)
      case Some(k) => Some(k + 1)
      case None => None
  }

  /** The first row with this id that belongs to the user and whose product still
      exists (the join with products drops the others). */
  function FindOwned(cart: seq<CartRow>, products: map<int, Product>, id: int, user: int): (r: Option<nat>)
    ensures r.Some? ==> r.value < |cart| && cart[r.value].id == id && cart[r.value].user == user && cart[r.value].product in products
    ensures r.None? ==> forall i :: 0 <= i < |cart| ==> !(cart[i].id == id && cart[i].user == user && cart[i].product in products)
  {
    if cart == [] then None
    else if cart[0].id == id && cart[0].user == user && cart[0].product in products then Some(0)
    else match FindOwned(cart[1..], products, id, user)
      case Some(k) => Some(k + 1)
      case None => None
  }

  /** The quantity write: every row with this id takes the new quantity. */
  function SetQuantity(cart: seq<CartRow>, id: int, quantity: int): (r: seq<CartRow>)
    ensures |r| == |cart|
    ensures forall i :: 0 <= i < |cart| ==> r[i] == if cart[i].id == id then cart[i].(quantity := quantity) else cart[i]
  {
    if cart == [] then []
    else [if cart[0].id == id then cart[0].(quantity := quantity) else cart[0]] + SetQuantity(cart[1..], id, quantity)
  }

  /** With distinct line ids the UPDATE touches exactly the one line carrying the id. */
  lemma SetQuantityOneLine(cart: seq<CartRow>, i: int, quantity: int)
    requires DistinctCartIds(cart) && 0 <= i < |cart|
    ensures SetQuantity(cart, cart[i].id, quantity) == cart[i := cart[i].(quantity := quantity)]
  {
    var r := SetQuantity(cart, cart[i].id, quantity);
    forall j | 0 <= j < |cart| ensures r[j] == cart[i := cart[i].(quantity := quantity)][j] {
      if j < i {
        assert cart[j].id != cart[i].id;
      } else if j > i {
        assert cart[i].id != cart[j].id;
      }
    }
  }

  // ---------------------------------------------------------------------------
  // addToCart

  /** The quantity the request asks for: the body's quantity, 1 when it is absent. */
  function Requested(quantity: Option<int>): int
  {
    if quantity.Some? then quantity.value else 1
  }

  /** The stock checks of addToCart: the product exists, holds the requested
      quantity, and holds the merged quantity when the buyer already has a line for it. */
  predicate AddAccepted(cart: seq<CartRow>, products: map<int, Product>, user: int, product: int, q: int)
  {
    && product in products
    && q <= products[product].stock
    && (FindLine(cart, user, product).Some? ==> cart[FindLine(cart, user, product).value].quantity + q <= products[product].stock)
  }

  /** The cart after a successful addToCart: the existing line of the buyer for the
      product takes the merged quantity, or a new line with the next id is appended. */
  function AddedCart(cart: seq<CartRow>, nextId: int, user: int, product: int, q: int): seq<CartRow>
  {
    match FindLine(cart, user, product)
    case Some(i) => SetQuantity(cart, cart[i].id, cart[i].quantity + q)
    case None => cart + [CartRow(nextId, user, product, q)]
  }

  /** Re-adding merges: the buyer's quantity of the product rises by exactly the
      requested amount, every other (user, product) quantity stays, and a second line
      is added only when the buyer had none for the product. */
  lemma AddedCartQuantity(cart: seq<CartRow>, nextId: int, user: int, product: int, q: int)
    requires DistinctCartIds(cart)
    ensures forall u, p :: Quantity(AddedCart(cart, nextId, user, product, q), u, p) == Quantity(cart, u, p) + (if u == user && p == product then q else 0)
    ensures |AddedCart(cart, nextId, user, product, q)| == |cart| + (if FindLine(cart, user, product).None? then 1 else 0)
  {
    var r := AddedCart(cart, nextId, user, product, q);
    match FindLine(cart, user, product)
    case Some(i) =>
      var row := cart[i].(quantity := cart[i].quantity + q);
      SetQuantityOneLine(cart, i, cart[i].quantity + q);
      assert r == cart[i := row];
      forall u, p ensures Quantity(r, u, p) == Quantity(cart, u, p) + (if u == user && p == product then q else 0) {
        QuantityReplace(cart, i, row, u, p);
      }
    case None =>
      var row := CartRow(nextId, user, product, q);
      assert r == cart + [row];
      forall u, p ensures Quantity(r, u, p) == Quantity(cart, u, p) + (if u == user && p == product then q else 0) {
        QuantityAppend(cart, row, u, p);
      }
  }

  /** addToCart keeps line ids distinct and below the counter, and one line per (user, product). */
  lemma AddedCartValid(cart: seq<CartRow>, nextId: int, user: int, product: int, q: int)
    requires DistinctCartIds(cart) && OneLinePerProduct(cart)
    requires forall i :: 0 <= i < |cart| ==> cart[i].id < nextId
    ensures var r := AddedCart(cart, nextId, user, product, q);
      DistinctCartIds(r) && OneLinePerProduct(r) && forall i :: 0 <= i < |r| ==> r[i].id < nextId + 1
  {
    match FindLine(cart, user, product)
    case Some(i) =>
      var row := cart[i].(quantity := cart[i].quantity + q);
      SetQuantityOneLine(cart, i, cart[i].quantity + q);
      assert AddedCart(cart, nextId, user, product, q) == cart[i := row];
      ReplaceKeepsCartValid(cart, i, row, nextId);
    case None =>
      var row := CartRow(nextId, user, product, q);
      assert AddedCart(cart, nextId, user, product, q) == cart + [row];
      AppendKeepsCartValid(cart, row, nextId);
  }

  lemma ReplaceKeepsCartValid(cart: seq<CartRow>, i: int, row: CartRow, nextId: int)
    requires DistinctCartIds(cart) && OneLinePerProduct(cart)
    requires forall j :: 0 <= j < |cart| ==> cart[j].id < nextId
    requires 0 <= i < |cart| && row.id == cart[i].id && row.user == cart[i].user && row.product == cart[i].product
    ensures var r := cart[i := row];
      DistinctCartIds(r) && OneLinePerProduct(r) && forall j :: 0 <= j < |r| ==> r[j].id < nextId + 1
  {
    var r := cart[i := row];
    assert forall j :: 0 <= j < |r| ==> r[j].id == cart[j].id && r[j].user == cart[j].user && r[j].product == cart[j].product;
  }

  lemma AppendKeepsCartValid(cart: seq<CartRow>, row: CartRow, nextId: int)
    requires DistinctCartIds(cart) && OneLinePerProduct(cart)
    requires forall j :: 0 <= j < |cart| ==> cart[j].id < nextId
    requires row.id == nextId
    requires forall j :: 0 <= j < |cart| ==> !(cart[j].user == row.user && cart[j].product == row.product)
    ensures var r := cart + [row];
      DistinctCartIds(r) && OneLinePerProduct(r) && forall j :: 0 <= j < |r| ==> r[j].id < nextId + 1
  {
    var r := cart + [row];
    assert forall j :: 0 <= j < |cart| ==> r[j] == cart[j];
    assert r[|cart|] == row;
  }

  /** The write of an accepted addToCart: the cart becomes the merged or appended
      cart, the line counter moves on only when a line is appended. */
  method WriteAdded(db: Database, user: int, product: int, q: int)
    requires db.Valid()
    modifies db
    ensures db.Valid()
    ensures db.Content() == old(db.Content()).(cart := AddedCart(old(db.cart), old(db.nextCartId), user, product, q))
  {
    var added := AddedCart(db.cart, db.nextCartId, user, product, q);
    AddedCartValid(db.cart, db.nextCartId, user, product, q);
    match FindLine(db.cart, user, product)
    case Some(i) =>
      assert forall j :: 0 <= j < |added| ==> added[j].id == db.cart[j].id;
      db.cart := added;
    case None =>
      db.cart := added;
      db.nextCartId := db.nextCartId + 1;
  }

  /** addToCart: an unknown product is 404, too little stock 400; otherwise the
      quantity merges into the buyer's existing line for the product, or a new line
      is inserted. The quantity itself is not checked to be positive. */
  method AddToCart(db: Database, user: int, product: int, quantity: Option<int>) returns (code: int)
    requires db.Valid()
    modifies db
    ensures db.Valid()
    ensures product !in old(db.products) ==> code == 404
    ensures product in old(db.products) ==> (code == 200 <==> AddAccepted(old(db.cart), old(db.products), user, product, Requested(quantity)))
    ensures product in old(db.products) && code != 200 ==> code == 400
    ensures code != 200 ==> unchanged(db)
    ensures code == 200 ==> db.Content() == old(db.Content()).(cart := AddedCart(old(db.cart), old(db.nextCartId), user, product, Requested(quantity)))
  {
    var q := Requested(quantity);
    if product !in db.products {
      return 404;
    }
    if db.products[product].stock < q {
      return 400;
    }
    var existing := FindLine(db.cart, user, product);
    if existing.Some? && db.products[product].stock < db.cart[existing.value].quantity + q {
      return 400;
    }
    WriteAdded(db, user, product, q);
    return 200;
  }

  /** Every quantity addToCart writes is within the product's stock at the time of
      the write, and the buyer still has one line for the product. */
  lemma AddToCartWithinStock(cart: seq<CartRow>, products: map<int, Product>, user: int, product: int, q: int)
    requires OneLinePerProduct(cart)
    requires AddAccepted(cart, products, user, product, q)
    ensures Quantity(cart, user, product) + q <= products[product].stock
  {
    match FindLine(cart, user, product)
    case None => QuantityOfOthers(cart, user, product);
    case Some(i) => QuantityOfOneLine(cart, user, product, i);
  }

  /** With one line per (user, product), the quantity held is that line's quantity. */
  lemma {:induction false} QuantityOfOneLine(cart: seq<CartRow>, user: int, product: int, i: int)
    requires OneLinePerProduct(cart)
    requires 0 <= i < |cart| && cart[i].user == user && cart[i].product == product
    ensures Quantity(cart, user, product) == cart[i].quantity
  {
    var n := |cart|;
    var front := cart[..n - 1];
    assert OneLinePerProduct(front);
    if i == n - 1 {
      forall j | 0 <= j < |front| ensures !(front[j].user == user && front[j].product == product) {
        assert front[j] == cart[j];
      }
      QuantityOfOthers(front, user, product);
    } else {
      QuantityOfOneLine(front, user, product, i);
      assert !(cart[n - 1].user == user && cart[n - 1].product == product);
    }
  }

  /** A quantity of zero or below passes every guard of addToCart whenever the product
      exists with non-negative stock: a line of -3 is inserted, and ordering that cart
      raises the product's stock by 3 and prices the line at -3 units. */
  lemma NonPositiveQuantityAccepted()
    ensures var products := map[7 := Product(1, "A", None, 100000, 1, 5, None)];
      var cart := [CartRow(1, 2, 7, -3)];
      var lines := CartLines(cart, products, 2);
      && AddAccepted([], products, 2, 7, -3)
      && lines == [Line(1, 7, -3, "A", 100000, 5, 1)]
      && Decremented(products, lines)[7].stock == 8
      && OrderTotal(lines) == -270000
  {
    var products := map[7 := Product(1, "A", None, 100000, 1, 5, None)];
    var lines := CartLines([CartRow(1, 2, 7, -3)], products, 2);
    assert lines == [Line(1, 7, -3, "A", 100000, 5, 1)];
    assert lines[..0] == [];
    assert Decremented(products, lines) == Take(products, 7, -3);
    assert ItemsTotal(lines) == ItemsTotal(lines[..0]) + Subtotal(lines[0]);
  }

  /** All cart quantities are at least one: the bound updateCartItem enforces. */
  predicate PositiveQuantities(cart: seq<CartRow>)
  {
    forall i :: 0 <= i < |cart| ==> cart[i].quantity >= 1
  }

  /** addToCart with the quantity check updateCartItem already makes: a quantity
      below one is refused with 400 before anything is read. */
  method AddToCartChecked(db: Database, user: int, product: int, quantity: Option<int>) returns (code: int)
    requires db.Valid()
    modifies db
    ensures db.Valid()
    ensures Requested(quantity) < 1 ==> code == 400
    ensures Requested(quantity) >= 1 && product !in old(db.products) ==> code == 404
    ensures Requested(quantity) >= 1 && product in old(db.products) ==>
      (code == 200 <==> AddAccepted(old(db.cart), old(db.products), user, product, Requested(quantity)))
    ensures Requested(quantity) >= 1 && product in old(db.products) && code != 200 ==> code == 400
    ensures code != 200 ==> unchanged(db)
    ensures code == 200 ==> db.Content() == old(db.Content()).(cart := AddedCart(old(db.cart), old(db.nextCartId), user, product, Requested(quantity)))
    ensures PositiveQuantities(old(db.cart)) ==> PositiveQuantities(db.cart)
  {
    if Requested(quantity) < 1 {
      return 400;
    }
    code := AddToCart(db, user, product, quantity);
  }

  /** With every quantity at least one, placing the cart as an order can only lower
      stock, never raise it. */
  lemma {:induction false} PositiveCartNeverRaisesStock(cart: seq<CartRow>, products: map<int, Product>, buyer: int, k: int)
    requires PositiveQuantities(cart)
    requires k in products
    ensures k in Decremented(products, CartLines(cart, products, buyer))
    ensures Decremented(products, CartLines(cart, products, buyer))[k].stock <= products[k].stock
  {
    var lines := CartLines(cart, products, buyer);
    CartLinesJoin(cart, products, buyer);
    forall l | l in lines ensures l.quantity >= 1 {
      var row :| row in cart && row.user == buyer && row.product in products && l == JoinLine(row, products[row.product]);
      var j :| 0 <= j < |cart| && cart[j] == row;
    }
    QtyForPositive(lines, k);
    DecrementedAt(products, lines, k);
  }

  lemma {:induction false} QtyForPositive(lines: seq<Line>, k: int)
    requires forall l :: l in lines ==> l.quantity >= 1
    ensures QtyFor(lines, k) >= 0
  {
    if lines != [] {
      assert forall l :: l in lines[..|lines| - 1] ==> l in lines;
      QtyForPositive(lines[..|lines| - 1], k);
    }
  }

  // ---------------------------------------------------------------------------
  // updateCartItem, removeFromCart, clearCart

  /** Setting the quantity of line `i` (the UPDATE by line id) gives its (user,
      product) exactly that quantity and leaves every other quantity as it was. */
  lemma SetQuantityEffect(cart: seq<CartRow>, i: int, quantity: int)
    requires DistinctCartIds(cart) && OneLinePerProduct(cart) && 0 <= i < |cart|
    ensures forall u, p :: Quantity(SetQuantity(cart, cart[i].id, quantity), u, p) == (if u == cart[i].user && p == cart[i].product then quantity else Quantity(cart, u, p))
    ensures var r := SetQuantity(cart, cart[i].id, quantity);
      DistinctCartIds(r) && OneLinePerProduct(r) && forall j :: 0 <= j < |r| ==> r[j].id == cart[j].id
  {
    var row := cart[i].(quantity := quantity);
    SetQuantityOneLine(cart, i, quantity);
    var r := SetQuantity(cart, cart[i].id, quantity);
    assert r == cart[i := row];
    forall u, p ensures Quantity(r, u, p) == if u == cart[i].user && p == cart[i].product then quantity else Quantity(cart, u, p) {
      QuantityReplace(cart, i, row, u, p);
      if u == cart[i].user && p == cart[i].product {
        QuantityOfOneLine(cart, u, p, i);
      }
    }
  }

  /** updateCartItem: a quantity below one is 400; a line that is not the caller's (or
      whose product is gone) is 404; more than the stock is 400; otherwise the line
      takes the quantity. An absent quantity passes both comparisons (`undefined < 1`
      and `stock < undefined` are false) and reaches the UPDATE with NULL bound, which
      the NOT NULL quantity column refuses; the handler reports that as 500. */
  method UpdateCartItem(db: Database, user: int, id: int, quantity: Option<int>) returns (code: int)
    requires db.Valid()
    modifies db
    ensures db.Valid()
    ensures quantity.Some? && quantity.value < 1 ==> code == 400
    ensures !(quantity.Some? && quantity.value < 1) && FindOwned(old(db.cart), old(db.products), id, user).None? ==> code == 404
    ensures quantity.Some? && quantity.value >= 1 && FindOwned(old(db.cart), old(db.products), id, user).Some? ==>
      var i := FindOwned(old(db.cart), old(db.products), id, user).value;
      code == (if quantity.value <= old(db.products)[old(db.cart)[i].product].stock then 200 else 400)
    ensures quantity.None? && FindOwned(old(db.cart), old(db.products), id, user).Some? ==> code == 500
    ensures code != 200 ==> unchanged(db)
    ensures code == 200 ==> quantity.Some? && db.Content() == old(db.Content()).(cart := SetQuantity(old(db.cart), id, quantity.value))
    ensures PositiveQuantities(old(db.cart)) ==> PositiveQuantities(db.cart)
  {
    if quantity.Some? && quantity.value < 1 {
      return 400;
    }
    var found := FindOwned(db.cart, db.products, id, user);
    if found.None? {
      return 404;
    }
    var i := found.value;
    if quantity.None? {
      return 500;
    }
    if db.products[db.cart[i].product].stock < quantity.value {
      return 400;
    }
    SetQuantityEffect(db.cart, i, quantity.value);
    db.cart := SetQuantity(db.cart, id, quantity.value);
    return 200;
  }

  /** removeFromCart: deletes the caller's line with that id; 404 when no row matched. */
  method RemoveFromCart(db: Database, user: int, id: int) returns (code: int)
    requires db.Valid()
    modifies db
    ensures db.Valid()
    ensures db.Content() == old(db.Content()).(cart := WithoutLine(old(db.cart), id, user))
    ensures code == 404 <==> forall i :: 0 <= i < |old(db.cart)| ==> !(old(db.cart)[i].id == id && old(db.cart)[i].user == user)
    ensures code == 404 ==> db.cart == old(db.cart)
    ensures code != 404 ==> code == 200
    ensures forall row :: row in db.cart <==> row in old(db.cart) && !(row.id == id && row.user == user)
    ensures PositiveQuantities(old(db.cart)) ==> PositiveQuantities(db.cart)
  {
    var before := |db.cart|;
    db.cart := WithoutLine(db.cart, id, user);
    var affectedRows := before - |db.cart|;
    if affectedRows == 0 {
      return 404;
    }
    return 200;
  }

  /** clearCart: deletes every line of the caller and no other. */
  method ClearCart(db: Database, user: int) returns (code: int)
    requires db.Valid()
    modifies db
    ensures db.Valid()
    ensures code == 200
    ensures db.Content() == old(db.Content()).(cart := WithoutUser(old(db.cart), user))
    ensures forall row :: row in db.cart <==> row in old(db.cart) && row.user != user
    ensures forall p :: Quantity(db.cart, user, p) == 0
    ensures PositiveQuantities(old(db.cart)) ==> PositiveQuantities(db.cart)
  {
    db.cart := WithoutUser(db.cart, user);
    forall p ensures Quantity(db.cart, user, p) == 0 {
      forall i | 0 <= i < |db.cart| ensures db.cart[i].user != user {
        assert db.cart[i] in db.cart;
      }
      QuantityOfOthers(db.cart, user, p);
    }
    return 200;
  }
}
