/** The marketplace's relational store, held in memory: one field per table.
    Rows are datatypes; tables whose rows are found by id are maps, tables the
    controllers scan in row order (cart_items, order_items, payment_transactions)
    are sequences in insertion order. Auto-increment ids are explicit counters. */
module Store {

  datatype Option<T> = None | Some(value: T)

  /** JavaScript truthiness of an optional string: present and non-empty. */
  predicate Truthy(s: Option<string>)
  {
    s.Some? && s.value != ""
  }

  /** The role reported to the frontend: the stored 'customer' reads as 'buyer';
      every other stored role is reported unchanged. */
  function FrontendRole(stored: string): (r: string)
    ensures stored == "customer" ==> r == "buyer"
    ensures stored != "customer" ==> r == stored
  {
    if stored == "customer" then "buyer" else stored
  }

  /** Every order status string the controllers read or write. */
  datatype Status = Pending | Paid | Confirmed | Processing | Shipped | Delivered | Cancelled

  /** The string stored in `orders.status`. */
  function StatusName(s: Status): string
  {
    match s
    case Pending => "pending"
    case Paid => "paid"
    case Confirmed => "confirmed"
    case Processing => "processing"
    case Shipped => "shipped"
    case Delivered => "delivered"
    case Cancelled => "cancelled"
  }

  /** Reads a status string back; `None` for a string no status is stored as. */
  function ParseStatus(name: string): (r: Option<Status>)
    ensures r.Some? ==> StatusName(r.value) == name
    ensures r.None? ==> forall s :: StatusName(s) != name
  {
    if name == "pending" then Some(Pending)
    else if name == "paid" then Some(Paid)
    else if name == "confirmed" then Some(Confirmed)
    else if name == "processing" then Some(Processing)
    else if name == "shipped" then Some(Shipped)
    else if name == "delivered" then Some(Delivered)
    else if name == "cancelled" then Some(Cancelled)
    else None
  }

  /** A `users` row. `role` is the stored string ('customer', 'seller', ...). */
  datatype User = User(
    fullName: string,
    email: string,
    passwordHash: string,
    phone: Option<string>,
    address: Option<string>,
    role: string,
    resetToken: Option<string>,
    resetExpires: Option<int>)

  /** A `products` row; `stock` is `stock_quantity`, prices are whole dong. */
  datatype Product = Product(
    seller: int,
    name: string,
    description: Option<string>,
    price: int,
    category: int,
    stock: int,
    imageUrl: Option<string>)

  /** A `cart_items` row. */
  datatype CartRow = CartRow(id: int, user: int, product: int, quantity: int)

  datatype CancelledBy = ByBuyer | BySeller

  /** An `orders` row (timestamps are not modelled). */
  datatype Order = Order(
    owner: int,
    shippingAddress: string,
    total: int,
    status: Status,
    paymentMethod: Option<string>,
    cancelReason: Option<string>,
    cancelledBy: Option<CancelledBy>)

  /** An `order_items` row: a snapshot of the product taken when the order was placed. */
  datatype OrderItem = OrderItem(
    order: int,
    product: int,
    seller: int,
    name: string,
    price: int,
    quantity: int,
    subtotal: int)

  datatype TxnStatus = TxnPending | TxnSuccess | TxnFailed

  /** A `payment_transactions` row. */
  datatype Txn = Txn(
    order: int,
    amount: int,
    payMethod: string,
    status: TxnStatus,
    transactionNo: Option<string>,
    bankCode: Option<string>,
    payDate: Option<string>,
    responseCode: Option<string>)

  /** At most one cart line per (user, product): what the merge in addToCart keeps. */
  predicate OneLinePerProduct(cart: seq<CartRow>)
  {
    forall i, j :: 0 <= i < j < |cart| && cart[i].user == cart[j].user ==> cart[i].product != cart[j].product
  }

  predicate DistinctCartIds(cart: seq<CartRow>)
  {
    forall i, j :: 0 <= i < j < |cart| ==> cart[i].id != cart[j].id
  }

  /** The rows a `DELETE ... WHERE` leaves behind: those `keep` accepts, in order. */
  function FilterRows(cart: seq<CartRow>, keep: CartRow -> bool): (r: seq<CartRow>)
    ensures |r| <= |cart|
    ensures forall row :: row in r <==> row in cart && keep(row)
    ensures |r| == |cart| <==> forall i :: 0 <= i < |cart| ==> keep(cart[i])
    ensures |r| == |cart| ==> r == cart
  {
    if cart == [] then []
    else if keep(cart[0]) then [cart[0]] + FilterRows(cart[1..], keep)
    else FilterRows(cart[1..], keep)
  }

  /** Deleting rows keeps ids distinct and keeps one line per (user, product). */
  lemma {:induction false} FilterKeepsCartInvariants(cart: seq<CartRow>, keep: CartRow -> bool)
    requires DistinctCartIds(cart) && OneLinePerProduct(cart)
    ensures DistinctCartIds(FilterRows(cart, keep)) && OneLinePerProduct(FilterRows(cart, keep))
  {
    if cart != [] {
      var rest := cart[1..];
      assert DistinctCartIds(rest) && OneLinePerProduct(rest) by {
        forall i, j | 0 <= i < j < |rest| ensures rest[i].id != rest[j].id {
          assert rest[i] == cart[i + 1] && rest[j] == cart[j + 1];
        }
        forall i, j | 0 <= i < j < |rest| && rest[i].user == rest[j].user ensures rest[i].product != rest[j].product {
          assert rest[i] == cart[i + 1] && rest[j] == cart[j + 1];
        }
      }
      FilterKeepsCartInvariants(rest, keep);
      if keep(cart[0]) {
        var f := FilterRows(rest, keep);
        var r := [cart[0]] + f;
        forall k | 0 <= k < |f| ensures f[k].id != cart[0].id && (f[k].user == cart[0].user ==> f[k].product != cart[0].product) {
          assert f[k] in rest;
          var j :| 0 <= j < |rest| && rest[j] == f[k];
          assert cart[j + 1] == f[k];
        }
        assert FilterRows(cart, keep) == r;
        forall i, j | 0 <= i < j < |r| ensures r[i].id != r[j].id && (r[i].user == r[j].user ==> r[i].product != r[j].product) {
          assert r[j] == f[j - 1];
          if i > 0 {
            assert r[i] == f[i - 1];
          }
        }
      } else {
        assert FilterRows(cart, keep) == FilterRows(rest, keep);
      }
    }
  }

  /** Emptying a user's cart: every row of that user goes, every other row stays. */
  function WithoutUser(cart: seq<CartRow>, user: int): (r: seq<CartRow>)
    ensures forall row :: row in r <==> row in cart && row.user != user
    ensures DistinctCartIds(cart) && OneLinePerProduct(cart) ==> DistinctCartIds(r) && OneLinePerProduct(r)
  {
    var keep := (row: CartRow) => row.user != user;
    if DistinctCartIds(cart) && OneLinePerProduct(cart) then
      FilterKeepsCartInvariants(cart, keep);
      FilterRows(cart, keep)
    else FilterRows(cart, keep)
  }

  /** Removing one cart line: the row with this id goes only if it belongs to the user. */
  function WithoutLine(cart: seq<CartRow>, id: int, user: int): (r: seq<CartRow>)
    ensures forall row :: row in r <==> row in cart && !(row.id == id && row.user == user)
    ensures DistinctCartIds(cart) && OneLinePerProduct(cart) ==> DistinctCartIds(r) && OneLinePerProduct(r)
  {
    var keep := (row: CartRow) => !(row.id == id && row.user == user);
    if DistinctCartIds(cart) && OneLinePerProduct(cart) then
      FilterKeepsCartInvariants(cart, keep);
      FilterRows(cart, keep)
    else FilterRows(cart, keep)
  }

  /** The order items of one order, in row order. */
  function ItemsOf(items: seq<OrderItem>, order: int): (r: seq<OrderItem>)
    ensures |r| <= |items|
    ensures forall it :: it in r <==> it in items && it.order == order
  {
    if items == [] then []
    else if items[0].order == order then [items[0]] + ItemsOf(items[1..], order)
    else ItemsOf(items[1..], order)
  }

  /** True when `seller` owns at least one item of `order`. */
  predicate SellerHasItem(items: seq<OrderItem>, order: int, seller: int)
  {
    exists i :: 0 <= i < |items| && items[i].order == order && items[i].seller == seller
  }

  /** The whole content of the store at one moment. */
  datatype Tables = Tables(
    users: map<int, User>,
    categories: map<int, string>,
    products: map<int, Product>,
    cart: seq<CartRow>,
    orders: map<int, Order>,
    items: seq<OrderItem>,
    txns: seq<Txn>)

  class Database {
    var users: map<int, User>
    var categories: map<int, string>
    var products: map<int, Product>
    var cart: seq<CartRow>
    var orders: map<int, Order>
    var items: seq<OrderItem>
    var txns: seq<Txn>
    var nextUserId: int
    var nextCategoryId: int
    var nextProductId: int
    var nextCartId: int
    var nextOrderId: int

    /** The tables, without the auto-increment counters. */
    function Content(): Tables
      reads this
    {
      Tables(users, categories, products, cart, orders, items, txns)
    }

    /** Auto-increment counters lie above every id in use; cart ids are distinct
        and there is at most one line per (user, product). */
    ghost predicate Valid()
      reads this
    {
      (forall u :: u in users ==> u < nextUserId) &&
      (forall c :: c in categories ==> c < nextCategoryId) &&
      (forall p :: p in products ==> p < nextProductId) &&
      (forall o :: o in orders ==> o < nextOrderId) &&
      (forall i :: 0 <= i < |items| ==> items[i].order < nextOrderId) &&
      (forall i :: 0 <= i < |cart| ==> cart[i].id < nextCartId) &&
      DistinctCartIds(cart) && OneLinePerProduct(cart)
    }

    constructor ()
      ensures Valid()
      ensures users == map[] && categories == map[] && products == map[] && orders == map[]
      ensures cart == [] && items == [] && txns == []
    {
      users, categories, products, orders := map[], map[], map[], map[];
      cart, items, txns := [], [], [];
      nextUserId, nextCategoryId, nextProductId, nextCartId, nextOrderId := 1, 1, 1, 1, 1;
    }
  }
}
