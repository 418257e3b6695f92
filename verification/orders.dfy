/** The order lifecycle handlers of orderController.js as atomic methods over the
    store. Each returns the HTTP status it answers with; the transaction around a
    handler becomes the method itself (the checks precede every write). */
module Orders {
  import opened Store
  import opened Ledger
  import Paging

  // ---------------------------------------------------------------------------
  // The status machine as the handlers implement it.

  datatype Action = Confirm | StartProcessing | StartShipping | ConfirmDelivery | BuyerCancel | SellerCancel | LegacyCancel

  /** The one source status each action accepts and the status it writes;
      `None` where the handler answers 400 and writes nothing. */
  function Next(a: Action, s: Status): (r: Option<Status>)
    ensures r.Some? ==> r.value != Confirmed
    ensures r == Some(Processing) ==> s == Confirmed
    ensures r.Some? && s != Confirmed ==> s == Pending || s == Paid || s == Shipped
  {
    match a
    case Confirm => if s == Pending then Some(Paid) else None
    case StartProcessing => if s == Confirmed then Some(Processing) else None
    case StartShipping => if s == Paid then Some(Shipped) else None
    case ConfirmDelivery => if s == Shipped then Some(Delivered) else None
    case BuyerCancel => if s == Pending then Some(Cancelled) else None
    case SellerCancel => if s == Pending || s == Confirmed then Some(Cancelled) else None
    case LegacyCancel => if s == Pending then Some(Cancelled) else None
  }

  /** The status an order ends in after a run of actions, failed ones leaving it as it was. */
  function Run(s: Status, actions: seq<Action>): Status
  {
    if actions == [] then s
    else
      var t := Run(s, actions[..|actions| - 1]);
      match Next(actions[|actions| - 1], t)
      case Some(u) => u
      case None => t
  }

  /** confirmOrder writes 'paid' while startProcessing waits for 'confirmed': from
      'pending' no run of handler actions ever reaches 'confirmed' or 'processing',
      so startProcessing can never succeed and the seller-cancel branch for
      'confirmed' is dead. */
  lemma {:induction false} ConfirmedNeverReached(actions: seq<Action>)
    ensures Run(Pending, actions) != Confirmed && Run(Pending, actions) != Processing
  {
    if actions != [] {
      ConfirmedNeverReached(actions[..|actions| - 1]);
    }
  }

  /** From 'pending' the handler actions only ever visit the five statuses
      pending, paid, shipped, delivered and cancelled, in that forward order. */
  lemma {:induction false} RunStaysOnPath(actions: seq<Action>)
    ensures Run(Pending, actions) in {Pending, Paid, Shipped, Delivered, Cancelled}
  {
    if actions != [] {
      RunStaysOnPath(actions[..|actions| - 1]);
    }
  }

  /** Delivered and cancelled orders accept no action at all. */
  lemma TerminalStatuses(a: Action)
    ensures Next(a, Delivered).None? && Next(a, Cancelled).None?
  {
  }

  // ---------------------------------------------------------------------------
  // createOrder

  datatype CreateReply =
    | Created(orderId: int, totalAmount: int)
    | MissingDetails
    | EmptyCart
    | OutOfStock(productName: string, available: int)

  function CreateCode(r: CreateReply): int
  {
    if r.Created? then 201 else 400
  }

  /** Line `k` is the first to ask for more than its product holds, and `reply`
      reports that product. */
  predicate OutOfStockAt(lines: seq<Line>, k: int, reply: CreateReply)
    requires 0 <= k < |lines|
  {
    && lines[k].stock < lines[k].quantity
    && (forall j :: 0 <= j < k ==> lines[j].quantity <= lines[j].stock)
    && reply == OutOfStock(lines[k].name, lines[k].stock)
  }

  /** The stock check of createOrder: the first line asking for more than its
      product holds, if there is one. */
  method FindShortage(lines: seq<Line>) returns (k: Option<nat>)
    ensures k.None? <==> forall l :: l in lines ==> l.quantity <= l.stock
    ensures k.Some? ==> k.value < |lines| && lines[k.value].stock < lines[k.value].quantity
    ensures k.Some? ==> forall j :: 0 <= j < k.value ==> lines[j].quantity <= lines[j].stock
  {
    var i := 0;
    while i < |lines|
      invariant 0 <= i <= |lines|
      invariant forall j :: 0 <= j < i ==> lines[j].quantity <= lines[j].stock
    {
      if lines[i].stock < lines[i].quantity {
        return Some(i);
      }
      i := i + 1;
    }
    return None;
  }

  /** The writes of createOrder once every check has passed: the order row, then
      for each line its item and the stock decrement. */
  method InsertOrder(db: Database, buyer: int, address: string, lines: seq<Line>) returns (orderId: int)
    requires db.Valid()
    modifies db
    ensures db.Valid()
    ensures orderId !in old(db.orders)
    ensures forall it :: it in old(db.items) ==> it.order != orderId
    ensures db.Content() == old(db.Content()).(
      orders := old(db.orders)[orderId := Order(buyer, address, OrderTotal(lines), Pending, None, None, None)],
      items := old(db.items) + MakeItems(orderId, lines),
      products := Decremented(old(db.products), lines))
  {
    orderId := db.nextOrderId;
    db.orders := db.orders[orderId := Order(buyer, address, OrderTotal(lines), Pending, None, None, None)];
    db.nextOrderId := orderId + 1;
    var i := 0;
    while i < |lines|
      invariant 0 <= i <= |lines|
      invariant db.items == old(db.items) + MakeItems(orderId, lines[..i])
      invariant db.products == Decremented(old(db.products), lines[..i])
      invariant db.orders == old(db.orders)[orderId := Order(buyer, address, OrderTotal(lines), Pending, None, None, None)]
      invariant db.users == old(db.users) && db.categories == old(db.categories)
      invariant db.cart == old(db.cart) && db.txns == old(db.txns)
      invariant db.nextOrderId == orderId + 1 && db.nextUserId == old(db.nextUserId)
      invariant db.nextCategoryId == old(db.nextCategoryId) && db.nextProductId == old(db.nextProductId)
      invariant db.nextCartId == old(db.nextCartId)
    {
      var l := lines[i];
      assert lines[..i + 1][..i] == lines[..i];
      db.items := db.items + [ItemOf(orderId, l)];
      db.products := Take(db.products, l.product, l.quantity);
      i := i + 1;
    }
    assert lines[..|lines|] == lines;
    OrderRowsValid(old(db.items), orderId, lines);
    forall p | p in db.products ensures p < db.nextProductId {
      DecrementedAt(old(db.products), lines, p);
    }
  }

  /** Rows already stored name orders below the counter; the new items all name the new order. */
  lemma OrderRowsValid(items: seq<OrderItem>, orderId: int, lines: seq<Line>)
    requires forall i :: 0 <= i < |items| ==> items[i].order < orderId
    ensures forall it :: it in items ==> it.order != orderId
    ensures forall i :: 0 <= i < |items + MakeItems(orderId, lines)| ==> (items + MakeItems(orderId, lines))[i].order < orderId + 1
  {
    forall it | it in items ensures it.order != orderId {
      var j :| 0 <= j < |items| && items[j] == it;
    }
  }

  /** createOrder: validates the request and the whole cart before any write, then
      inserts the order and one item per cart line, decrements each product's stock
      and empties the buyer's cart, as one unit. */
  method CreateOrder(db: Database, buyer: int, shippingAddress: Option<string>, paymentMethod: Option<string>)
    returns (reply: CreateReply)
    requires db.Valid()
    modifies db
    ensures db.Valid()
    ensures reply.MissingDetails? <==> !Truthy(shippingAddress) || !Truthy(paymentMethod)
    ensures reply.EmptyCart? <==> Truthy(shippingAddress) && Truthy(paymentMethod) && CartLines(old(db.cart), old(db.products), buyer) == []
    ensures reply.OutOfStock? ==>
      (exists k :: 0 <= k < |CartLines(old(db.cart), old(db.products), buyer)| && OutOfStockAt(CartLines(old(db.cart), old(db.products), buyer), k, reply))
    ensures reply.Created? <==>
      (Truthy(shippingAddress) && Truthy(paymentMethod) && CartLines(old(db.cart), old(db.products), buyer) != [] &&
       forall l :: l in CartLines(old(db.cart), old(db.products), buyer) ==> l.quantity <= l.stock)
    ensures !reply.Created? ==> unchanged(db)
    ensures reply.Created? ==>
      var lines := CartLines(old(db.cart), old(db.products), buyer);
      && reply.orderId !in old(db.orders)
      && reply.totalAmount == OrderTotal(lines)
      && (forall it :: it in old(db.items) ==> it.order != reply.orderId)
      && db.Content() == old(db.Content()).(
           orders := old(db.orders)[reply.orderId := Order(buyer, shippingAddress.value, OrderTotal(lines), Pending, None, None, None)],
           items := old(db.items) + MakeItems(reply.orderId, lines),
           products := Decremented(old(db.products), lines),
           cart := WithoutUser(old(db.cart), buyer))
  {
    if !Truthy(shippingAddress) || !Truthy(paymentMethod) {
      return MissingDetails;
    }
    var lines := CartLines(db.cart, db.products, buyer);
    if lines == [] {
      return EmptyCart;
    }
    var short := FindShortage(lines);
    if short.Some? {
      var l := lines[short.value];
      reply := OutOfStock(l.name, l.stock);
      assert OutOfStockAt(lines, short.value, reply);
      return;
    }
    var orderId := InsertOrder(db, buyer, shippingAddress.value, lines);
    db.cart := WithoutUser(db.cart, buyer);
    return Created(orderId, OrderTotal(lines));
  }

  /** With one cart line per product and every line within stock, createOrder
      never drives a product's stock below zero. */
  lemma CreateOrderKeepsStock(cart: seq<CartRow>, products: map<int, Product>, buyer: int)
    requires OneLinePerProduct(cart)
    requires forall l :: l in CartLines(cart, products, buyer) ==> l.quantity <= l.stock
    ensures forall k :: k in products && products[k].stock >= 0 ==>
      k in Decremented(products, CartLines(cart, products, buyer)) && Decremented(products, CartLines(cart, products, buyer))[k].stock >= 0
  {
    CartLinesDistinct(cart, products, buyer);
    DecrementKeepsStockNonNegative(products, CartLines(cart, products, buyer));
  }

  /** A successful createOrder leaves the order holding exactly one item per cart
      line, whose subtotals add up to the order total less the shipping fee. */
  lemma CreatedOrderItems(items: seq<OrderItem>, orderId: int, lines: seq<Line>)
    requires forall it :: it in items ==> it.order != orderId
    ensures ItemsOf(items + MakeItems(orderId, lines), orderId) == MakeItems(orderId, lines)
    ensures OrderTotal(lines) == SubtotalSum(ItemsOf(items + MakeItems(orderId, lines), orderId)) + ShippingFee
  {
    var made := MakeItems(orderId, lines);
    forall it | it in made ensures it.order == orderId {
      var i :| 0 <= i < |made| && made[i] == it;
    }
    ItemsOfAppend(items, orderId, made);
    TotalMatchesItems(orderId, lines);
  }

  // ---------------------------------------------------------------------------
  // Seller-side status advances: ownership (403) is checked before existence (404).

  /** confirmOrder: a seller owning an item of a 'pending' order sets it to 'paid'. */
  method ConfirmOrder(db: Database, seller: int, id: int) returns (code: int)
    requires db.Valid()
    modifies db
    ensures db.Valid()
    ensures !SellerHasItem(old(db.items), id, seller) ==> code == 403
    ensures SellerHasItem(old(db.items), id, seller) && id !in old(db.orders) ==> code == 404
    ensures SellerHasItem(old(db.items), id, seller) && id in old(db.orders) ==>
      code == (if Next(Confirm, old(db.orders)[id].status).Some? then 200 else 400)
    ensures code == 200 ==> db.Content() == old(db.Content()).(orders := old(db.orders)[id := old(db.orders)[id].(status := Paid)])
    ensures code != 200 ==> unchanged(db)
  {
    if !SellerHasItem(db.items, id, seller) {
      return 403;
    }
    if id !in db.orders {
      return 404;
    }
    if db.orders[id].status != Pending {
      return 400;
    }
    db.orders := db.orders[id := db.orders[id].(status := Paid)];
    return 200;
  }

  /** startProcessing: a seller owning an item of a 'confirmed' order sets it to 'processing'. */
  method StartProcessingOrder(db: Database, seller: int, id: int) returns (code: int)
    requires db.Valid()
    modifies db
    ensures db.Valid()
    ensures !SellerHasItem(old(db.items), id, seller) ==> code == 403
    ensures SellerHasItem(old(db.items), id, seller) && id !in old(db.orders) ==> code == 404
    ensures SellerHasItem(old(db.items), id, seller) && id in old(db.orders) ==>
      code == (if Next(StartProcessing, old(db.orders)[id].status).Some? then 200 else 400)
    ensures code == 200 ==> db.Content() == old(db.Content()).(orders := old(db.orders)[id := old(db.orders)[id].(status := Processing)])
    ensures code != 200 ==> unchanged(db)
  {
    if !SellerHasItem(db.items, id, seller) {
      return 403;
    }
    if id !in db.orders {
      return 404;
    }
    if db.orders[id].status != Confirmed {
      return 400;
    }
    db.orders := db.orders[id := db.orders[id].(status := Processing)];
    return 200;
  }

  /** startShipping: a seller owning an item of a 'paid' order sets it to 'shipped'. */
  method StartShippingOrder(db: Database, seller: int, id: int) returns (code: int)
    requires db.Valid()
    modifies db
    ensures db.Valid()
    ensures !SellerHasItem(old(db.items), id, seller) ==> code == 403
    ensures SellerHasItem(old(db.items), id, seller) && id !in old(db.orders) ==> code == 404
    ensures SellerHasItem(old(db.items), id, seller) && id in old(db.orders) ==>
      code == (if Next(StartShipping, old(db.orders)[id].status).Some? then 200 else 400)
    ensures code == 200 ==> db.Content() == old(db.Content()).(orders := old(db.orders)[id := old(db.orders)[id].(status := Shipped)])
    ensures code != 200 ==> unchanged(db)
  {
    if !SellerHasItem(db.items, id, seller) {
      return 403;
    }
    if id !in db.orders {
      return 404;
    }
    if db.orders[id].status != Paid {
      return 400;
    }
    db.orders := db.orders[id := db.orders[id].(status := Shipped)];
    return 200;
  }

  /** confirmDelivery: the buyer who owns a 'shipped' order sets it to 'delivered';
      an order that is absent or someone else's is 404. */
  method ConfirmDeliveryOrder(db: Database, buyer: int, id: int) returns (code: int)
    requires db.Valid()
    modifies db
    ensures db.Valid()
    ensures (id !in old(db.orders) || old(db.orders)[id].owner != buyer) ==> code == 404
    ensures id in old(db.orders) && old(db.orders)[id].owner == buyer ==>
      code == (if Next(ConfirmDelivery, old(db.orders)[id].status).Some? then 200 else 400)
    ensures code == 200 ==> db.Content() == old(db.Content()).(orders := old(db.orders)[id := old(db.orders)[id].(status := Delivered)])
    ensures code != 200 ==> unchanged(db)
  {
    if id !in db.orders || db.orders[id].owner != buyer {
      return 404;
    }
    if db.orders[id].status != Shipped {
      return 400;
    }
    db.orders := db.orders[id := db.orders[id].(status := Delivered)];
    return 200;
  }

  // ---------------------------------------------------------------------------
  // Cancellation with stock restitution.

  /** The default reason recorded when a buyer cancels without giving one. */
  const BuyerCancelReason := "Người mua hủy đơn"

  /** The restitution loop shared by the cancel handlers: every item of the order
      gives its quantity back to its product (a product deleted since is skipped,
      as the UPDATE matches no row). */
  method RestoreStock(db: Database, id: int)
    requires db.Valid()
    modifies db
    ensures db.Valid()
    ensures db.Content() == old(db.Content()).(products := Restocked(old(db.products), ItemsOf(old(db.items), id)))
    ensures forall p :: p in db.products <==> p in old(db.products)
  {
    var its := ItemsOf(db.items, id);
    var i := 0;
    while i < |its|
      invariant 0 <= i <= |its|
      invariant db.products == Restocked(old(db.products), its[..i])
      invariant db.Content() == old(db.Content()).(products := db.products)
      invariant db.nextUserId == old(db.nextUserId) && db.nextCategoryId == old(db.nextCategoryId)
      invariant db.nextProductId == old(db.nextProductId) && db.nextCartId == old(db.nextCartId)
      invariant db.nextOrderId == old(db.nextOrderId)
      invariant forall p :: p in db.products <==> p in old(db.products)
    {
      var it := its[i];
      assert its[..i + 1][..i] == its[..i];
      if it.product in db.products {
        db.products := db.products[it.product := db.products[it.product].(stock := db.products[it.product].stock + it.quantity)];
      }
      i := i + 1;
    }
    assert its[..|its|] == its;
  }

  /** The final UPDATE of the cancel handlers: the order becomes 'cancelled' with the
      given reason and canceller; nothing else changes. */
  method MarkCancelled(db: Database, id: int, reason: Option<string>, canceller: Option<CancelledBy>)
    requires db.Valid() && id in db.orders
    modifies db
    ensures db.Valid()
    ensures db.Content() == old(db.Content()).(orders := old(db.orders)[id := old(db.orders)[id].(status := Cancelled, cancelReason := reason, cancelledBy := canceller)])
  {
    db.orders := db.orders[id := db.orders[id].(status := Cancelled, cancelReason := reason, cancelledBy := canceller)];
  }

  /** cancelOrderByBuyer: the owner of a 'pending' order cancels it, every item's
      quantity goes back to stock, and the reason (or the default) is recorded with
      cancelled_by 'buyer'. */
  method CancelOrderByBuyer(db: Database, buyer: int, id: int, reason: Option<string>) returns (code: int)
    requires db.Valid()
    modifies db
    ensures db.Valid()
    ensures (id !in old(db.orders) || old(db.orders)[id].owner != buyer) ==> code == 404
    ensures id in old(db.orders) && old(db.orders)[id].owner == buyer ==>
      code == (if Next(BuyerCancel, old(db.orders)[id].status).Some? then 200 else 400)
    ensures code == 200 ==> db.Content() == old(db.Content()).(
      orders := old(db.orders)[id := old(db.orders)[id].(status := Cancelled,
        cancelReason := Some(if Truthy(reason) then reason.value else BuyerCancelReason),
        cancelledBy := Some(ByBuyer))],
      products := Restocked(old(db.products), ItemsOf(old(db.items), id)))
    ensures code != 200 ==> unchanged(db)
  {
    if id !in db.orders || db.orders[id].owner != buyer {
      return 404;
    }
    if db.orders[id].status != Pending {
      return 400;
    }
    RestoreStock(db, id);
    var why := if Truthy(reason) then reason.value else BuyerCancelReason;
    MarkCancelled(db, id, Some(why), Some(ByBuyer));
    return 200;
  }

  /** cancelOrderBySeller: a seller giving a reason and owning an item of a
      'pending' or 'confirmed' order cancels it and restores every item's stock. */
  method CancelOrderBySeller(db: Database, seller: int, id: int, reason: Option<string>) returns (code: int)
    requires db.Valid()
    modifies db
    ensures db.Valid()
    ensures !Truthy(reason) ==> code == 400
    ensures Truthy(reason) && !SellerHasItem(old(db.items), id, seller) ==> code == 403
    ensures Truthy(reason) && SellerHasItem(old(db.items), id, seller) && id !in old(db.orders) ==> code == 404
    ensures Truthy(reason) && SellerHasItem(old(db.items), id, seller) && id in old(db.orders) ==>
      code == (if Next(SellerCancel, old(db.orders)[id].status).Some? then 200 else 400)
    ensures code == 200 ==> db.Content() == old(db.Content()).(
      orders := old(db.orders)[id := old(db.orders)[id].(status := Cancelled,
        cancelReason := Some(reason.value), cancelledBy := Some(BySeller))],
      products := Restocked(old(db.products), ItemsOf(old(db.items), id)))
    ensures code != 200 ==> unchanged(db)
  {
    if !Truthy(reason) {
      return 400;
    }
    if !SellerHasItem(db.items, id, seller) {
      return 403;
    }
    if id !in db.orders {
      return 404;
    }
    var s := db.orders[id].status;
    if s != Pending && s != Confirmed {
      return 400;
    }
    RestoreStock(db, id);
    MarkCancelled(db, id, Some(reason.value), Some(BySeller));
    return 200;
  }

  /** cancelOrder (the older handler, not mounted on any route): the owner of a
      'pending' order cancels it and restores stock, recording no reason. */
  method CancelOrder(db: Database, buyer: int, id: int) returns (code: int)
    requires db.Valid()
    modifies db
    ensures db.Valid()
    ensures (id !in old(db.orders) || old(db.orders)[id].owner != buyer) ==> code == 404
    ensures id in old(db.orders) && old(db.orders)[id].owner == buyer ==>
      code == (if Next(LegacyCancel, old(db.orders)[id].status).Some? then 200 else 400)
    ensures code == 200 ==> db.Content() == old(db.Content()).(
      orders := old(db.orders)[id := old(db.orders)[id].(status := Cancelled)],
      products := Restocked(old(db.products), ItemsOf(old(db.items), id)))
    ensures code != 200 ==> unchanged(db)
  {
    if id !in db.orders || db.orders[id].owner != buyer {
      return 404;
    }
    if db.orders[id].status != Pending {
      return 400;
    }
    RestoreStock(db, id);
    db.orders := db.orders[id := db.orders[id].(status := Cancelled)];
    return 200;
  }

  /** Placing an order and then cancelling it (as the buyer, the seller or through
      the older handler) gives every product back exactly the stock it had before
      the order: the restitution reads the items createOrder wrote and undoes its
      decrement, whatever else is in the tables. */
  lemma CancelUndoesCreate(products: map<int, Product>, items: seq<OrderItem>, cart: seq<CartRow>, buyer: int, orderId: int)
    requires forall it :: it in items ==> it.order != orderId
    ensures var lines := CartLines(cart, products, buyer);
      Restocked(Decremented(products, lines), ItemsOf(items + MakeItems(orderId, lines), orderId)) == products
  {
    var lines := CartLines(cart, products, buyer);
    CreatedOrderItems(items, orderId, lines);
    RestockUndoesDecrement(products, orderId, lines);
  }

  // ---------------------------------------------------------------------------
  // updateOrderStatus (not mounted on any route)

  const ValidStatusNames: seq<string> := ["pending", "paid", "shipped", "delivered", "cancelled"]

  /** updateOrderStatus: a status among the five valid names, written by a seller
      owning an item of the order, unless the order is already cancelled or
      delivered. It restores no stock, even when it writes 'cancelled'. */
  method UpdateOrderStatus(db: Database, seller: int, id: int, status: Option<string>) returns (code: int)
    requires db.Valid()
    modifies db
    ensures db.Valid()
    ensures (status.None? || status.value !in ValidStatusNames) ==> code == 400
    ensures status.Some? && status.value in ValidStatusNames && !SellerHasItem(old(db.items), id, seller) ==> code == 403
    ensures status.Some? && status.value in ValidStatusNames && SellerHasItem(old(db.items), id, seller) && id !in old(db.orders) ==> code == 404
    ensures status.Some? && status.value in ValidStatusNames && SellerHasItem(old(db.items), id, seller) && id in old(db.orders) ==>
      code == (if old(db.orders)[id].status in {Cancelled, Delivered} then 400 else 200)
    ensures code == 200 ==> ParseStatus(status.value).Some? && db.Content() == old(db.Content()).(orders := old(db.orders)[id := old(db.orders)[id].(status := ParseStatus(status.value).value)])
    ensures code != 200 ==> unchanged(db)
  {
    if status.None? || status.value !in ValidStatusNames {
      return 400;
    }
    if !SellerHasItem(db.items, id, seller) {
      return 403;
    }
    if id !in db.orders {
      return 404;
    }
    var current := db.orders[id].status;
    if current == Cancelled || current == Delivered {
      return 400;
    }
    var next := ParseStatus(status.value);
    db.orders := db.orders[id := db.orders[id].(status := next.value)];
    return 200;
  }

  /** The statuses updateOrderStatus accepts are exactly pending, paid, shipped,
      delivered and cancelled: never 'confirmed' or 'processing'. */
  lemma UpdateOrderStatusNames(name: string)
    requires name in ValidStatusNames
    ensures ParseStatus(name).Some?
    ensures ParseStatus(name).value in {Pending, Paid, Shipped, Delivered, Cancelled}
  {
  }

  // ---------------------------------------------------------------------------
  // Reads

  datatype OrderView = NotFound | Forbidden | Found(order: Order, items: seq<OrderItem>)

  function ViewCode(v: OrderView): int
  {
    match v
    case NotFound => 404
    case Forbidden => 403
    case Found(_, _) => 200
  }

  /** The items of an order that belong to one seller. */
  function SellerItems(items: seq<OrderItem>, seller: int): (r: seq<OrderItem>)
    ensures forall it :: it in r <==> it in items && it.seller == seller
  {
    if items == [] then []
    else if items[0].seller == seller then [items[0]] + SellerItems(items[1..], seller)
    else SellerItems(items[1..], seller)
  }

  /** getOrderById: 404 for an absent order; a buyer sees only their own orders
      (403 otherwise) with all their items; a seller sees only orders holding one
      of their items, and only those items. */
  function GetOrderById(orders: map<int, Order>, items: seq<OrderItem>, user: int, role: string, id: int): (v: OrderView)
    ensures id !in orders <==> v.NotFound?
    ensures v.Found? ==> v.order == orders[id]
    ensures role == "buyer" && id in orders ==> (v.Found? <==> orders[id].owner == user)
    ensures role == "seller" && id in orders ==> (v.Found? <==> SellerHasItem(items, id, user))
    ensures v.Found? && role == "seller" ==> forall it :: it in v.items <==> it in items && it.order == id && it.seller == user
    ensures v.Found? && role != "seller" ==> v.items == ItemsOf(items, id)
  {
    if id !in orders then NotFound
    else if role == "buyer" && orders[id].owner != user then Forbidden
    else if role == "seller" then
      (if SellerHasItem(items, id, user) then Found(orders[id], SellerItems(ItemsOf(items, id), user)) else Forbidden)
    else Found(orders[id], ItemsOf(items, id))
  }

  /** The page window of the buyer and seller order listings (page 1 and limit 10 by default). */
  datatype PageInfo = PageInfo(page: int, limit: int, offset: int, total: nat, totalPages: Paging.PageCount)

  function OrderPage(page: Option<int>, limit: Option<int>, total: nat): (r: PageInfo)
    ensures r.page == (if page.Some? then page.value else 1)
    ensures r.limit == (if limit.Some? then limit.value else 10)
    ensures r.offset == (r.page - 1) * r.limit
    ensures r.limit > 0 && total > 0 ==> r.totalPages.Pages? && (r.totalPages.n - 1) * r.limit < total <= r.totalPages.n * r.limit
  {
    var p := if page.Some? then page.value else 1;
    var l := if limit.Some? then limit.value else 10;
    PageInfo(p, l, Paging.Offset(p, l), total, Paging.TotalPages(total, l))
  }

  // ---------------------------------------------------------------------------
  // getOrderStats and getRevenueStats

  datatype Audience = BuyerStats | SellerStats

  /** Which aggregation getOrderStats runs: the buyer one for a (mapped) buyer, the seller one otherwise. */
  function StatsAudience(role: string): (a: Audience)
    ensures a == BuyerStats <==> role == "buyer" || role == "customer"
  {
    if FrontendRole(role) == "buyer" then BuyerStats else SellerStats
  }

  datatype StatRow = StatRow(status: string, count: int, total: Option<int>)
  datatype Stat = Stat(count: int, total: int)

  /** The zero entries getOrderStats starts from. */
  const StatsDefaults: map<string, Stat> := map[
    "pending" := Stat(0, 0), "confirmed" := Stat(0, 0), "processing" := Stat(0, 0),
    "shipping" := Stat(0, 0), "delivered" := Stat(0, 0), "cancelled" := Stat(0, 0)]

  function RowStat(row: StatRow): Stat
  {
    Stat(row.count, if row.total.Some? then row.total.value else 0)
  }

  /** The entry the last row with status `k` gives, if any. */
  function LastStat(rows: seq<StatRow>, k: string): (r: Option<Stat>)
    ensures r.Some? <==> exists x :: x in rows && x.status == k
  {
    if rows == [] then None
    else if rows[|rows| - 1].status == k then Some(RowStat(rows[|rows| - 1]))
    else LastStat(rows[..|rows| - 1], k)
  }

  /** One more row: its status now takes that row's entry, every other status keeps its own. */
  lemma LastStatStep(rows: seq<StatRow>, i: int)
    requires 0 <= i < |rows|
    ensures forall k :: LastStat(rows[..i + 1], k) == if rows[i].status == k then Some(RowStat(rows[i])) else LastStat(rows[..i], k)
  {
    var next := rows[..i + 1];
    assert next[..|next| - 1] == rows[..i] && next[|next| - 1] == rows[i];
    forall k ensures LastStat(next, k) == if rows[i].status == k then Some(RowStat(rows[i])) else LastStat(rows[..i], k) {
    }
  }

  /** The formatting loop of getOrderStats: every default key plus every status a
      row names; a status takes the entry of its last row, the others stay zero. */
  method FormatStats(rows: seq<StatRow>) returns (result: map<string, Stat>)
    ensures forall k :: k in result <==> k in StatsDefaults || exists r :: r in rows && r.status == k
    ensures forall k :: k in result ==> result[k] == (if LastStat(rows, k).Some? then LastStat(rows, k).value else Stat(0, 0))
  {
    result := StatsDefaults;
    var i := 0;
    while i < |rows|
      invariant 0 <= i <= |rows|
      invariant forall k :: k in result <==> k in StatsDefaults || LastStat(rows[..i], k).Some?
      invariant forall k :: k in result ==> result[k] == (if LastStat(rows[..i], k).Some? then LastStat(rows[..i], k).value else Stat(0, 0))
    {
      LastStatStep(rows, i);
      result := result[rows[i].status := RowStat(rows[i])];
      i := i + 1;
    }
    assert rows[..|rows|] == rows;
    forall k ensures k in result <==> k in StatsDefaults || exists r :: r in rows && r.status == k {
      assert LastStat(rows, k).Some? <==> exists r :: r in rows && r.status == k;
    }
  }

  /** The default keys name statuses no handler ever writes ('confirmed',
      'processing', 'shipping') and miss two that are written ('paid', 'shipped'). */
  lemma StatsDefaultsMismatch()
    ensures "paid" !in StatsDefaults && "shipped" !in StatsDefaults
    ensures forall s :: StatusName(s) == "shipping" ==> false
  {
  }

  /** The status filter of every revenue query: paid, shipped or delivered. */
  predicate RevenueStatus(s: Status)
  {
    s == Paid || s == Shipped || s == Delivered
  }

  /** The rows every revenue query aggregates: the seller's items whose order is in a revenue status. */
  function RevenueItems(orders: map<int, Order>, items: seq<OrderItem>, seller: int): (r: seq<OrderItem>)
    ensures forall it :: it in r <==> it in items && it.seller == seller && it.order in orders && RevenueStatus(orders[it.order].status)
  {
    if items == [] then []
    else
      var it := items[0];
      if it.seller == seller && it.order in orders && RevenueStatus(orders[it.order].status)
      then [it] + RevenueItems(orders, items[1..], seller)
      else RevenueItems(orders, items[1..], seller)
  }

  /** A seller confirming an order (which writes 'paid') already counts it as revenue,
      before any payment arrives; a cancelled order never counts. */
  lemma RevenueAfterConfirm()
    ensures RevenueStatus(Next(Confirm, Pending).value)
    ensures !RevenueStatus(Cancelled) && !RevenueStatus(Pending)
  {
  }
}
