/** The VNPAY side of checkout (controllers/paymentController.js): creating a
    payment link for a pending order, reconciling the gateway's server-to-server
    notification (IPN) against the orders table, and answering the browser
    redirect. The clock, the client address and the HMAC are inputs. */
module Payment {
  import opened Store
  import opened Numbers
  import opened VnPay

  // ---------------------------------------------------------------------------
  // createVNPayPayment

  const MissingOrderMessage := "Thiếu thông tin đơn hàng"
  const OrderNotFoundMessage := "Không tìm thấy đơn hàng"
  const NotPendingMessage := "Đơn hàng không ở trạng thái chờ thanh toán"
  const ConfigHelpSuffix := ". Vui lòng xem hướng dẫn trong backend/config/vnpay.js"

  datatype CreatePaymentReply =
    | PaymentCreated(paymentUrl: string)
    | PaymentRefused(status: int, message: string)

  /** Where a request came from: the forwarded-for header and the addresses of the
      connection, the socket and the connection's socket, each possibly absent. */
  datatype Peer = Peer(forwardedFor: Option<string>, connection: Option<string>, socket: Option<string>, connectionSocket: Option<string>)

  /** The first truthy of the forwarded header and the three socket addresses, else
      the loopback address. In Node the connection's socket is absent once the first
      three are falsy, so reading its address throws and the handler answers 500; the
      loopback fallback stands for the expression as written. */
  function ClientIp(forwardedFor: Option<string>, connection: Option<string>, socket: Option<string>, connectionSocket: Option<string>): (ip: string)
    ensures Truthy(forwardedFor) ==> ip == forwardedFor.value
    ensures !Truthy(forwardedFor) && Truthy(connection) ==> ip == connection.value
    ensures !Truthy(forwardedFor) && !Truthy(connection) && Truthy(socket) ==> ip == socket.value
    ensures ip == "127.0.0.1" <==>
      (!Truthy(forwardedFor) && !Truthy(connection) && !Truthy(socket) && !Truthy(connectionSocket)) ||
      (Truthy(forwardedFor) && forwardedFor.value == "127.0.0.1") ||
      (!Truthy(forwardedFor) && Truthy(connection) && connection.value == "127.0.0.1") ||
      (!Truthy(forwardedFor) && !Truthy(connection) && Truthy(socket) && socket.value == "127.0.0.1") ||
      (!Truthy(forwardedFor) && !Truthy(connection) && !Truthy(socket) && Truthy(connectionSocket) && connectionSocket.value == "127.0.0.1")
  {
    if Truthy(forwardedFor) then forwardedFor.value
    else if Truthy(connection) then connection.value
    else if Truthy(socket) then socket.value
    else if Truthy(connectionSocket) then connectionSocket.value
    else "127.0.0.1"
  }

  /** The order the payment is for, found only when the caller owns it and the
      owner's user row exists (the query joins `users`). */
  predicate OwnedOrder(t: Tables, id: int, user: int)
  {
    id in t.orders && t.orders[id].owner == user && user in t.users
  }

  function OrderInfo(id: int): string
  {
    "Thanh toan don hang " + NumberString(id)
  }

  /** The transaction row recorded when a payment link is handed out. */
  function PendingTxn(id: int, amount: int): Txn
  {
    Txn(id, amount, "VNPAY", TxnPending, None, None, None, None)
  }

  /** createVNPayPayment: a missing (or zero) order id is refused before any lookup;
      an order the caller does not own is not found; only a pending order gets a link.
      The link is built before anything is written, so a gateway configuration error
      (reported with a hint naming the configuration file) writes nothing; otherwise
      exactly one pending transaction for the order's total is appended. The link
      carries the client address `ClientIp` picks from the request. */
  method CreateVNPayPayment(db: Database, user: int, orderId: Option<int>, c: Config, peer: Peer, createDate: string, expireDate: string, hmac: Hmac)
    returns (reply: CreatePaymentReply)
    requires db.Valid()
    modifies db
    ensures db.Valid()
    ensures (orderId.None? || orderId.value == 0) ==> reply == PaymentRefused(400, MissingOrderMessage)
    ensures orderId.Some? && orderId.value != 0 && !OwnedOrder(old(db.Content()), orderId.value, user) ==>
      reply == PaymentRefused(404, OrderNotFoundMessage)
    ensures orderId.Some? && orderId.value != 0 && OwnedOrder(old(db.Content()), orderId.value, user) && old(db.orders)[orderId.value].status != Pending ==>
      reply == PaymentRefused(400, NotPendingMessage)
    ensures reply.PaymentCreated? <==>
      orderId.Some? && orderId.value != 0 && OwnedOrder(old(db.Content()), orderId.value, user) &&
      old(db.orders)[orderId.value].status == Pending &&
      Configured(c.tmnCode, TmnPlaceholder) && Configured(c.hashSecret, SecretPlaceholder)
    ensures reply.PaymentCreated? ==>
      var id := orderId.value;
      var total := old(db.orders)[id].total;
      var ip := ClientIp(peer.forwardedFor, peer.connection, peer.socket, peer.connectionSocket);
      var s := Signed(PaymentParams(c, id, total, OrderInfo(id), ip, createDate, expireDate), c.hashSecret.value, hmac);
      reply.paymentUrl == c.url + "?" + QueryString(s.keys, s.values) &&
      db.Content() == old(db.Content()).(txns := old(db.txns) + [PendingTxn(id, total)])
    ensures reply.PaymentRefused? && reply.status == 500 ==>
      reply.message == "VNPAY_TMN_CODE chưa được cấu hình trong .env" + ConfigHelpSuffix ||
      reply.message == "VNPAY_HASH_SECRET chưa được cấu hình trong .env" + ConfigHelpSuffix
    ensures reply.PaymentRefused? ==> unchanged(db)
  {
    if orderId.None? || orderId.value == 0 {
      return PaymentRefused(400, MissingOrderMessage);
    }
    var id := orderId.value;
    if !(id in db.orders && db.orders[id].owner == user && user in db.users) {
      return PaymentRefused(404, OrderNotFoundMessage);
    }
    if db.orders[id].status != Pending {
      return PaymentRefused(400, NotPendingMessage);
    }
    var ipAddr := ClientIp(peer.forwardedFor, peer.connection, peer.socket, peer.connectionSocket);
    var total := db.orders[id].total;
    var url := CreatePaymentUrl(c, id, total, OrderInfo(id), ipAddr, createDate, expireDate, hmac);
    if url.ConfigError? {
      return PaymentRefused(500, url.message + ConfigHelpSuffix);
    }
    db.txns := db.txns + [PendingTxn(id, total)];
    return PaymentCreated(url.url);
  }

  // ---------------------------------------------------------------------------
  // vnpayIPN

  /** The order a verified notification names: `vnp_TxnRef` read as a number, as the
      database compares it with the integer key. */
  function OrderRef(v: VerifyResult): Option<int>
    requires v.Verified?
  {
    if v.orderId.Some? then JsNumber(v.orderId.value) else None
  }

  /** The guard chain of the IPN handler, in its order: signature ('97'), order
      existence ('01'), amount ('04'), already paid ('02'); '00' when every guard
      passes and the handler goes on to write. */
  function IpnCode(orders: map<int, Order>, v: VerifyResult): (code: string)
    ensures code == "97" <==> !v.Verified?
    ensures code == "01" <==> v.Verified? && (OrderRef(v).None? || OrderRef(v).value !in orders)
    ensures code == "04" <==> (v.Verified? && OrderRef(v).Some? && OrderRef(v).value in orders &&
                                v.amount != Some(orders[OrderRef(v).value].total as real))
    ensures code == "02" <==> (v.Verified? && OrderRef(v).Some? && OrderRef(v).value in orders &&
                                v.amount == Some(orders[OrderRef(v).value].total as real) && orders[OrderRef(v).value].status == Paid)
    ensures code == "00" || code == "97" || code == "01" || code == "04" || code == "02"
  {
    if !v.Verified? then "97"
    else if OrderRef(v).None? || OrderRef(v).value !in orders then "01"
    else
      var order := orders[OrderRef(v).value];
      if v.amount != Some(order.total as real) then "04"
      else if order.status == Paid then "02"
      else "00"
  }

  function IpnMessage(code: string): string
  {
    if code == "97" then "Checksum failed"
    else if code == "01" then "Order not found"
    else if code == "04" then "Invalid amount"
    else if code == "02" then "Order already confirmed"
    else "Success"
  }

  datatype IpnReply = IpnReply(rspCode: string, message: string)

  /** A pending transaction as the notification leaves it: succeeded with the bank's
      references, or failed with the gateway's code and the transaction number when
      one is given. */
  function Settled(x: Txn, v: VerifyResult, success: bool): (y: Txn)
    requires v.Verified?
    ensures y.status != TxnPending && y.order == x.order && y.amount == x.amount
  {
    if success then x.(status := TxnSuccess, transactionNo := v.transactionNo, bankCode := v.bankCode, payDate := v.payDate)
    else x.(status := TxnFailed, transactionNo := if Truthy(v.transactionNo) then v.transactionNo else None, responseCode := v.responseCode)
  }

  /** Settling a payment: the pending rows of the order are settled, every other row is kept. */
  function SettlePending(txns: seq<Txn>, order: int, v: VerifyResult, success: bool): (r: seq<Txn>)
    requires v.Verified?
    ensures |r| == |txns|
    ensures forall i :: 0 <= i < |txns| ==>
      r[i] == (if txns[i].order == order && txns[i].status == TxnPending then Settled(txns[i], v, success) else txns[i])
  {
    if txns == [] then []
    else
      var head := if txns[0].order == order && txns[0].status == TxnPending then Settled(txns[0], v, success) else txns[0];
      [head] + SettlePending(txns[1..], order, v, success)
  }

  /** The two writes after the guards: on response code '00' the order becomes paid by
      VNPAY and its pending transactions succeed with the bank's references; on any other
      code the order is cancelled and its pending transactions fail with that code. */
  function IpnEffect(t: Tables, v: VerifyResult): (r: Tables)
    ensures IpnCode(t.orders, v) != "00" ==> r == t
    ensures r.users == t.users && r.categories == t.categories && r.products == t.products
    ensures r.cart == t.cart && r.items == t.items && r.orders.Keys == t.orders.Keys
    ensures |r.txns| == |t.txns|
    ensures forall i :: 0 <= i < |t.txns| && (t.txns[i].status != TxnPending || !(v.Verified? && OrderRef(v) == Some(t.txns[i].order))) ==>
      r.txns[i] == t.txns[i]
    ensures forall o :: o in t.orders && !(v.Verified? && OrderRef(v) == Some(o)) ==> r.orders[o] == t.orders[o]
    ensures IpnCode(t.orders, v) == "00" ==>
      var id := OrderRef(v).value;
      (v.responseCode == Some("00") ==> r.orders[id] == t.orders[id].(status := Paid, paymentMethod := Some("VNPAY"))) &&
      (v.responseCode != Some("00") ==> r.orders[id] == t.orders[id].(status := Cancelled))
  {
    if IpnCode(t.orders, v) != "00" then t
    else
      var id := OrderRef(v).value;
      if v.responseCode == Some("00") then
        t.(orders := t.orders[id := t.orders[id].(status := Paid, paymentMethod := Some("VNPAY"))],
           txns := SettlePending(t.txns, id, v, true))
      else
        t.(orders := t.orders[id := t.orders[id].(status := Cancelled)],
           txns := SettlePending(t.txns, id, v, false))
  }

  /** vnpayIPN: verifies the notification (which strips the hash keys from the request's
      query object), runs the guard chain and, past it, makes one of the two writes.
      Every reply is an RspCode with its message. */
  method VnpayIpn(db: Database, q: Query, secret: Option<string>, hmac: Hmac) returns (reply: IpnReply)
    requires db.Valid() && WellFormed(q.params)
    modifies db, q
    ensures db.Valid()
    ensures q.params == Unsigned(old(q.params))
    ensures var v := Verification(old(q.params), secret, hmac);
      reply == IpnReply(IpnCode(old(db.orders), v), IpnMessage(IpnCode(old(db.orders), v))) &&
      db.Content() == IpnEffect(old(db.Content()), v)
  {
    var v := VerifyReturnUrl(q, secret, hmac);
    if !v.Verified? {
      return IpnReply("97", IpnMessage("97"));
    }
    var ref := OrderRef(v);
    if ref.None? || ref.value !in db.orders {
      return IpnReply("01", IpnMessage("01"));
    }
    var id := ref.value;
    var order := db.orders[id];
    if v.amount != Some(order.total as real) {
      return IpnReply("04", IpnMessage("04"));
    }
    if order.status == Paid {
      return IpnReply("02", IpnMessage("02"));
    }
    if v.responseCode == Some("00") {
      db.orders := db.orders[id := order.(status := Paid, paymentMethod := Some("VNPAY"))];
      db.txns := SettlePending(db.txns, id, v, true);
    } else {
      db.orders := db.orders[id := order.(status := Cancelled)];
      db.txns := SettlePending(db.txns, id, v, false);
    }
    return IpnReply("00", IpnMessage("00"));
  }

  /** Replaying a notification that was applied with code '00' stops at the
      already-paid guard and changes nothing more. */
  lemma IpnReplay(t: Tables, v: VerifyResult)
    requires IpnCode(t.orders, v) == "00" && v.responseCode == Some("00")
    ensures IpnCode(IpnEffect(t, v).orders, v) == "02"
    ensures IpnEffect(IpnEffect(t, v), v) == IpnEffect(t, v)
  {
    var id := OrderRef(v).value;
    assert IpnEffect(t, v).orders[id].status == Paid;
    assert IpnEffect(t, v).orders[id].total == t.orders[id].total;
  }

  /** After a notification is applied, the order has no pending transaction left. */
  lemma {:induction false} IpnSettlesEveryPending(t: Tables, v: VerifyResult)
    requires IpnCode(t.orders, v) == "00"
    ensures forall x :: x in IpnEffect(t, v).txns && x.order == OrderRef(v).value ==> x.status != TxnPending
  {
    var r := IpnEffect(t, v);
    assert r.txns == SettlePending(t.txns, OrderRef(v).value, v, v.responseCode == Some("00"));
    forall x | x in r.txns && x.order == OrderRef(v).value ensures x.status != TxnPending {
      var i :| 0 <= i < |r.txns| && r.txns[i] == x;
      assert t.txns[i].order == x.order;
    }
  }

  /** The paid guard is the only status check: a verified '00' notification with the
      right amount marks even a cancelled or delivered order as paid. */
  lemma IpnIgnoresOtherStatuses(t: Tables, v: VerifyResult)
    requires v.Verified? && OrderRef(v).Some? && OrderRef(v).value in t.orders
    requires v.amount == Some(t.orders[OrderRef(v).value].total as real) && v.responseCode == Some("00")
    requires t.orders[OrderRef(v).value].status in {Cancelled, Delivered, Shipped}
    ensures IpnEffect(t, v).orders[OrderRef(v).value].status == Paid
  {
  }

  // ---------------------------------------------------------------------------
  // vnpayReturn

  const ReturnUnverifiedMessage := "Xác thực thanh toán thất bại"
  const ReturnSuccessMessage := "Thanh toán thành công"

  datatype ReturnReply =
    | ReturnUnverified(message: string)
    | ReturnPaid(orderId: Option<string>, amount: Option<real>, transactionNo: Option<string>, bankCode: Option<string>, message: string)
    | ReturnDeclined(orderId: Option<string>, responseCode: Option<string>, message: string)

  /** What the browser redirect is told: success exactly when the signature verifies
      and the code is '00'; a declined payment carries the code's message. */
  function ReturnFor(v: VerifyResult): (r: ReturnReply)
    ensures r.ReturnPaid? <==> v.Verified? && v.responseCode == Some("00")
    ensures r.ReturnUnverified? <==> !v.Verified?
    ensures r.ReturnPaid? ==> r.orderId == v.orderId && r.amount == v.amount
    ensures r.ReturnDeclined? ==> r.message == ResponseMessage(v.responseCode) && r.responseCode == v.responseCode
  {
    if !v.Verified? then ReturnUnverified(ReturnUnverifiedMessage)
    else if v.responseCode == Some("00") then ReturnPaid(v.orderId, v.amount, v.transactionNo, v.bankCode, ReturnSuccessMessage)
    else ReturnDeclined(v.orderId, v.responseCode, ResponseMessage(v.responseCode))
  }

  /** vnpayReturn: verifies and reports; it has no access to the store, so it writes
      nothing there. */
  method VnpayReturn(q: Query, secret: Option<string>, hmac: Hmac) returns (r: ReturnReply)
    requires WellFormed(q.params)
    modifies q
    ensures q.params == Unsigned(old(q.params))
    ensures r == ReturnFor(Verification(old(q.params), secret, hmac))
  {
    var v := VerifyReturnUrl(q, secret, hmac);
    r := ReturnFor(v);
  }

  // ---------------------------------------------------------------------------
  // getTransaction

  /** The first transaction row of an order the caller owns; `None` for 404. */
  function GetTransaction(t: Tables, user: int, id: int): (r: Option<Txn>)
    ensures r.Some? ==> r.value in t.txns && r.value.order == id && id in t.orders && t.orders[id].owner == user
    ensures r.None? ==> id !in t.orders || t.orders[id].owner != user || forall x :: x in t.txns ==> x.order != id
  {
    if id !in t.orders || t.orders[id].owner != user then None
    else FirstTxn(t.txns, id)
  }

  function FirstTxn(txns: seq<Txn>, id: int): (r: Option<Txn>)
    ensures r.Some? ==> r.value in txns && r.value.order == id
    ensures r.Some? ==> exists i :: 0 <= i < |txns| && txns[i] == r.value && forall j :: 0 <= j < i ==> txns[j].order != id
    ensures r.None? ==> forall x :: x in txns ==> x.order != id
  {
    if txns == [] then None
    else if txns[0].order == id then Some(txns[0])
    else FirstTxn(txns[1..], id)
  }

  /** A link created for an order and brought back by the gateway with code '00' and
      the same parameters passes every IPN guard when the order is still pending. */
  lemma CreatedLinkPassesIpn(t: Tables, c: Config, id: int, ipAddr: string, createDate: string, expireDate: string, hmac: Hmac)
    requires c.tmnCode.Some? && c.hashSecret.Some? && id in t.orders && t.orders[id].status == Pending
    ensures var sent := Signed(PaymentParams(c, id, t.orders[id].total, OrderInfo(id), ipAddr, createDate, expireDate), c.hashSecret.value, hmac);
      IpnCode(t.orders, Verification(sent, c.hashSecret, hmac)) == "00"
  {
    PaymentUrlVerifies(c, id, t.orders[id].total, OrderInfo(id), ipAddr, createDate, expireDate, hmac);
    NumberRoundTrip(id);
  }
}
