/** The stock ledger behind order placement and cancellation: the cart snapshot
    createOrder reads, the order items it writes, the stock decrement it applies,
    and the restitution both cancel handlers apply. Everything here is a function
    of table values; the handlers in module Orders are proved against it. */
module Ledger {
  import opened Store

  /** The fixed shipping fee added to every order (orderController.js:55). */
  const ShippingFee := 30000

  /** One row of createOrder's cart query: a cart line joined with its product. */
  datatype Line = Line(cartId: int, product: int, quantity: int, name: string, price: int, stock: int, seller: int)

  function JoinLine(row: CartRow, p: Product): Line
  {
    Line(row.id, row.product, row.quantity, p.name, p.price, p.stock, p.seller)
  }

  /** The buyer's cart lines joined with their live product rows, in cart row order;
      a line whose product no longer exists drops out of the join. */
  function CartLines(cart: seq<CartRow>, products: map<int, Product>, buyer: int): (r: seq<Line>)
    ensures |r| <= |cart|
    ensures forall l :: l in r ==> l.product in products && l.stock == products[l.product].stock && l.price == products[l.product].price
  {
    if cart == [] then []
    else
      var rest := CartLines(cart[1..], products, buyer);
      if cart[0].user == buyer && cart[0].product in products then [JoinLine(cart[0], products[cart[0].product])] + rest
      else rest
  }

  /** The join is exact: every line comes from one of the buyer's rows whose product
      exists, and every such row yields a line. */
  lemma {:induction false} CartLinesJoin(cart: seq<CartRow>, products: map<int, Product>, buyer: int)
    ensures forall l :: l in CartLines(cart, products, buyer) ==>
      exists row :: row in cart && row.user == buyer && row.product in products && l == JoinLine(row, products[row.product])
    ensures forall row :: row in cart && row.user == buyer && row.product in products ==>
      JoinLine(row, products[row.product]) in CartLines(cart, products, buyer)
  {
    if cart != [] {
      CartLinesJoin(cart[1..], products, buyer);
      assert forall row :: row in cart ==> row == cart[0] || row in cart[1..];
    }
  }

  predicate DistinctProducts(lines: seq<Line>)
  {
    forall i, j :: 0 <= i < j < |lines| ==> lines[i].product != lines[j].product
  }

  /** With one cart line per (user, product), the joined lines name distinct products. */
  lemma {:induction false} CartLinesDistinct(cart: seq<CartRow>, products: map<int, Product>, buyer: int)
    requires OneLinePerProduct(cart)
    ensures DistinctProducts(CartLines(cart, products, buyer))
  {
    if cart != [] {
      var rest := cart[1..];
      assert OneLinePerProduct(rest) by {
        forall i, j | 0 <= i < j < |rest| && rest[i].user == rest[j].user ensures rest[i].product != rest[j].product {
          assert rest[i] == cart[i + 1] && rest[j] == cart[j + 1];
        }
      }
      CartLinesDistinct(rest, products, buyer);
      CartLinesJoin(rest, products, buyer);
      var tail := CartLines(rest, products, buyer);
      if cart[0].user == buyer && cart[0].product in products {
        var r := [JoinLine(cart[0], products[cart[0].product])] + tail;
        forall k | 0 <= k < |tail| ensures tail[k].product != cart[0].product {
          assert tail[k] in tail;
          var row :| row in rest && row.user == buyer && row.product in products && tail[k] == JoinLine(row, products[row.product]);
          var j :| 0 <= j < |rest| && rest[j] == row;
          assert cart[j + 1] == row;
        }
        assert forall i, j :: 0 < i < j < |r| ==> r[i] == tail[i - 1] && r[j] == tail[j - 1];
      }
    }
  }

  function Subtotal(l: Line): int
  {
    l.price * l.quantity
  }

  /** The goods total of an order: each line's price times its quantity, added up. */
  function ItemsTotal(lines: seq<Line>): int
  {
    if lines == [] then 0 else ItemsTotal(lines[..|lines| - 1]) + Subtotal(lines[|lines| - 1])
  }

  function OrderTotal(lines: seq<Line>): int
  {
    ItemsTotal(lines) + ShippingFee
  }

  /** The order_items row createOrder writes for one cart line. */
  function ItemOf(order: int, l: Line): (it: OrderItem)
    ensures it.order == order && it.product == l.product && it.quantity == l.quantity
    ensures it.subtotal == it.price * it.quantity && it.price == l.price && it.seller == l.seller && it.name == l.name
  {
    OrderItem(order, l.product, l.seller, l.name, l.price, l.quantity, Subtotal(l))
  }

  /** The order items createOrder writes: one per cart line, in cart order. */
  function MakeItems(order: int, lines: seq<Line>): (r: seq<OrderItem>)
    ensures |r| == |lines|
    ensures forall i :: 0 <= i < |lines| ==> r[i] == ItemOf(order, lines[i])
  {
    if lines == [] then [] else MakeItems(order, lines[..|lines| - 1]) + [ItemOf(order, lines[|lines| - 1])]
  }

  function SubtotalSum(items: seq<OrderItem>): int
  {
    if items == [] then 0 else SubtotalSum(items[..|items| - 1]) + items[|items| - 1].subtotal
  }

  /** The order total is the sum of the subtotals of the items written with it, plus the fee. */
  lemma {:induction false} TotalMatchesItems(order: int, lines: seq<Line>)
    ensures OrderTotal(lines) == SubtotalSum(MakeItems(order, lines)) + ShippingFee
  {
    if lines != [] {
      var n := |lines|;
      TotalMatchesItems(order, lines[..n - 1]);
      assert MakeItems(order, lines)[..n - 1] == MakeItems(order, lines[..n - 1]);
    }
  }

  /** The quantity the lines order of product `k`. */
  function QtyFor(lines: seq<Line>, k: int): int
  {
    if lines == [] then 0
    else QtyFor(lines[..|lines| - 1], k) + (if lines[|lines| - 1].product == k then lines[|lines| - 1].quantity else 0)
  }

  /** The quantity the items return for product `k`. */
  function ItemQtyFor(items: seq<OrderItem>, k: int): int
  {
    if items == [] then 0
    else ItemQtyFor(items[..|items| - 1], k) + (if items[|items| - 1].product == k then items[|items| - 1].quantity else 0)
  }

  /** Stock taken when a line is ordered: the product's stock drops by the quantity; an
      absent product is left alone, as an UPDATE matching no row changes nothing. */
  function Take(p: map<int, Product>, product: int, quantity: int): map<int, Product>
  {
    if product in p then p[product := p[product].(stock := p[product].stock - quantity)] else p
  }

  /** Stock returned when an order is cancelled: the product's stock grows by the
      quantity; an absent product is left alone. */
  function Give(p: map<int, Product>, product: int, quantity: int): map<int, Product>
  {
    if product in p then p[product := p[product].(stock := p[product].stock + quantity)] else p
  }

  /** The products table after createOrder's decrement loop has run over `lines`. */
  function Decremented(p: map<int, Product>, lines: seq<Line>): map<int, Product>
  {
    if lines == [] then p
    else Take(Decremented(p, lines[..|lines| - 1]), lines[|lines| - 1].product, lines[|lines| - 1].quantity)
  }

  /** The products table after a cancel handler's restitution loop has run over `items`. */
  function Restocked(p: map<int, Product>, items: seq<OrderItem>): map<int, Product>
  {
    if items == [] then p
    else Give(Restocked(p, items[..|items| - 1]), items[|items| - 1].product, items[|items| - 1].quantity)
  }

  /** Each product loses exactly the quantity the lines order of it; nothing else changes. */
  lemma {:induction false} DecrementedAt(p: map<int, Product>, lines: seq<Line>, k: int)
    ensures k in Decremented(p, lines) <==> k in p
    ensures k in p ==> Decremented(p, lines)[k] == p[k].(stock := p[k].stock - QtyFor(lines, k))
  {
    if lines != [] {
      DecrementedAt(p, lines[..|lines| - 1], k);
    }
  }

  /** Each product gains exactly the quantity the items hold of it; nothing else changes. */
  lemma {:induction false} RestockedAt(p: map<int, Product>, items: seq<OrderItem>, k: int)
    ensures k in Restocked(p, items) <==> k in p
    ensures k in p ==> Restocked(p, items)[k] == p[k].(stock := p[k].stock + ItemQtyFor(items, k))
  {
    if items != [] {
      RestockedAt(p, items[..|items| - 1], k);
    }
  }

  lemma {:induction false} ItemQtyForMakeItems(order: int, lines: seq<Line>, k: int)
    ensures ItemQtyFor(MakeItems(order, lines), k) == QtyFor(lines, k)
  {
    if lines != [] {
      var n := |lines|;
      ItemQtyForMakeItems(order, lines[..n - 1], k);
      assert MakeItems(order, lines)[..n - 1] == MakeItems(order, lines[..n - 1]);
    }
  }

  /** Stock conservation: restoring the items of an order returns every product's
      stock to what it was before the order's decrement. */
  lemma RestockUndoesDecrement(p: map<int, Product>, order: int, lines: seq<Line>)
    ensures Restocked(Decremented(p, lines), MakeItems(order, lines)) == p
  {
    var d := Decremented(p, lines);
    var r := Restocked(d, MakeItems(order, lines));
    forall k | true ensures k in r <==> k in p {
      DecrementedAt(p, lines, k);
      RestockedAt(d, MakeItems(order, lines), k);
    }
    forall k | k in p ensures r[k] == p[k] {
      DecrementedAt(p, lines, k);
      RestockedAt(d, MakeItems(order, lines), k);
      ItemQtyForMakeItems(order, lines, k);
    }
  }

  /** With distinct products, the quantity ordered of a product is that of its one line. */
  lemma {:induction false} QtyForDistinct(lines: seq<Line>, k: int)
    requires DistinctProducts(lines)
    ensures forall i :: 0 <= i < |lines| && lines[i].product == k ==> QtyFor(lines, k) == lines[i].quantity
    ensures (forall i :: 0 <= i < |lines| ==> lines[i].product != k) ==> QtyFor(lines, k) == 0
  {
    if lines != [] {
      var n := |lines|;
      QtyForDistinct(lines[..n - 1], k);
    }
  }

  /** No oversell: when every line passed the stock check against live stock and the
      lines name distinct products, no stock that was non-negative becomes negative. */
  lemma DecrementKeepsStockNonNegative(p: map<int, Product>, lines: seq<Line>)
    requires DistinctProducts(lines)
    requires forall l :: l in lines ==> l.product in p && l.quantity <= p[l.product].stock
    ensures forall k :: k in p && p[k].stock >= 0 ==> k in Decremented(p, lines) && Decremented(p, lines)[k].stock >= 0
  {
    forall k | k in p && p[k].stock >= 0 ensures k in Decremented(p, lines) && Decremented(p, lines)[k].stock >= 0 {
      DecrementedAt(p, lines, k);
      QtyForDistinct(lines, k);
      if i :| 0 <= i < |lines| && lines[i].product == k {
        assert lines[i] in lines;
      }
    }
  }

  /** Why one line per product matters: two lines for the same product, each
      within stock on its own, drive the stock below zero. */
  lemma DuplicateLinesOversell()
    ensures var p := map[7 := Product(1, "A", None, 100000, 1, 5, None)];
            var lines := [Line(1, 7, 3, "A", 100000, 5, 1), Line(2, 7, 3, "A", 100000, 5, 1)];
            (forall l :: l in lines ==> l.quantity <= l.stock) && 7 in Decremented(p, lines) && Decremented(p, lines)[7].stock == -1
  {
    var p := map[7 := Product(1, "A", None, 100000, 1, 5, None)];
    var lines := [Line(1, 7, 3, "A", 100000, 5, 1), Line(2, 7, 3, "A", 100000, 5, 1)];
    assert lines[..1] == [lines[0]];
    assert [lines[0]][..0] == [];
    assert Decremented(p, lines[..1]) == map[7 := Product(1, "A", None, 100000, 1, 2, None)];
  }

  lemma {:induction false} ItemsOfConcat(a: seq<OrderItem>, b: seq<OrderItem>, order: int)
    ensures ItemsOf(a + b, order) == ItemsOf(a, order) + ItemsOf(b, order)
  {
    if a != [] {
      assert (a + b)[1..] == a[1..] + b;
      ItemsOfConcat(a[1..], b, order);
    } else {
      assert a + b == b;
    }
  }

  lemma {:induction false} ItemsOfAll(items: seq<OrderItem>, order: int)
    requires forall it :: it in items ==> it.order == order
    ensures ItemsOf(items, order) == items
  {
    if items != [] {
      assert items[0] in items;
      assert forall it :: it in items[1..] ==> it in items;
      ItemsOfAll(items[1..], order);
      assert items == [items[0]] + items[1..];
    }
  }

  lemma {:induction false} ItemsOfNone(items: seq<OrderItem>, order: int)
    requires forall it :: it in items ==> it.order != order
    ensures ItemsOf(items, order) == []
  {
    if items != [] {
      assert items[0] in items;
      assert forall it :: it in items[1..] ==> it in items;
      ItemsOfNone(items[1..], order);
    }
  }

  /** The items of an order appended after every existing row are found again by ItemsOf. */
  lemma ItemsOfAppend(old_items: seq<OrderItem>, order: int, added: seq<OrderItem>)
    requires forall it :: it in old_items ==> it.order != order
    requires forall it :: it in added ==> it.order == order
    ensures ItemsOf(old_items + added, order) == added
  {
    ItemsOfConcat(old_items, added, order);
    ItemsOfNone(old_items, order);
    ItemsOfAll(added, order);
  }
}
