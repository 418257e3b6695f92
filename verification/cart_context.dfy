/** The browser-side cart of contexts/CartContext.jsx, as it behaves when the cart
    is kept locally (no session, or a failed server call): a list of lines, each
    holding a product and a quantity, updated by the cart actions, with totals
    computed over the list. */
module LocalCart {

  /** The part of a product the cart reads. */
  datatype ItemProduct = ItemProduct(id: int, price: int)

  /** A local cart line; a new line's id is the clock reading when it was added. */
  datatype Line = Line(id: int, product: ItemProduct, quantity: int)

  /** `findIndex` by product id: the first line holding the product, or -1. */
  function FindIndex(lines: seq<Line>, productId: int): (r: int)
    ensures -1 <= r < |lines|
    ensures r >= 0 ==> lines[r].product.id == productId && forall j :: 0 <= j < r ==> lines[j].product.id != productId
    ensures r == -1 <==> forall j :: 0 <= j < |lines| ==> lines[j].product.id != productId
  {
    if lines == [] then -1
    else if lines[0].product.id == productId then 0
    else
      var r := FindIndex(lines[1..], productId);
      if r == -1 then -1 else r + 1
  }

  /** The lines after a local quantity update: the lines with that id get the quantity. */
  function SetQuantity(lines: seq<Line>, id: int, quantity: int): (r: seq<Line>)
    ensures |r| == |lines|
    ensures forall i :: 0 <= i < |lines| ==> r[i] == (if lines[i].id == id then lines[i].(quantity := quantity) else lines[i])
  {
    if lines == [] then []
    else [if lines[0].id == id then lines[0].(quantity := quantity) else lines[0]] + SetQuantity(lines[1..], id, quantity)
  }

  /** The lines after a local remove: those whose id differs, in order. */
  function WithoutId(lines: seq<Line>, id: int): (r: seq<Line>)
    ensures |r| <= |lines|
    ensures forall line :: line in r <==> line in lines && line.id != id
  {
    if lines == [] then []
    else if lines[0].id == id then WithoutId(lines[1..], id)
    else [lines[0]] + WithoutId(lines[1..], id)
  }

  /** Removing works piece by piece, so the kept lines keep their order; removing
      an id no line has changes nothing. */
  lemma {:induction false} WithoutIdAppend(a: seq<Line>, b: seq<Line>, id: int)
    ensures WithoutId(a + b, id) == WithoutId(a, id) + WithoutId(b, id)
  {
    if a != [] {
      WithoutIdAppend(a[1..], b, id);
      assert (a + b)[1..] == a[1..] + b;
    } else {
      assert a + b == b;
    }
  }

  lemma {:induction false} WithoutAbsentId(lines: seq<Line>, id: int)
    requires forall i :: 0 <= i < |lines| ==> lines[i].id != id
    ensures WithoutId(lines, id) == lines
  {
    if lines != [] {
      WithoutAbsentId(lines[1..], id);
    }
  }

  /** The badge count: the quantities of the local lines, added up. */
  function TotalItems(lines: seq<Line>): int
  {
    if lines == [] then 0 else TotalItems(lines[..|lines| - 1]) + lines[|lines| - 1].quantity
  }

  /** The local cart's total: each line's stored price times its quantity, added up. */
  function TotalPrice(lines: seq<Line>): int
  {
    if lines == [] then 0 else TotalPrice(lines[..|lines| - 1]) + lines[|lines| - 1].product.price * lines[|lines| - 1].quantity
  }

  /** Changing one line's quantity by `delta` changes the totals by `delta` items and
      `delta` times that line's price. */
  lemma {:induction false} TotalsAfterBump(lines: seq<Line>, k: int, delta: int)
    requires 0 <= k < |lines|
    ensures TotalItems(lines[k := lines[k].(quantity := lines[k].quantity + delta)]) == TotalItems(lines) + delta
    ensures TotalPrice(lines[k := lines[k].(quantity := lines[k].quantity + delta)]) == TotalPrice(lines) + lines[k].product.price * delta
  {
    var bumped := lines[k := lines[k].(quantity := lines[k].quantity + delta)];
    var n := |lines| - 1;
    if k == n {
      assert bumped[..n] == lines[..n];
    } else {
      TotalsAfterBump(lines[..n], k, delta);
      assert bumped[..n] == lines[..n][k := lines[k].(quantity := lines[k].quantity + delta)];
    }
  }

  /** The local lines after `quantity` more of a product: the product's first line
      grows, or, for a product not yet held, a line stamped `now` is appended. */
  function Updated(lines: seq<Line>, product: ItemProduct, quantity: int, now: int): (r: seq<Line>)
    ensures |r| == |lines| + (if FindIndex(lines, product.id) >= 0 then 0 else 1)
    ensures forall j :: 0 <= j < |lines| && lines[j].product.id != product.id ==> r[j] == lines[j]
    ensures exists j :: 0 <= j < |r| && r[j].product.id == product.id
  {
    var k := FindIndex(lines, product.id);
    if k >= 0 then
      assert lines[k := lines[k].(quantity := lines[k].quantity + quantity)][k].product.id == product.id;
      lines[k := lines[k].(quantity := lines[k].quantity + quantity)]
    else
      assert (lines + [Line(now, product, quantity)])[|lines|].product.id == product.id;
      lines + [Line(now, product, quantity)]
  }

  class Cart {
    var lines: seq<Line>

    constructor ()
      ensures lines == []
    {
      lines := [];
    }

    /** updateLocalCart: a product already in the cart gets its first line's quantity
        raised by `quantity` and the cart keeps its length; a new product is appended
        as one new line whose id is the clock reading `now`. */
    method UpdateLocalCart(product: ItemProduct, quantity: int, now: int)
      modifies this
      ensures lines == Updated(old(lines), product, quantity, now)
      ensures FindIndex(old(lines), product.id) >= 0 ==>
        var k := FindIndex(old(lines), product.id);
        lines == old(lines)[k := old(lines)[k].(quantity := old(lines)[k].quantity + quantity)]
      ensures FindIndex(old(lines), product.id) == -1 ==> lines == old(lines) + [Line(now, product, quantity)]
      ensures TotalItems(lines) == TotalItems(old(lines)) + quantity
      ensures TotalPrice(lines) == TotalPrice(old(lines)) +
        (if FindIndex(old(lines), product.id) >= 0 then old(lines)[FindIndex(old(lines), product.id)].product.price else product.price) * quantity
    {
      var i := 0;
      while i < |lines| && lines[i].product.id != product.id
        invariant 0 <= i <= |lines|
        invariant forall j :: 0 <= j < i ==> lines[j].product.id != product.id
      {
        i := i + 1;
      }
      if i < |lines| {
        TotalsAfterBump(lines, i, quantity);
        lines := lines[i := lines[i].(quantity := lines[i].quantity + quantity)];
      } else {
        assert (lines + [Line(now, product, quantity)])[..|lines|] == lines;
        lines := lines + [Line(now, product, quantity)];
      }
    }

    /** The local branch of removeFromCart: drop the lines with that id. */
    method RemoveFromCart(id: int)
      modifies this
      ensures lines == WithoutId(old(lines), id)
    {
      lines := WithoutId(lines, id);
    }

    /** The local branch of updateQuantity: a quantity below 1 removes the line, any
        other quantity is set on the lines with that id and nothing else changes. */
    method UpdateQuantity(id: int, quantity: int)
      modifies this
      ensures quantity < 1 ==> lines == WithoutId(old(lines), id)
      ensures quantity >= 1 ==> lines == SetQuantity(old(lines), id, quantity)
    {
      if quantity < 1 {
        RemoveFromCart(id);
        return;
      }
      lines := SetQuantity(lines, id, quantity);
    }

    /** clearCart: every path leaves the cart empty. */
    method ClearCart()
      modifies this
      ensures lines == [] && TotalItems(lines) == 0 && TotalPrice(lines) == 0
    {
      lines := [];
    }
  }
}
