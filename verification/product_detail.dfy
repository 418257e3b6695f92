/** The quantity selector and purchase buttons of pages/Products/ProductDetail.jsx:
    the chosen quantity starts at 1, is stepped by the + and - buttons or typed in,
    stays between 1 and the stock (1 when out of stock), and goes to the cart through
    the cart context; both purchase buttons refuse a product with no stock. */
module QuantitySelector {
  import opened Store
  import LocalCart

  function Max(a: int, b: int): int
  {
    if a >= b then a else b
  }

  datatype BuyNowOutcome = OutOfStock | LoginRequired | ToCheckout

  class Selector {
    const productId: int
    const price: int
    const stock: int
    var quantity: int

    /** The quantity is at least 1 and at most the stock, or 1 when there is no stock. */
    ghost predicate Valid()
      reads this
    {
      1 <= quantity <= Max(1, stock)
    }

    constructor (productId: int, price: int, stock: int)
      ensures this.productId == productId && this.price == price && this.stock == stock
      ensures quantity == 1 && Valid()
    {
      this.productId := productId;
      this.price := price;
      this.stock := stock;
      quantity := 1;
    }

    /** handleQuantityChange('increase'): one more, only while below the stock. */
    method Increase()
      requires Valid()
      modifies this
      ensures Valid()
      ensures quantity == if old(quantity) < stock then old(quantity) + 1 else old(quantity)
    {
      if quantity < stock {
        quantity := quantity + 1;
      }
    }

    /** handleQuantityChange('decrease'): one fewer, only while above 1. */
    method Decrease()
      requires Valid()
      modifies this
      ensures Valid()
      ensures quantity == if old(quantity) > 1 then old(quantity) - 1 else old(quantity)
    {
      if quantity > 1 {
        quantity := quantity - 1;
      }
    }

    /** The input's onChange: a typed value (`None` when it does not parse) is taken
        only when it is positive and within the stock. */
    method Type(value: Option<int>)
      requires Valid()
      modifies this
      ensures Valid()
      ensures value.Some? && 0 < value.value <= stock ==> quantity == value.value
      ensures !(value.Some? && 0 < value.value <= stock) ==> quantity == old(quantity)
    {
      if value.Some? && 0 < value.value <= stock {
        quantity := value.value;
      }
    }

    /** handleAddToCart: refused with no stock, changing nothing; otherwise the chosen
        quantity goes into the cart and the selector goes back to 1. */
    method AddToCart(cart: LocalCart.Cart, now: int) returns (added: bool)
      requires Valid()
      modifies this, cart
      ensures Valid()
      ensures added <==> stock != 0
      ensures !added ==> quantity == old(quantity) && cart.lines == old(cart.lines)
      ensures added ==> quantity == 1
      ensures added ==> cart.lines == LocalCart.Updated(old(cart.lines), LocalCart.ItemProduct(productId, price), old(quantity), now)
      ensures added ==> LocalCart.TotalItems(cart.lines) == LocalCart.TotalItems(old(cart.lines)) + old(quantity)
    {
      if stock == 0 {
        return false;
      }
      cart.UpdateLocalCart(LocalCart.ItemProduct(productId, price), quantity, now);
      quantity := 1;
      return true;
    }

    /** handleBuyNow: refused with no stock, then sends a signed-out visitor to log in;
        otherwise the chosen quantity goes into the cart and checkout follows. */
    method BuyNow(cart: LocalCart.Cart, isAuthenticated: bool, now: int) returns (outcome: BuyNowOutcome)
      requires Valid()
      modifies cart
      ensures stock == 0 ==> outcome == OutOfStock
      ensures stock != 0 && !isAuthenticated ==> outcome == LoginRequired
      ensures outcome != ToCheckout ==> cart.lines == old(cart.lines)
      ensures outcome == ToCheckout <==> stock != 0 && isAuthenticated
      ensures outcome == ToCheckout ==> cart.lines == LocalCart.Updated(old(cart.lines), LocalCart.ItemProduct(productId, price), quantity, now)
      ensures outcome == ToCheckout ==> LocalCart.TotalItems(cart.lines) == LocalCart.TotalItems(old(cart.lines)) + quantity
    {
      if stock == 0 {
        return OutOfStock;
      }
      if !isAuthenticated {
        return LoginRequired;
      }
      cart.UpdateLocalCart(LocalCart.ItemProduct(productId, price), quantity, now);
      return ToCheckout;
    }
  }
}
