/**
 * The cart drawer: the quantity buttons, which delete a line once its quantity
 * would drop to zero, and checkout, which turns the cart into order lines,
 * builds the WhatsApp link and empties the cart.
 */
module CartDrawerComponent {
  import opened Wrappers
  import opened Lists
  import opened Storage
  import opened CartHook
  import opened WhatsApp

  /** `selectedSize || 'N/A'`. */
  function OrNotApplicable(choice: Option<string>): string {
    if Truthy(choice) then choice.value else "N/A"
  }

  /** The order line checkout builds for one cart line: `name - size - colour`, unit price and quantity. */
  function OrderLineOf(line: CartItem): OrderLine {
    OrderLine(line.product.name + " - " + OrNotApplicable(line.selectedSize) + " - " + OrNotApplicable(line.selectedColor),
              line.product.price, line.quantity)
  }

  /** `cartItems.map(...)`: one order line per cart line, in order. */
  function OrderLines(items: seq<CartItem>): (lines: seq<OrderLine>)
    ensures |lines| == |items|
    ensures forall i :: 0 <= i < |items| ==> lines[i] == OrderLineOf(items[i])
  {
    if items == [] then [] else [OrderLineOf(items[0])] + OrderLines(items[1..])
  }

  /** What an order's lines cost: unit price times quantity, summed. */
  function LinesTotal(lines: seq<OrderLine>): int {
    if lines == [] then 0 else lines[0].price * lines[0].quantity + LinesTotal(lines[1..])
  }

  /** The order total `getTotalPrice()` equals what the order's own lines add up to. */
  lemma {:induction false} CheckoutTotalMatchesLines(items: seq<CartItem>)
    ensures LinesTotal(OrderLines(items)) == TotalPrice(items)
  {
    if items != [] {
      assert OrderLines(items)[1..] == OrderLines(items[1..]);
      CheckoutTotalMatchesLines(items[1..]);
    }
  }

  /** Every line has quantity at least 1. */
  predicate AllPositive(items: seq<CartItem>) {
    forall i :: 0 <= i < |items| ==> items[i].quantity >= 1
  }

  /** The drawer over one cart. */
  class Drawer {
    const cart: Cart
    var isOpen: bool

    constructor (cart: Cart)
      ensures this.cart == cart && !isOpen
    {
      this.cart := cart;
      isOpen := false;
    }

    /**
     * `handleQuantityChange`: a quantity of 0 or less removes the line by its
     * key, a positive one is set on it. Either way no line is left with a
     * quantity below 1 if there was none before.
     */
    method HandleQuantityChange(line: CartItem, newQuantity: int)
      modifies cart, cart.store
      ensures newQuantity <= 0 ==> cart.items == Without(old(cart.items), KeyOf, KeyOf(line))
      ensures newQuantity > 0 ==> cart.items == UpdateWhere(old(cart.items), KeyOf, KeyOf(line), WithQuantity(newQuantity))
      ensures AllPositive(old(cart.items)) ==> AllPositive(cart.items)
      ensures cart.store.entries == old(cart.store.entries)[CartKey := CartJson(cart.items)]
    {
      if newQuantity <= 0 {
        cart.RemoveFromCart(line.product.id, line.selectedSize, line.selectedColor);
        assert forall i :: 0 <= i < |cart.items| ==> cart.items[i] in old(cart.items);
      } else {
        cart.UpdateQuantity(line.product.id, newQuantity, line.selectedSize, line.selectedColor);
      }
    }

    /**
     * `handleCheckout`: an empty cart builds nothing and changes nothing.
     * Otherwise the link carries one order line per cart line and the cart's
     * total price, and afterwards the cart is empty and the drawer closed.
     */
    method HandleCheckout(now: nat, suffix: string, date: string, time: string) returns (url: Option<string>)
      modifies this, cart, cart.store
      ensures old(cart.items) == [] ==>
        url == None && cart.items == [] && isOpen == old(isOpen) && cart.store.entries == old(cart.store.entries)
      ensures old(cart.items) != [] ==>
        url == Some(GenerateWhatsAppMessage(now, suffix, OrderLines(old(cart.items)), TotalPrice(old(cart.items)), date, time)) &&
        cart.items == [] && !isOpen &&
        cart.store.entries == old(cart.store.entries)[CartKey := CartJson([])]
    {
      if |cart.items| == 0 {
        return None;
      }
      var lines := OrderLines(cart.items);
      var total := TotalPrice(cart.items);
      url := Some(GenerateWhatsAppMessage(now, suffix, lines, total, date, time));
      cart.ClearCart();
      isOpen := false;
    }
  }
}
