/**
 * The cart hook: a list of lines keyed by product id, selected size and
 * selected colour, kept in memory and mirrored under `CartKey` after every
 * change. Adding merges into the line with the same key or appends a new one.
 */
module CartHook {
  import opened Wrappers
  import opened Lists
  import opened Storage

  type LineKey = (string, Option<string>, Option<string>)

  /** The identity of a line: the source compares id, size and colour with `===`. */
  function KeyOf(line: CartItem): LineKey {
    (line.product.id, line.selectedSize, line.selectedColor)
  }

  /** `{ ...item, quantity }` for every line it is applied to. */
  function WithQuantity(quantity: int): CartItem -> CartItem {
    (line: CartItem) => line.(quantity := quantity)
  }

  /**
   * The list `addToCart` saves: with the key present, the first line holding it
   * grows by `quantity` and nothing else changes; otherwise one new line is appended.
   */
  function AddLine(items: seq<CartItem>, product: Product, quantity: int,
                   size: Option<string>, color: Option<string>): (r: seq<CartItem>)
    ensures HasKey(items, KeyOf, (product.id, size, color)) ==>
      exists i :: 0 <= i < |items| && KeyOf(items[i]) == (product.id, size, color) &&
        (forall j :: 0 <= j < i ==> KeyOf(items[j]) != (product.id, size, color)) &&
        r == items[i := items[i].(quantity := items[i].quantity + quantity)]
    ensures !HasKey(items, KeyOf, (product.id, size, color)) ==>
      r == items + [CartItem(product, quantity, size, color)]
  {
    var i := FirstIndex(items, KeyOf, (product.id, size, color));
    if i >= 0 then items[i := items[i].(quantity := items[i].quantity + quantity)]
    else items + [CartItem(product, quantity, size, color)]
  }

  /** `getTotalItems`: the sum of the quantities. */
  function TotalItems(items: seq<CartItem>): int {
    if items == [] then 0 else items[0].quantity + TotalItems(items[1..])
  }

  /** `getTotalPrice`: each line's own stored price times its quantity, summed. */
  function TotalPrice(items: seq<CartItem>): int {
    if items == [] then 0 else items[0].product.price * items[0].quantity + TotalPrice(items[1..])
  }

  lemma {:induction false} TotalsAppend(a: seq<CartItem>, b: seq<CartItem>)
    ensures TotalItems(a + b) == TotalItems(a) + TotalItems(b)
    ensures TotalPrice(a + b) == TotalPrice(a) + TotalPrice(b)
  {
    if a == [] {
      assert a + b == b;
    } else {
      assert (a + b)[1..] == a[1..] + b;
      TotalsAppend(a[1..], b);
    }
  }

  /** Changing one line's quantity moves the totals by exactly that line's difference. */
  lemma {:induction false} TotalsUpdate(items: seq<CartItem>, i: nat, quantity: int)
    requires i < |items|
    ensures TotalItems(items[i := items[i].(quantity := quantity)])
         == TotalItems(items) - items[i].quantity + quantity
    ensures TotalPrice(items[i := items[i].(quantity := quantity)])
         == TotalPrice(items) - items[i].product.price * items[i].quantity + items[i].product.price * quantity
  {
    var r := items[i := items[i].(quantity := quantity)];
    if i == 0 {
      assert r[1..] == items[1..];
    } else {
      assert r[1..] == items[1..][i - 1 := items[i].(quantity := quantity)];
      TotalsUpdate(items[1..], i - 1, quantity);
    }
  }

  /**
   * Adding raises the item count by exactly `quantity` and the price by the
   * price of the line that receives it: the existing line's stored price when
   * merging, the product's price when appending.
   */
  lemma AddLineTotals(items: seq<CartItem>, product: Product, quantity: int,
                      size: Option<string>, color: Option<string>)
    ensures var r := AddLine(items, product, quantity, size, color);
      var i := FirstIndex(items, KeyOf, (product.id, size, color));
      var price := if i >= 0 then items[i].product.price else product.price;
      TotalItems(r) == TotalItems(items) + quantity &&
      TotalPrice(r) == TotalPrice(items) + price * quantity
  {
    var i := FirstIndex(items, KeyOf, (product.id, size, color));
    if i >= 0 {
      var p, q := items[i].product.price, items[i].quantity;
      TotalsUpdate(items, i, q + quantity);
      assert p * (q + quantity) == p * q + p * quantity by { Distribute(p, q, quantity); }
    } else {
      var line := CartItem(product, quantity, size, color);
      TotalsAppend(items, [line]);
      assert [line][1..] == [];
    }
  }

  lemma Distribute(p: int, a: int, b: int)
    ensures p * (a + b) == p * a + p * b
  {
  }

  /** If no two lines share a key before adding, none do after. */
  lemma AddLineUnique(items: seq<CartItem>, product: Product, quantity: int,
                      size: Option<string>, color: Option<string>)
    requires UniqueKeys(items, KeyOf)
    ensures UniqueKeys(AddLine(items, product, quantity, size, color), KeyOf)
  {
    var k := (product.id, size, color);
    if HasKey(items, KeyOf, k) {
      var r := AddLine(items, product, quantity, size, color);
      assert forall j :: 0 <= j < |r| ==> KeyOf(r[j]) == KeyOf(items[j]);
    } else {
      AppendUnique(items, KeyOf, CartItem(product, quantity, size, color));
    }
  }

  /** `updateQuantity` keeps every line and its key; matching lines get the new quantity, however small. */
  lemma SetQuantityShape(items: seq<CartItem>, key: LineKey, quantity: int)
    ensures var r := UpdateWhere(items, KeyOf, key, WithQuantity(quantity));
      |r| == |items| &&
      (forall i :: 0 <= i < |r| ==> KeyOf(r[i]) == KeyOf(items[i])) &&
      (forall i :: 0 <= i < |r| && KeyOf(items[i]) == key ==> r[i] == items[i].(quantity := quantity))
  {
  }

  /** The state of one `useCart()` instance. */
  class Cart {
    const store: KeyValueStore
    var items: seq<CartItem>

    /** The stored value equals the list in memory. */
    predicate Mirrored()
      reads this, store
    {
      CartKey in store.entries && store.entries[CartKey] == CartJson(items)
    }

    /** The mount effect: the stored list when one is readable, otherwise an empty cart. */
    constructor Load(store: KeyValueStore)
      ensures this.store == store
      ensures CartKey in store.entries && store.entries[CartKey].CartJson? ==> items == store.entries[CartKey].items
      ensures CartKey !in store.entries || store.entries[CartKey] == Malformed ==> items == []
    {
      this.store := store;
      items := StoredCart(store.entries);
    }

    /** `saveCart`: replace the list and write it under `CartKey`. */
    method Save(newCart: seq<CartItem>)
      modifies this, store
      ensures items == newCart && Mirrored()
      ensures store.entries == old(store.entries)[CartKey := CartJson(newCart)]
    {
      items := newCart;
      store.SetItem(CartKey, CartJson(newCart));
    }

    /** `addToCart`: find the line with the same key, raise its quantity in place, or append a line. */
    method AddToCart(product: Product, quantity: int := 1, size: Option<string> := None, color: Option<string> := None)
      modifies this, store
      ensures items == AddLine(old(items), product, quantity, size, color) && Mirrored()
      ensures store.entries == old(store.entries)[CartKey := CartJson(items)]
    {
      var i := FirstIndex(items, KeyOf, (product.id, size, color));
      if i >= 0 {
        var newCart := items;
        newCart := newCart[i := newCart[i].(quantity := newCart[i].quantity + quantity)];
        Save(newCart);
      } else {
        Save(items + [CartItem(product, quantity, size, color)]);
      }
    }

    /** `removeFromCart`: drop every line with exactly this key. */
    method RemoveFromCart(id: string, size: Option<string> := None, color: Option<string> := None)
      modifies this, store
      ensures items == Without(old(items), KeyOf, (id, size, color)) && Mirrored()
      ensures store.entries == old(store.entries)[CartKey := CartJson(items)]
    {
      Save(Without(items, KeyOf, (id, size, color)));
    }

    /** `updateQuantity`: give every line with this key the new quantity. */
    method UpdateQuantity(id: string, quantity: int, size: Option<string> := None, color: Option<string> := None)
      modifies this, store
      ensures items == UpdateWhere(old(items), KeyOf, (id, size, color), WithQuantity(quantity)) && Mirrored()
      ensures store.entries == old(store.entries)[CartKey := CartJson(items)]
    {
      Save(UpdateWhere(items, KeyOf, (id, size, color), WithQuantity(quantity)));
    }

    /** `clearCart`: the cart then counts no items and costs nothing. */
    method ClearCart()
      modifies this, store
      ensures items == [] && Mirrored()
      ensures TotalItems(items) == 0 && TotalPrice(items) == 0
      ensures store.entries == old(store.entries)[CartKey := CartJson([])]
    {
      Save([]);
    }
  }
}
