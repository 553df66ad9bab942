/**
 * The product detail page: size and colour pickers that refuse options out of
 * stock, a gallery that follows the chosen colour, a quantity stepper that
 * never goes below 1, and the three actions (add to cart, buy now through
 * WhatsApp, toggle favourite).
 */
module ProductPage {
  import opened Wrappers
  import opened Storage
  import opened CartHook
  import opened FavoritesHook
  import opened WhatsApp
  import opened CartDrawerComponent

  /** What the page knows about its product besides the cart record: pictures and stock per option. */
  datatype PageData = PageData(
    images: seq<string>, colorImages: map<string, seq<string>>,
    sizeStock: map<string, int>, colorStock: map<string, int>)

  /**
   * `isOutOfStock(size, color)`: a given size whose stock is 0 or less, or a
   * given colour whose stock is 0 or less. An option with no stock entry
   * compares `undefined <= 0`, which is false, so it counts as available.
   */
  predicate IsOutOfStock(data: PageData, size: Option<string>, color: Option<string>) {
    if Truthy(size) && size.value in data.sizeStock && data.sizeStock[size.value] <= 0 then true
    else if Truthy(color) && color.value in data.colorStock && data.colorStock[color.value] <= 0 then true
    else false
  }

  /** `getCurrentImages`: the chosen colour's pictures when it has an entry, otherwise the product's. */
  function CurrentImages(data: PageData, selectedColor: string): (r: seq<string>)
    ensures selectedColor != "" && selectedColor in data.colorImages ==> r == data.colorImages[selectedColor]
    ensures r == data.images || r in data.colorImages.Values
  {
    if selectedColor != "" && selectedColor in data.colorImages then data.colorImages[selectedColor] else data.images
  }

  /**
   * A colour without pictures of its own shows the product's gallery, the
   * same as when no colour is chosen.
   */
  lemma GalleryWithoutColorImages(data: PageData, color: string)
    requires color !in data.colorImages
    ensures CurrentImages(data, color) == CurrentImages(data, "") == data.images
  {
  }

  /** The single order line of "buy now": `name - size - colour`, unit price and quantity. */
  function BuyNowLine(product: Product, size: string, color: string, quantity: int): OrderLine {
    OrderLine(product.name + " - " + size + " - " + color, product.price, quantity)
  }

  /**
   * A size and a colour are out of stock together exactly when one of them is
   * alone, and an option without a stock entry is never out of stock.
   */
  lemma OutOfStockParts(data: PageData, size: Option<string>, color: Option<string>)
    ensures IsOutOfStock(data, size, color) <==> IsOutOfStock(data, size, None) || IsOutOfStock(data, None, color)
    ensures size.Some? && size.value !in data.sizeStock ==> IsOutOfStock(data, size, color) == IsOutOfStock(data, None, color)
    ensures color.Some? && color.value !in data.colorStock ==> !IsOutOfStock(data, None, color)
  {
  }

  /** As at checkout, the total "buy now" sends is what its one line adds up to. */
  lemma BuyNowTotal(product: Product, size: string, color: string, quantity: int)
    ensures LinesTotal([BuyNowLine(product, size, color, quantity)]) == product.price * quantity
  {
    assert [BuyNowLine(product, size, color, quantity)][1..] == [];
  }

  /** The notice shown after toggling: it is chosen from the state before the toggle. */
  datatype FavoriteNotice = AddedToFavorites | RemovedFromFavorites

  /** The state of one product page. */
  class ProductView {
    const product: Product
    const data: PageData
    const cart: Cart
    const favorites: Favorites
    var selectedSize: string
    var selectedColor: string
    var quantity: int
    var selectedImageIndex: int

    /**
     * The quantity is at least 1, a chosen size or colour is in stock, and the
     * picture index points into the current gallery when it has pictures.
     */
    predicate Valid()
      reads this
    {
      quantity >= 1 &&
      (selectedSize != "" ==> !IsOutOfStock(data, Some(selectedSize), None)) &&
      (selectedColor != "" ==> !IsOutOfStock(data, None, Some(selectedColor))) &&
      0 <= selectedImageIndex &&
      (|CurrentImages(data, selectedColor)| > 0 ==> selectedImageIndex < |CurrentImages(data, selectedColor)|)
    }

    /** The picture on display: the current gallery's picture at the chosen index, if there is one. */
    function ShownPicture(): (r: Option<string>)
      reads this
      ensures r.Some? <==> 0 <= selectedImageIndex < |CurrentImages(data, selectedColor)|
      ensures r.Some? ==> r.value in CurrentImages(data, selectedColor)
    {
      var gallery := CurrentImages(data, selectedColor);
      if 0 <= selectedImageIndex < |gallery| then Some(gallery[selectedImageIndex]) else None
    }

    /** Nothing chosen, quantity 1, first picture. */
    constructor (product: Product, data: PageData, cart: Cart, favorites: Favorites)
      ensures this.product == product && this.data == data && this.cart == cart && this.favorites == favorites
      ensures selectedSize == "" && selectedColor == "" && quantity == 1 && selectedImageIndex == 0
      ensures Valid()
    {
      this.product, this.data, this.cart, this.favorites := product, data, cart, favorites;
      selectedSize, selectedColor, quantity, selectedImageIndex := "", "", 1, 0;
    }

    /** A click on a size button: a size out of stock is disabled and ignored. */
    method SelectSize(size: string)
      requires Valid()
      modifies this
      ensures Valid()
      ensures selectedSize == if IsOutOfStock(data, Some(size), None) then old(selectedSize) else size
      ensures selectedColor == old(selectedColor) && quantity == old(quantity) && selectedImageIndex == old(selectedImageIndex)
    {
      if !IsOutOfStock(data, Some(size), None) {
        selectedSize := size;
      }
    }

    /** `handleColorChange`, reached only through an enabled colour button: choose it and show its first picture. */
    method SelectColor(color: string)
      requires Valid()
      modifies this
      ensures Valid()
      ensures IsOutOfStock(data, None, Some(color)) ==>
        selectedColor == old(selectedColor) && selectedImageIndex == old(selectedImageIndex)
      ensures !IsOutOfStock(data, None, Some(color)) ==> selectedColor == color && selectedImageIndex == 0
      ensures !IsOutOfStock(data, None, Some(color)) ==>
        ShownPicture() == if |CurrentImages(data, color)| > 0 then Some(CurrentImages(data, color)[0]) else None
      ensures selectedSize == old(selectedSize) && quantity == old(quantity)
    {
      if !IsOutOfStock(data, None, Some(color)) {
        selectedColor := color;
        selectedImageIndex := 0;
      }
    }

    /** A click on a thumbnail of the current gallery. */
    method SelectImage(index: int)
      requires Valid() && 0 <= index < |CurrentImages(data, selectedColor)|
      modifies this
      ensures Valid() && selectedImageIndex == index
      ensures selectedSize == old(selectedSize) && selectedColor == old(selectedColor) && quantity == old(quantity)
      ensures ShownPicture() == Some(CurrentImages(data, selectedColor)[index])
    {
      selectedImageIndex := index;
    }

    /** The minus button: `Math.max(1, quantity - 1)`. */
    method DecrementQuantity()
      requires Valid()
      modifies this
      ensures Valid()
      ensures quantity == if old(quantity) > 1 then old(quantity) - 1 else 1
      ensures selectedSize == old(selectedSize) && selectedColor == old(selectedColor)
      ensures selectedImageIndex == old(selectedImageIndex)
    {
      quantity := if quantity - 1 > 1 then quantity - 1 else 1;
    }

    /** The plus button. */
    method IncrementQuantity()
      requires Valid()
      modifies this
      ensures Valid() && quantity == old(quantity) + 1
      ensures selectedSize == old(selectedSize) && selectedColor == old(selectedColor)
      ensures selectedImageIndex == old(selectedImageIndex)
    {
      quantity := quantity + 1;
    }

    /**
     * `handleAddToCart`: both a size and a colour must be chosen; then the
     * chosen quantity of that variant goes into the cart.
     */
    method HandleAddToCart() returns (added: bool)
      requires Valid()
      modifies cart, cart.store
      ensures added <==> selectedSize != "" && selectedColor != ""
      ensures !added ==> cart.items == old(cart.items) && cart.store.entries == old(cart.store.entries)
      ensures added ==>
        cart.items == AddLine(old(cart.items), product, quantity, Some(selectedSize), Some(selectedColor)) &&
        cart.store.entries == old(cart.store.entries)[CartKey := CartJson(cart.items)]
    {
      if selectedSize == "" || selectedColor == "" {
        return false;
      }
      cart.AddToCart(product, quantity, Some(selectedSize), Some(selectedColor));
      added := true;
    }

    /**
     * `handleBuyNow`: both a size and a colour must be chosen; then the link
     * for an order of this one line, at price times quantity, is built. The
     * cart is not touched.
     */
    method HandleBuyNow(now: nat, suffix: string, date: string, time: string) returns (url: Option<string>)
      requires Valid()
      ensures url.Some? <==> selectedSize != "" && selectedColor != ""
      ensures url.Some? ==>
        url.value == GenerateWhatsAppMessage(now, suffix, [BuyNowLine(product, selectedSize, selectedColor, quantity)],
                                             product.price * quantity, date, time)
    {
      if selectedSize == "" || selectedColor == "" {
        return None;
      }
      var line := BuyNowLine(product, selectedSize, selectedColor, quantity);
      url := Some(GenerateWhatsAppMessage(now, suffix, [line], product.price * quantity, date, time));
    }

    /** `handleToggleFavorite`: the notice says "removed" exactly when the product is no longer a favourite. */
    method HandleToggleFavorite() returns (notice: FavoriteNotice)
      modifies favorites, favorites.store
      ensures notice == RemovedFromFavorites <==> !favorites.IsFavorite(product.id)
      ensures notice == RemovedFromFavorites <==> old(favorites.IsFavorite(product.id))
      ensures favorites.favorites == Lists.Toggle(old(favorites.favorites), IdOf, product)
      ensures favorites.store.entries == old(favorites.store.entries)[FavoritesKey := FavoritesJson(favorites.favorites)]
    {
      var wasFavorite := favorites.IsFavorite(product.id);
      favorites.ToggleFavorite(product);
      notice := if wasFavorite then RemovedFromFavorites else AddedToFavorites;
    }
  }
}
