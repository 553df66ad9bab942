/**
 * The records the storefront keeps in the browser and the string-keyed store
 * (`localStorage`) they are written to. A stored value is the parsed JSON of
 * what was written, or `Malformed` for a value `JSON.parse` rejects (or the
 * empty string, which the hooks treat the same way: nothing is loaded).
 * Amounts of money are integer cents.
 */
module Storage {
  import opened Wrappers

  /** The product snapshot the shop pages, the cart and the favourites share. */
  datatype Product = Product(
    id: string,
    name: string,
    price: int,
    originalPrice: Option<int>,
    discount: Option<int>,
    image: string,
    description: string,
    isPromotion: Option<bool>,
    category: Option<string>,
    sizes: Option<seq<string>>,
    colors: Option<seq<string>>,
    material: Option<string>,
    care: Option<string>,
    stock: Option<int>)

  /** A cart line: the product fields copied when the line was created, plus the choice made. */
  datatype CartItem = CartItem(
    product: Product,
    quantity: int,
    selectedSize: Option<string>,
    selectedColor: Option<string>)

  datatype Review = Review(
    id: string,
    productId: string,
    rating: int,
    comment: string,
    userName: Option<string>,
    date: string,
    isAnonymous: bool)

  /** A stored value, as `JSON.parse` reads it back. */
  datatype Blob =
    | CartJson(items: seq<CartItem>)
    | FavoritesJson(products: seq<Product>)
    | ReviewsJson(reviews: seq<Review>)
    | Malformed

  const CartKey: string := "zander-store-cart"
  const FavoritesKey: string := "zander-store-favorites"
  const ReviewsKey: string := "zander-store-reviews"

  /** The browser's `localStorage`: one value per key, shared by every hook. */
  class KeyValueStore {
    var entries: map<string, Blob>

    constructor (initial: map<string, Blob>)
      ensures entries == initial
    {
      entries := initial;
    }

    /** `localStorage.setItem(key, JSON.stringify(value))`. */
    method SetItem(key: string, value: Blob)
      modifies this
      ensures entries == old(entries)[key := value]
    {
      entries := entries[key := value];
    }
  }

  /** What a hook loads from a stored cart value: the list, or nothing when it is missing or unreadable. */
  function StoredCart(entries: map<string, Blob>): seq<CartItem>
  {
    if CartKey in entries && entries[CartKey].CartJson? then entries[CartKey].items else []
  }

  function StoredFavorites(entries: map<string, Blob>): seq<Product>
  {
    if FavoritesKey in entries && entries[FavoritesKey].FavoritesJson? then entries[FavoritesKey].products else []
  }

  function StoredReviews(entries: map<string, Blob>): seq<Review>
  {
    if ReviewsKey in entries && entries[ReviewsKey].ReviewsJson? then entries[ReviewsKey].reviews else []
  }

  /** The three keys are distinct, so writing one never disturbs the others. */
  lemma KeysDistinct()
    ensures CartKey != FavoritesKey && CartKey != ReviewsKey && FavoritesKey != ReviewsKey
  {
    assert CartKey[13] != FavoritesKey[13];
    assert CartKey[13] != ReviewsKey[13];
    assert FavoritesKey[13] != ReviewsKey[13];
  }
}
