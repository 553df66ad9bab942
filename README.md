# Zander Store storefront — a verified Dafny model

The Zander Store is a clothing storefront written as a React single-page application.
This project models its logic and proves properties of that model:

- the shopping cart, the favourites and the product reviews, each kept in the browser's `localStorage`;
- the admin catalogue of products, promotions and product sets;
- the forms that create those records;
- the listing pages, with their search, category filter and sort;
- the product page;
- the WhatsApp order links built at checkout.

Every state-changing hook and component is a `class`. Its fields are the component's state, and its methods are
the event handlers, each with the new state stated in its `ensures`. Pure computations are functions with lemmas
about them.

| module | file | models |
|---|---|---|
| `Wrappers` | `wrappers.dfy` | `Option`, used for the optional fields |
| `Storage` | `storage.dfy` | the records kept in the browser; a shared `KeyValueStore` standing for `localStorage`; the three keys |
| `Lists` | `lists.dfy` | the array operations the hooks apply: `filter` by a key, `findIndex`, `map` over matching entries, toggle membership |
| `Text` | `text.dfy` | `trim`, ASCII `toLowerCase`/`toUpperCase`, `includes`, UTF-16 `length`, `join` |
| `Numerals` | `numerals.dfy` | `toString(radix)` of naturals; `toFixed(2)` of an amount in cents |
| `JsNumber` | `jsnumber.dfy` | `parseFloat` and `parseInt` on form text; the `NaN`-absorbing arithmetic applied to their results |
| `UriEncoding` | `uri.dfy` | `encodeURIComponent`: UTF-8 followed by percent-encoding |
| `Sorting` | `sorting.dfy` | the comparators of the listing pages; `Array.prototype.sort` as one stable insertion sort, written as a function and as an in-place array sort, with the uniqueness of a stable sort's result |
| `CartHook` | `cart.dfy` | `src/hooks/useCart.ts` |
| `FavoritesHook` | `favorites.dfy` | `src/hooks/useFavorites.ts` |
| `ReviewsHook` | `reviews.dfy` | `src/hooks/useReviews.ts` |
| `WhatsApp` | `whatsapp.dfy` | `src/utils/whatsapp.ts` |
| `StoreContext` | `store.dfy` | `src/contexts/StoreContext.tsx` |
| `CartDrawerComponent` | `cart_drawer.dfy` | `src/components/CartDrawer.tsx` |
| `ProductFormComponent` | `product_form.dfy` | `src/components/ProductForm.tsx` |
| `PromotionFormComponent` | `promotion_form.dfy` | `src/components/PromotionForm.tsx` |
| `SetFormComponent` | `set_form.dfy` | `src/components/SetForm.tsx` |
| `ReviewFormComponent` | `review_form.dfy` | `src/components/ReviewForm.tsx` |
| `CatalogPage` | `catalog.dfy` | `src/pages/Catalog.tsx` |
| `SetsPage` | `sets_page.dfy` | `src/pages/Sets.tsx` |
| `PromotionsPage` | `promotions_page.dfy` | `src/pages/Promotions.tsx` |
| `ProductPage` | `product_page.dfy` | `src/pages/Product.tsx` |

**Modelling conventions**
- A JavaScript truthiness test on a string (`if (x)`, `!x`, `x || 'N/A'`) means "not empty".
- An optional field is an `Option`.
- Storefront prices (cart, favourites, product page and order lines) are integers counting cents.
- The admin forms' numbers come from `parseFloat`/`parseInt`, so they are `Number = Num(real) | NaN`.
- The fixed prices of the sets and promotions pages are reals.
- `localeCompare` is code-point order, and lower-casing is ASCII only.
- `Array.prototype.sort` is stable, as ECMAScript 2019 requires: elements the comparator ranks equal keep their order.
- The clock (`Date.now()`), the random id suffixes and the locale-formatted date and time are method parameters.

## Model

| member | source | states |
|---|---|---|
| CartHook.AddLine | src/hooks/useCart.ts:31-51 | when a line with the same product, size and colour exists, the first such line has its quantity raised by the amount added and every other line is unchanged; otherwise exactly one new line is appended |
| CartHook.TotalsAppend | src/hooks/useCart.ts:78-84 | the item count and the total price of a concatenation are the sums of those of the parts |
| CartHook.TotalsUpdate | src/hooks/useCart.ts:62-84 | changing one line's quantity changes the item count by the difference and the total by price times the difference |
| CartHook.AddLineTotals | src/hooks/useCart.ts:31-51 | after adding, the item count grows by the quantity added and the total by price times quantity |
| CartHook.AddLineUnique | src/hooks/useCart.ts:31-51 | adding keeps the (product, size, colour) keys of the lines unique |
| CartHook.SetQuantityShape | src/hooks/useCart.ts:62-72 | `updateQuantity` keeps every line and its key; matching lines take the new quantity, however small |
| CartHook.Cart.Load | src/hooks/useCart.ts:15-24 | the cart starts as the stored list, or empty when nothing readable is stored |
| CartHook.Cart.Save | src/hooks/useCart.ts:26-29 | `saveCart` sets the list and writes it under the cart key, nothing else in storage changes |
| CartHook.Cart.AddToCart | src/hooks/useCart.ts:31-51 | the new list is `AddLine` of the old one, and storage mirrors it |
| CartHook.Cart.RemoveFromCart | src/hooks/useCart.ts:53-60 | every line with that product, size and colour is dropped, the others kept in order; storage mirrors it |
| CartHook.Cart.UpdateQuantity | src/hooks/useCart.ts:62-72 | every line with that key gets the new quantity, others unchanged; storage mirrors it |
| CartHook.Cart.ClearCart | src/hooks/useCart.ts:74-84 | the cart and its stored copy become empty, so the item count and the total price are 0 |
| FavoritesHook.Favorites.Load | src/hooks/useFavorites.ts:25-34 | favourites start as the stored list, or empty when nothing readable is stored |
| FavoritesHook.Favorites.Save | src/hooks/useFavorites.ts:36-39 | the list is replaced and written under the favourites key |
| FavoritesHook.Favorites.AddToFavorites | src/hooks/useFavorites.ts:41-44 | the product is appended, even when already present |
| FavoritesHook.Favorites.RemoveFromFavorites | src/hooks/useFavorites.ts:46-49 | every entry with that id is removed, the others kept in order |
| FavoritesHook.Favorites.ToggleFavorite | src/hooks/useFavorites.ts:51-61 | the product's membership flips, every other id keeps its membership, and unique ids stay unique |
| ReviewsHook.ScopedWriteSeparates | src/hooks/useReviews.ts:34-56 | after a bound save, that product's stored reviews are exactly the new list and every other product's are unchanged |
| ReviewsHook.UnboundWriteReplaces | src/hooks/useReviews.ts:47-52 | without a product id a save replaces the whole stored collection |
| ReviewsHook.AverageTenths | src/hooks/useReviews.ts:75-79 | 0 without reviews; otherwise the tenths nearest to the mean, rounding half up |
| ReviewsHook.AverageExample | src/hooks/useReviews.ts:75-79 | ratings 5, 5 and 4 average 4.7 |
| ReviewsHook.AverageBounds | src/hooks/useReviews.ts:75-79 | with ratings from 1 to 5 the average lies between 1.0 and 5.0 |
| ReviewsHook.CountsAddUp | src/hooks/useReviews.ts:81-87 | with ratings from 1 to 5 the five histogram counts add up to the number of reviews |
| ReviewsHook.Reviews.Load | src/hooks/useReviews.ts:18-32 | a bound hook loads the stored reviews of its product in stored order; an unbound one loads all; unreadable storage gives none |
| ReviewsHook.Reviews.SaveReviews | src/hooks/useReviews.ts:34-56 | storage receives the stored reviews of other products followed by the new list (bound), or the new list alone (unbound) |
| ReviewsHook.Reviews.AddReview | src/hooks/useReviews.ts:58-73 | unbound: nothing changes; bound: one review for the product is appended and saved, without a name when anonymous |
| ReviewsHook.Reviews.RatingDistribution | src/hooks/useReviews.ts:81-87 | keys 1 to 5 hold the count of reviews with that rating; any other key is `NaN` and comes from a review with that rating |
| WhatsApp.OrderId | src/utils/whatsapp.ts:21-25 | the order id starts with `ZS-` and has no lower-case letter |
| WhatsApp.OrderIdTimestamp | src/utils/whatsapp.ts:21-25 | the base-36 timestamp can be read back from the upper-cased id |
| WhatsApp.NewOrderMessageContents | src/utils/whatsapp.ts:52-70 | the order message contains the order id, every item entry and the total line |
| WhatsApp.GenerateWhatsAppMessage | src/utils/whatsapp.ts:52-73 | the link starts with the shop's `wa.me` address and `?text=`, and its query decodes to the UTF-8 bytes of the order message |
| WhatsApp.FormattedEntryParts | src/utils/whatsapp.ts:28-30 | a given size and colour appear in the item entry; an empty or missing one leaves no trace |
| WhatsApp.EntriesAgree | src/utils/whatsapp.ts:28-30 | without size and colour, an order item is formatted as the checkout formats a line |
| WhatsApp.EmailLineOnlyWhenGiven | src/utils/whatsapp.ts:32-47 | the e-mail line appears when an e-mail is given; otherwise the message is that of an order without one |
| WhatsApp.FormatWhatsAppMessage | src/utils/whatsapp.ts:27-50 | the encoded text is query-safe and decodes to the UTF-8 bytes of the message |
| WhatsApp.SendToWhatsAppUrl | src/utils/whatsapp.ts:75-79 | the link is `https://wa.me/` plus the phone and `?text=`, followed by a query decoding to the message |
| StoreContext.OverlayLaws | src/contexts/StoreContext.tsx:97-113 | an empty patch changes nothing, applying a patch twice equals once, a patch without id keeps the id |
| StoreContext.NewId | src/contexts/StoreContext.tsx:73-95 | a new id starts with its kind's prefix |
| StoreContext.IdKindsDisjoint | src/contexts/StoreContext.tsx:73-95 | product, promotion and set ids can never coincide |
| StoreContext.Store.constructor | src/contexts/StoreContext.tsx:68-71 | the three lists start empty |
| StoreContext.Store.AddProduct | src/contexts/StoreContext.tsx:73-79 | one product under a new `PRD-` id is appended; promotions and sets unchanged |
| StoreContext.Store.AddPromotion | src/contexts/StoreContext.tsx:81-87 | one promotion under a new `PROMO-` id is appended; the other lists unchanged |
| StoreContext.Store.AddSet | src/contexts/StoreContext.tsx:89-95 | one set under a new `SET-` id is appended; the other lists unchanged |
| StoreContext.Store.UpdateProduct | src/contexts/StoreContext.tsx:97-101 | every product with that id is overlaid with the patch, the rest unchanged |
| StoreContext.Store.UpdatePromotion | src/contexts/StoreContext.tsx:103-107 | every promotion with that id is overlaid with the patch, the rest unchanged |
| StoreContext.Store.UpdateSet | src/contexts/StoreContext.tsx:109-113 | every set with that id is overlaid with the patch, the rest unchanged |
| StoreContext.Store.DeleteProduct | src/contexts/StoreContext.tsx:115-117 | every product with that id is removed, the rest kept in order |
| StoreContext.Store.DeletePromotion | src/contexts/StoreContext.tsx:119-121 | every promotion with that id is removed, the rest kept in order |
| StoreContext.Store.DeleteSet | src/contexts/StoreContext.tsx:123-125 | every set with that id is removed, the rest kept in order |
| CartDrawerComponent.OrderLines | src/components/CartDrawer.tsx:44-49 | one order line per cart line, in order, named `name - size - colour` with `N/A` for a missing choice |
| CartDrawerComponent.CheckoutTotalMatchesLines | src/components/CartDrawer.tsx:44-52 | the total sent at checkout is what the order lines add up to |
| CartDrawerComponent.Drawer.constructor | src/components/CartDrawer.tsx:15-17 | the drawer starts closed over the cart |
| CartDrawerComponent.Drawer.HandleQuantityChange | src/components/CartDrawer.tsx:26-32 | a quantity of 0 or less removes the line, otherwise it is set; positive quantities stay positive |
| CartDrawerComponent.Drawer.HandleCheckout | src/components/CartDrawer.tsx:34-64 | an empty cart changes nothing; otherwise the link carries every line and the cart's total, then the cart is emptied and the drawer closed |
| ProductFormComponent.TrimmedIsTidy | src/components/ProductForm.tsx:67-83 | a trimmed non-blank colour or size is non-empty with no surrounding whitespace |
| ProductFormComponent.ProductRecord | src/components/ProductForm.tsx:102-118 | the record saved: the typed name, category and description, parsed price and stock, the parsed original price exactly when one was typed, the featured flag, colours only when any, a promotion that is on only when switched on |
| ProductFormComponent.StockRoundTrip | src/components/ProductForm.tsx:107 | a typed decimal stock number is saved as that number |
| ProductFormComponent.ProductForm.constructor | src/components/ProductForm.tsx:18-35 | every field starts empty |
| ProductFormComponent.ProductForm.OnImageLoaded | src/components/ProductForm.tsx:37-50 | a loaded picture is appended; an empty result is ignored; every typed field, switch and other list, and both entry inputs, unchanged |
| ProductFormComponent.ProductForm.OnColorImageLoaded | src/components/ProductForm.tsx:52-65 | only the colour at that index gets the picture; names and count unchanged; every typed field, switch and other list, and both entry inputs, unchanged |
| ProductFormComponent.ProductForm.AddColor | src/components/ProductForm.tsx:67-72 | a blank colour is ignored; otherwise its trimmed name is appended and the input cleared; every typed field, switch and other list, and the size input, unchanged |
| ProductFormComponent.ProductForm.RemoveColor | src/components/ProductForm.tsx:74-76 | the colour at that index is removed; an index out of range changes nothing; every typed field, switch and other list, and both entry inputs, unchanged |
| ProductFormComponent.ProductForm.AddSize | src/components/ProductForm.tsx:78-83 | a blank or already listed size is ignored; otherwise the trimmed size is appended; sizes stay distinct; every typed field, switch and other list, and the colour input, unchanged |
| ProductFormComponent.ProductForm.RemoveSize | src/components/ProductForm.tsx:85-87 | the size is gone and every other size keeps its membership; every typed field, switch and other list, and both entry inputs, unchanged |
| ProductFormComponent.ProductForm.HandleSubmit | src/components/ProductForm.tsx:89-123 | missing name, category, price or stock, then missing pictures, reject without change; otherwise exactly one product record is added |
| PromotionFormComponent.RecordDiscountParses | src/components/PromotionForm.tsx:39 | a discount typed as a decimal amount with two places is saved as that amount |
| PromotionFormComponent.PromotionForm.constructor | src/components/PromotionForm.tsx:18-26 | fields empty, type percentage, status active, nothing selected |
| PromotionFormComponent.PromotionForm.HandleProductToggle | src/components/PromotionForm.tsx:51-57 | the product's selection flips and every other product's is kept |
| PromotionFormComponent.PromotionForm.HandleSubmit | src/components/PromotionForm.tsx:28-49 | saved exactly when title, description, discount and date are all filled; then one promotion is added with the typed fields and parsed discount, and with no applicable products exactly when none is selected, otherwise the selected ones; otherwise nothing changes |
| SetFormComponent.SelectedProducts | src/components/SetForm.tsx:49 | exactly the catalogue products whose id is selected, each as often as in the catalogue and in catalogue order |
| SetFormComponent.UnparsedDiscountIsZero | src/components/SetForm.tsx:51-52 | an unreadable discount counts as 0, so the final price is the original |
| SetFormComponent.PriceSumNonNegative | src/components/SetForm.tsx:50 | non-negative prices give a non-negative sum |
| SetFormComponent.FinalPriceBounds | src/components/SetForm.tsx:48-59 | with non-negative prices and a discount from 0 to 100, the final price lies between 0 and the original |
| SetFormComponent.PriceExample | src/components/SetForm.tsx:48-59 | products at 179.90 and 249.80 with 16% off cost 429.70 and sell for 360.948 |
| SetFormComponent.SetForm.constructor | src/components/SetForm.tsx:17-25 | fields empty, nothing selected, no picture |
| SetFormComponent.SetForm.HandleProductToggle | src/components/SetForm.tsx:40-46 | the product's selection flips and every other product's is kept |
| SetFormComponent.SetForm.OnImageLoaded | src/components/SetForm.tsx:27-38 | a loaded picture replaces the set's picture; an empty result is ignored |
| SetFormComponent.SetForm.HandleSubmit | src/components/SetForm.tsx:61-95 | missing name or description, fewer than two products, then a missing picture reject without change; otherwise one set with the computed prices is added |
| ReviewFormComponent.BlankCommentRejected | src/components/ReviewForm.tsx:38-45 | a comment of whitespace only is too short |
| ReviewFormComponent.AnonymousIgnoresName | src/components/ReviewForm.tsx:47-54 | an anonymous review's validation does not depend on the name |
| ReviewFormComponent.AcceptedCommentLength | src/components/ReviewForm.tsx:38-45 | an accepted comment keeps at least 5 characters after trimming |
| ReviewFormComponent.ReviewForm.constructor | src/components/ReviewForm.tsx:17-24 | no rating, empty comment and name, not anonymous |
| ReviewFormComponent.ReviewForm.SelectRating | src/components/ReviewForm.tsx:99 | a star click sets the rating, nothing else |
| ReviewFormComponent.ReviewForm.HandleSubmit | src/components/ReviewForm.tsx:26-82 | the first failed check is reported and nothing changes; otherwise the trimmed review, rated 1 to 5, is added and the form reset |
| ReviewFormComponent.ReviewForm.Submit | src/components/ReviewForm.tsx:56-70 | the accepted path adds the trimmed review and resets the form |
| CatalogPage.SortOrderTotal | src/pages/Catalog.tsx:115-126 | each sort option orders every pair consistently |
| CatalogPage.FilteredProducts | src/pages/Catalog.tsx:110-126 | exactly the matching products, as often as in the catalogue, ordered by the chosen option, products the option ranks equal keeping their catalogue order |
| CatalogPage.FilteredProductsUnique | src/pages/Catalog.tsx:110-126 | any ordering of the matches that is sorted and keeps ties in catalogue order is the listing |
| CatalogPage.SortModes | src/pages/Catalog.tsx:115-126 | what each option means: price rising, price falling, discount falling, name order |
| CatalogPage.EmptySearchShowsAll | src/pages/Catalog.tsx:110-114 | an empty search in category `all` lists the whole catalogue |
| CatalogPage.SearchIgnoresCase | src/pages/Catalog.tsx:111-112 | a term typed in capitals or lower case finds the same products |
| SetsPage.SortOrderTotal | src/pages/Sets.tsx:170-182 | each sort option orders every pair consistently |
| SetsPage.SortModes | src/pages/Sets.tsx:170-182 | what each option means: discounted price rising or falling, discount falling, name order |
| SetsPage.FilterSets | src/pages/Sets.tsx:155-185 | exactly the matching sets, as often as in the list, ordered by the chosen option, sets the option ranks equal keeping the order of the list |
| SetsPage.ListingUnique | src/pages/Sets.tsx:155-185 | only one listing meets those three conditions, so the listing is determined by the controls |
| SetsPage.DiscountListing | src/pages/Sets.tsx:35-185 | sorted by discount, the full list reads set-2, set-5, set-6, set-1, set-3, set-4 |
| SetsPage.InitialListingUnordered | src/pages/Sets.tsx:35-138 | the list shown on opening is not in name order, although the sort control starts at name |
| SetsPage.SetsPageState.AsWritten | src/pages/Sets.tsx:134-138 | the page opens on sort `name` with the fixed list as it stands |
| SetsPage.SetsPageState.constructor | src/pages/Sets.tsx:134-138 | the page opens on sort `name` with a listing that agrees with its controls |
| SetsPage.SetsPageState.HandleSearch | src/pages/Sets.tsx:140-143 | the term is stored and the listing agrees with the controls: the matching entries, sorted, ties in list order |
| SetsPage.SetsPageState.HandleCategoryFilter | src/pages/Sets.tsx:145-148 | the category is stored and the listing agrees with the controls: the matching entries, sorted, ties in list order |
| SetsPage.SetsPageState.HandleSort | src/pages/Sets.tsx:150-153 | the sort is stored and the listing agrees with the controls: the matching entries, sorted, ties in list order |
| SetsPage.SetsPageState.ClearFiltersAsWritten | src/pages/Sets.tsx:260-265 | "Limpar Filtros" resets search, category and sort to their defaults and shows the fixed list as it stands |
| SetsPage.SetsPageState.ClearFilters | src/pages/Sets.tsx:260-265 | the same reset, with a listing that agrees with the default controls |
| PromotionsPage.SortOrderTotal | src/pages/Promotions.tsx:119-131 | each sort option orders every pair consistently |
| PromotionsPage.SortModes | src/pages/Promotions.tsx:119-131 | what each option means: price rising or falling, discount falling, name order |
| PromotionsPage.FilterProducts | src/pages/Promotions.tsx:105-134 | exactly the matching products, as often as in the list, ordered by the chosen option, products the option ranks equal keeping the order of the list |
| PromotionsPage.ListingUnique | src/pages/Promotions.tsx:105-134 | only one listing meets those three conditions, so the listing is determined by the controls |
| PromotionsPage.InitialListingUnordered | src/pages/Promotions.tsx:15-88 | the list shown on opening is not in name order, although the sort control starts at name |
| PromotionsPage.PromotionsPageState.AsWritten | src/pages/Promotions.tsx:84-88 | the page opens on sort `name` with the fixed list as it stands |
| PromotionsPage.PromotionsPageState.constructor | src/pages/Promotions.tsx:84-88 | the page opens on sort `name` with a listing that agrees with its controls |
| PromotionsPage.PromotionsPageState.HandleSearch | src/pages/Promotions.tsx:90-93 | the term is stored and the listing agrees with the controls: the matching entries, sorted, ties in list order |
| PromotionsPage.PromotionsPageState.HandleCategoryFilter | src/pages/Promotions.tsx:95-98 | the category is stored and the listing agrees with the controls: the matching entries, sorted, ties in list order |
| PromotionsPage.PromotionsPageState.HandleSort | src/pages/Promotions.tsx:100-103 | the sort is stored and the listing agrees with the controls: the matching entries, sorted, ties in list order |
| PromotionsPage.PromotionsPageState.ClearFiltersAsWritten | src/pages/Promotions.tsx:247-252 | "Limpar Filtros" resets search, category and sort to their defaults and shows the fixed list as it stands |
| PromotionsPage.PromotionsPageState.ClearFilters | src/pages/Promotions.tsx:247-252 | the same reset, with a listing that agrees with the default controls |
| ProductPage.OutOfStockParts | src/pages/Product.tsx:150-154 | a size and colour are out of stock exactly when one of them is; an option without a stock entry never is |
| ProductPage.BuyNowTotal | src/pages/Product.tsx:109-117 | the total "buy now" sends is what its single line adds up to |
| ProductPage.ProductView.constructor | src/pages/Product.tsx:52-55 | nothing chosen, quantity 1, first picture |
| ProductPage.ProductView.SelectSize | src/pages/Product.tsx:236-242 | a size out of stock is ignored, any other is chosen |
| ProductPage.CurrentImages | src/pages/Product.tsx:143-148 | a chosen colour with its own pictures shows them; the gallery is always the product's pictures or one colour's |
| ProductPage.GalleryWithoutColorImages | src/pages/Product.tsx:143-148 | a colour without its own pictures shows the product's gallery, as when no colour is chosen |
| ProductPage.ProductView.ShownPicture | src/pages/Product.tsx:143-148 | a picture is shown exactly when the index points into the current gallery, and it is one of that gallery's pictures |
| ProductPage.ProductView.SelectColor | src/pages/Product.tsx:138-141 | an available colour is chosen and the first picture of its gallery shown; one out of stock is ignored |
| ProductPage.ProductView.SelectImage | src/pages/Product.tsx:181 | the clicked thumbnail of the current gallery becomes the shown picture; nothing else changes |
| ProductPage.ProductView.DecrementQuantity | src/pages/Product.tsx:294 | the quantity drops by one but never below 1 |
| ProductPage.ProductView.IncrementQuantity | src/pages/Product.tsx:303 | the quantity rises by one |
| ProductPage.ProductView.HandleAddToCart | src/pages/Product.tsx:82-97 | added exactly when size and colour are chosen; then the cart receives that variant at the chosen quantity |
| ProductPage.ProductView.HandleBuyNow | src/pages/Product.tsx:99-126 | a link exactly when size and colour are chosen, for one line at price times quantity; the cart is untouched |
| ProductPage.ProductView.HandleToggleFavorite | src/pages/Product.tsx:128-136 | favourite membership flips, and the notice says "removed" exactly when it was a favourite before; storage changes only under the favourites key, which mirrors the new list |
| Lists.Without | src/hooks/useCart.ts:53-60 | every entry with the key is gone and all others are kept |
| Lists.Only | src/hooks/useReviews.ts:24 | exactly the entries with the key |
| Lists.Keep | src/pages/Sets.tsx:158-168 | no longer than the input, and everything kept passes the test |
| Lists.KeepCount | src/pages/Sets.tsx:158-168 | each element that passes occurs as often as in the input, no other occurs |
| Lists.KeepAppend | src/pages/Sets.tsx:158-168 | filtering a concatenation filters each part, in order |
| Lists.KeepAll | src/pages/Sets.tsx:158-168 | a list whose every element passes is kept whole, in order |
| Lists.KeepNone | src/pages/Sets.tsx:158-168 | a list none of whose elements passes is filtered to nothing |
| Lists.KeepTwice | src/pages/Sets.tsx:158-168 | filtering by one test and then another is filtering once by both |
| Lists.FirstIndex | src/hooks/useCart.ts:32-36 | the first index with the key, or -1 exactly when there is none |
| Lists.UpdateWhere | src/hooks/useCart.ts:62-72 | same length; matching entries mapped, the others unchanged |
| Lists.Toggle | src/hooks/useFavorites.ts:55-61 | the key's membership flips, every other key's is kept |
| Lists.ToggleTwice | src/hooks/useFavorites.ts:55-61 | toggling twice restores every key's membership |
| Lists.ToggleUnique | src/hooks/useFavorites.ts:55-61 | toggling keeps keys unique |
| Text.Trim | src/components/ReviewForm.tsx:38 | the result is the middle of the input, with only whitespace cut on either side and no whitespace at its ends |
| Text.TrimIdempotent | src/components/ProductForm.tsx:68-69 | trimming twice is trimming once |
| Text.ToLower | src/pages/Catalog.tsx:112 | same length, no upper-case ASCII letter left, each character lowered |
| Text.Utf16Length | src/components/ReviewForm.tsx:38 | between one and two code units per character, exactly one each inside the BMP |
| Text.JoinContainsParts | src/utils/whatsapp.ts:54-56 | every part occurs in the joined text |
| Numerals.NatToStringValue | src/utils/whatsapp.ts:22 | the digits of `n.toString(base)` read back as `n` |
| JsNumber.ParseOfEmpty | src/components/ProductForm.tsx:105-107 | `parseFloat` and `parseInt` of empty text give `NaN` |
| JsNumber.NatToStringParsesAsInt | src/components/ProductForm.tsx:107 | `parseInt` reads back a decimal numeral |
| JsNumber.FormatCentsParses | src/components/PromotionForm.tsx:39 | `parseFloat` reads back an amount written with two decimals |
| JsNumber.DecimalParts | src/components/SetForm.tsx:51 | digits, a point and digits parse as the whole part plus the fraction |
| UriEncoding.EncodeURIComponent | src/utils/whatsapp.ts:72 | the encoded text is query-safe and leaves unreserved text unchanged |
| UriEncoding.DecodeEncode | src/utils/whatsapp.ts:72 | percent-decoding the encoding gives the UTF-8 bytes of the text |
| UriEncoding.Utf8Decodes | src/utils/whatsapp.ts:72 | each character's UTF-8 bytes decode back to it |
| Sorting.Sort | src/pages/Catalog.tsx:115-126 | the result is sorted by the comparator, a permutation of the input, and stable: elements the comparator ranks equal keep their input order |
| Sorting.Insert | src/pages/Catalog.tsx:115-126 | inserting into a sorted list keeps it sorted, adds exactly that element, and places it after its equals |
| Sorting.StableUnique | src/pages/Catalog.tsx:115-126 | two sorted lists holding the same elements of each rank in the same order are equal |
| Sorting.StableSortIsSort | src/pages/Catalog.tsx:115-126 | any sorted, stable reordering of a list is `Sort` of it, so the stable sort's result is unique |
| Sorting.SortInPlace | src/pages/Sets.tsx:170-182 | the array ends holding `Sort` of its old contents: sorted, a permutation, ties in their old order |
| Sorting.InsertAt | src/pages/Sets.tsx:170-182 | one insertion step: the element at `i` moves back past every larger element of the sorted prefix, the rest of the array unchanged |
| Sorting.SortedCopy | src/pages/Promotions.tsx:106-131 | `Sort` of the list, computed in a fresh array: sorted, a permutation, ties in list order |
| Sorting.NameLeTotal | src/pages/Sets.tsx:181 | any two names compare one way or the other |
| Sorting.NameLeTransitive | src/pages/Sets.tsx:181 | name order is transitive |
| Sorting.ByNameTotal | src/pages/Promotions.tsx:130 | ordering by name is a total preorder |

## Left out

- React rendering, effects and re-renders are not modelled. Each hook instance is one object whose state changes at once, not at the next render.
- Toasts, `window.open`, `onClose` and `onReviewAdded` calls are not modelled. Neither are `console.error` and display-only state such as `hoveredRating`, the drawer's item badge, `formatPrice` and `Intl.NumberFormat`.
- `JSON.stringify`/`JSON.parse` are not modelled. A stored value is the parsed list, or `Malformed` when parsing fails or the text is empty. The hooks treat both cases the same way: nothing is loaded.
- Floating point is not modelled. Storefront amounts are integer cents, so `toFixed(2)` is exact. The admin and listing amounts are reals; rounding of binary fractions and infinities are not represented.
- JsNumber.ParseFloat: exponents (`1e3`) and `Infinity` are not read. The model stops at the digits after the point.
- JsNumber.ParseInt: a hexadecimal prefix is read, but other radices are not modelled, because the forms never pass a radix.
- ReviewsHook.AverageTenths: the mean is rounded exactly on rationals. A case where binary floating point rounds `total / n * 10` differently is not represented.
- Text.ToLower: only ASCII letters change case. Accented capitals are not lowered, and full Unicode case mapping is not modelled.
- Sorting.NameLe: `localeCompare` is modelled as code-point order. Locale collation rules are not modelled.
- Dates and times (`toISOString`, `toLocaleDateString`, `toLocaleTimeString`) are inputs given as strings. So are `Date.now()` and the `Math.random()` id suffixes.
- CartHook.Cart.AddToCart: the source raises the quantity on the line object shared with the previous state. The model works on values, so that aliasing is not represented.
- ReviewsHook.Reviews.Load: the effect's re-run when the product id changes is not modelled. A hook's product id is fixed when it is created.
- ReviewFormComponent.ReviewForm.HandleSubmit: the `catch` branch is not modelled. Adding a review cannot fail in the model.
- The product page's lookup of its product in mock data, and the "not found" view, are not modelled. The page is given its product and stock data.
- The catalogue page's own mock product list is not modelled. `FilteredProducts` is stated for any list.
- Pictures on the listing pages are display-only and are not part of the listing datatypes.
- The `useStore` error for a consumer outside the provider, the admin page, the navigation bar, the product card and the share button are not part of this model.
- Strings are sequences of Unicode scalar values. So the `URIError` that `encodeURIComponent` raises for a lone surrogate cannot arise here.

## Findings

| source | as written | input that shows it | evidently intended | confidence | as-written member | corrected member |
|---|---|---|---|---|---|---|
| src/pages/Sets.tsx:135-138 | the listing starts as the fixed list while the sort control starts at `name`, so the page claims a name order it does not show; the "Limpar Filtros" button (lines 260-265) resets to the same state | opening the page: "Conjunto Urban Casual" is listed before "Conjunto Street Style" | the opening listing is the one `filterSets("", "all", "name")` computes | not executed | SetsPage.InitialListingUnordered | SetsPage.SetsPageState.constructor |
| src/pages/Promotions.tsx:85-88 | the listing starts as the fixed list while the sort control starts at `name`; the "Limpar Filtros" button (lines 247-252) resets to the same state | opening the page: "Tênis Casual Branco" is listed before "Calça Cargo Preta" | the opening listing is the one `filterProducts("", "all", "name")` computes | not executed | PromotionsPage.InitialListingUnordered | PromotionsPage.PromotionsPageState.constructor |
