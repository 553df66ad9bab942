/**
 * The admin form that creates a product: text fields, uploaded images, a
 * list of colours (each with an optional picture) and a list of sizes, and a
 * submission that parses the numeric fields and appends the product.
 */
module ProductFormComponent {
  import opened Wrappers
  import opened Lists
  import opened Text
  import opened Numerals
  import opened JsNumber
  import opened StoreContext

  /** What submitting the form led to. */
  datatype Outcome = MissingFields | MissingImages | Saved

  /** A list entry as `trim()` leaves it and as the add buttons accept it: trimmed and not empty. */
  predicate Tidy(s: string) {
    s != "" && Trim(s) == s
  }

  /** Whatever is typed, a non-blank entry trims to a tidy one. */
  lemma TrimmedIsTidy(s: string)
    requires !IsBlank(s)
    ensures Tidy(Trim(s))
  {
    TrimIdempotent(s);
  }

  /** Sizes are tidy and appear once each. */
  predicate SizesWellFormed(sizes: seq<string>) {
    UniqueKeys(sizes, Same) && forall i :: 0 <= i < |sizes| ==> Tidy(sizes[i])
  }

  /** Colour names are tidy. */
  predicate ColorsWellFormed(colors: seq<ColorChoice>) {
    forall i :: 0 <= i < |colors| ==> Tidy(colors[i].name)
  }

  /**
   * The record a complete form submits: price parsed as a float, the
   * original price only when typed, stock parsed as an integer, no discount
   * field, status `active`, the colours only when there are any, and a
   * promotion that is always present, inactive with discount 0 unless switched on.
   */
  function ProductRecord(name: string, category: string, price: string, originalPrice: string, stock: string,
                         description: string, featured: bool, promotionActive: bool, promotionDiscount: string,
                         images: seq<string>, colors: seq<ColorChoice>, sizes: seq<string>): (d: ProductData)
    ensures d.name == name && d.category == category && d.images == images && d.sizes == sizes
    ensures d.price == ParseFloat(price) && d.stock == ParseInt(stock) && d.discount == None
    ensures d.description == description && d.featured == featured
    ensures d.originalPrice.None? <==> originalPrice == ""
    ensures originalPrice != "" ==> d.originalPrice == Some(ParseFloat(originalPrice))
    ensures d.colors.None? <==> colors == []
    ensures d.colors.Some? ==> d.colors.value == colors
    ensures d.status == Active
    ensures d.promotion.Some? && d.promotion.value.active == promotionActive
    ensures !promotionActive ==> d.promotion.value.discount == Num(0.0)
    ensures promotionActive ==> d.promotion.value.discount == ParseInt(promotionDiscount)
  {
    ProductData(name, category, ParseFloat(price),
      if originalPrice != "" then Some(ParseFloat(originalPrice)) else None,
      None, ParseInt(stock), Active, featured, images, description,
      if |colors| > 0 then Some(colors) else None, sizes,
      Some(if promotionActive then ProductPromotion(true, ParseInt(promotionDiscount))
           else ProductPromotion(false, Num(0.0))))
  }

  /** A stock typed as a plain decimal numeral is stored as that count. */
  lemma StockRoundTrip(n: nat, name: string, category: string, price: string, originalPrice: string,
                       description: string, featured: bool, promotionActive: bool, promotionDiscount: string,
                       images: seq<string>, colors: seq<ColorChoice>, sizes: seq<string>)
    ensures ProductRecord(name, category, price, originalPrice, NatToString(n, 10), description, featured,
                          promotionActive, promotionDiscount, images, colors, sizes).stock == Num(n as real)
  {
    NatToStringParsesAsInt(n);
  }

  /** The form's typed fields and switches. */
  datatype TypedFields = TypedFields(name: string, category: string, price: string, originalPrice: string, stock: string,
                                     description: string, featured: bool, promotionActive: bool, promotionDiscount: string)

  /** The state of the product form. */
  class ProductForm {
    const store: Store
    var name: string
    var category: string
    var price: string
    var originalPrice: string
    var stock: string
    var description: string
    var featured: bool
    var promotionActive: bool
    var promotionDiscount: string
    var images: seq<string>
    var colors: seq<ColorChoice>
    var sizes: seq<string>
    var newColor: string
    var newSize: string

    /** The colour and size lists are as the add buttons build them. */
    predicate Valid()
      reads this
    {
      ColorsWellFormed(colors) && SizesWellFormed(sizes)
    }

    /** The typed fields and switches that go into the saved record, apart from the lists. */
    function Typed(): TypedFields
      reads this
    {
      TypedFields(name, category, price, originalPrice, stock, description, featured, promotionActive, promotionDiscount)
    }

    /** Every text field empty, both switches off, every list empty. */
    constructor (store: Store)
      ensures this.store == store && Valid()
      ensures name == "" && category == "" && price == "" && originalPrice == "" && stock == ""
      ensures description == "" && !featured && !promotionActive && promotionDiscount == ""
      ensures images == [] && colors == [] && sizes == [] && newColor == "" && newSize == ""
    {
      this.store := store;
      name, category, price, originalPrice, stock := "", "", "", "", "";
      description, featured, promotionActive, promotionDiscount := "", false, false, "";
      images, colors, sizes, newColor, newSize := [], [], [], "", "";
    }

    /** `onload` of one uploaded image: a non-empty result is appended to the images. */
    method OnImageLoaded(result: string)
      modifies this
      ensures images == if result != "" then old(images) + [result] else old(images)
      ensures colors == old(colors) && sizes == old(sizes)
      ensures Typed() == old(Typed()) && newColor == old(newColor) && newSize == old(newSize)
    {
      if result != "" {
        images := images + [result];
      }
    }

    /**
     * `onload` of a colour's picture: a non-empty result becomes the picture
     * of the colour at `colorIndex`; the names and every other colour stay.
     */
    method OnColorImageLoaded(colorIndex: int, result: string)
      requires Valid()
      modifies this
      ensures Valid()
      ensures |colors| == |old(colors)|
      ensures forall i :: 0 <= i < |colors| ==> colors[i].name == old(colors)[i].name
      ensures forall i :: 0 <= i < |colors| ==>
        colors[i].image == if i == colorIndex && result != "" then Some(result) else old(colors)[i].image
      ensures images == old(images) && sizes == old(sizes)
      ensures Typed() == old(Typed()) && newColor == old(newColor) && newSize == old(newSize)
    {
      if result != "" && 0 <= colorIndex < |colors| {
        colors := colors[colorIndex := colors[colorIndex].(image := Some(result))];
      }
    }

    /** `addColor`: a non-blank entry is appended trimmed, with no picture, and the input cleared. */
    method AddColor()
      requires Valid()
      modifies this
      ensures Valid()
      ensures IsBlank(old(newColor)) ==> colors == old(colors) && newColor == old(newColor)
      ensures !IsBlank(old(newColor)) ==> colors == old(colors) + [ColorChoice(Trim(old(newColor)), None)] && newColor == ""
      ensures images == old(images) && sizes == old(sizes)
      ensures Typed() == old(Typed()) && newSize == old(newSize)
    {
      var t := Trim(newColor);
      if t != "" {
        TrimmedIsTidy(newColor);
        colors := colors + [ColorChoice(t, None)];
        newColor := "";
      }
    }

    /** `removeColor`: the colour at `index` goes; an index outside the list changes nothing. */
    method RemoveColor(index: int)
      requires Valid()
      modifies this
      ensures Valid()
      ensures 0 <= index < |old(colors)| ==> colors == old(colors)[..index] + old(colors)[index + 1..]
      ensures !(0 <= index < |old(colors)|) ==> colors == old(colors)
      ensures images == old(images) && sizes == old(sizes)
      ensures Typed() == old(Typed()) && newColor == old(newColor) && newSize == old(newSize)
    {
      if 0 <= index < |colors| {
        colors := colors[..index] + colors[index + 1..];
      }
    }

    /**
     * `addSize`: a non-blank entry whose trimmed form is not listed yet is
     * appended trimmed and the input cleared; otherwise nothing changes. No
     * size is ever listed twice.
     */
    method AddSize()
      requires Valid()
      modifies this
      ensures Valid()
      ensures var t := Trim(old(newSize));
        if t != "" && t !in old(sizes) then sizes == old(sizes) + [t] && newSize == ""
        else sizes == old(sizes) && newSize == old(newSize)
      ensures images == old(images) && colors == old(colors)
      ensures Typed() == old(Typed()) && newColor == old(newColor)
    {
      var t := Trim(newSize);
      if t != "" && t !in sizes {
        TrimmedIsTidy(newSize);
        HasKeySame(sizes, t);
        AppendUnique(sizes, Same, t);
        sizes := sizes + [t];
        newSize := "";
      }
    }

    /** `removeSize`: every listed copy of `size` goes (there is at most one). */
    method RemoveSize(size: string)
      requires Valid()
      modifies this
      ensures Valid()
      ensures sizes == Without(old(sizes), Same, size)
      ensures size !in sizes
      ensures forall s :: s != size ==> (s in sizes <==> s in old(sizes))
      ensures images == old(images) && colors == old(colors)
      ensures Typed() == old(Typed()) && newColor == old(newColor) && newSize == old(newSize)
    {
      var rest := Without(sizes, Same, size);
      WithoutUnique(sizes, Same, size);
      HasKeySame(rest, size);
      assert forall i :: 0 <= i < |rest| ==> rest[i] in sizes;
      sizes := rest;
    }

    /**
     * `handleSubmit`: name, category, price and stock are required, then at
     * least one image; only then is one product appended under a new id.
     */
    method HandleSubmit(now: nat, suffix: string) returns (outcome: Outcome)
      modifies store
      ensures outcome == (if name == "" || category == "" || price == "" || stock == "" then MissingFields
                          else if images == [] then MissingImages
                          else Saved)
      ensures outcome != Saved ==>
        store.products == old(store.products) && store.promotions == old(store.promotions) && store.sets == old(store.sets)
      ensures outcome == Saved ==>
        store.products == old(store.products) +
          [Entry(NewId(ProductPrefix, now, suffix),
                 ProductRecord(name, category, price, originalPrice, stock, description, featured,
                               promotionActive, promotionDiscount, images, colors, sizes))] &&
        store.promotions == old(store.promotions) && store.sets == old(store.sets)
    {
      if name == "" || category == "" || price == "" || stock == "" {
        return MissingFields;
      }
      if |images| == 0 {
        return MissingImages;
      }
      store.AddProduct(ProductRecord(name, category, price, originalPrice, stock, description, featured,
                                     promotionActive, promotionDiscount, images, colors, sizes), now, suffix);
      outcome := Saved;
    }
  }
}
