/**
 * The admin form that creates a product set: a toggle list of selected
 * product ids, the bundle price (sum of the selected products' prices reduced
 * by the discount percentage) and the validated submission.
 */
module SetFormComponent {
  import opened Wrappers
  import opened Lists
  import opened JsNumber
  import opened StoreContext

  datatype Prices = Prices(originalPrice: Number, finalPrice: Number, discount: real)

  /** The test `p => selected.includes(p.id)`. */
  function IsSelected(selected: seq<string>): Entry<ProductData> -> bool {
    (p: Entry<ProductData>) => p.id in selected
  }

  /**
   * `products.filter(p => selected.includes(p.id))`: each catalogue product
   * whose id is selected, as often as it is listed, and no other, in catalogue order.
   */
  function SelectedProducts(products: seq<Entry<ProductData>>, selected: seq<string>): (r: seq<Entry<ProductData>>)
    ensures forall p :: multiset(r)[p] == if p.id in selected then multiset(products)[p] else 0
    ensures forall p :: p in r <==> p in products && p.id in selected
    ensures |r| <= |products|
  {
    KeepCount(products, IsSelected(selected));
    var r := Keep(products, IsSelected(selected));
    assert forall p :: p in r <==> multiset(r)[p] > 0;
    r
  }

  /** `reduce((sum, p) => sum + p.price, 0)`. */
  function PriceSum(products: seq<Entry<ProductData>>): Number {
    if products == [] then Num(0.0) else Add(products[0].data.price, PriceSum(products[1..]))
  }

  /** `parseFloat(text) || 0`. */
  function DiscountOf(text: string): real {
    OrZero(ParseFloat(text))
  }

  /** `calculatePrices`. */
  function CalculatePrices(products: seq<Entry<ProductData>>, selected: seq<string>, discountText: string): Prices {
    var original := PriceSum(SelectedProducts(products, selected));
    var discount := DiscountOf(discountText);
    Prices(original, Discounted(original, discount), discount)
  }

  /** `originalPrice * (1 - discount / 100)`. */
  function Discounted(original: Number, discount: real): Number {
    Mul(original, Num(1.0 - discount / 100.0))
  }

  /** A discount field that does not parse counts as no discount: the final price is the original one. */
  lemma UnparsedDiscountIsZero(products: seq<Entry<ProductData>>, selected: seq<string>, discountText: string)
    requires ParseFloat(discountText) == NaN
    ensures var p := CalculatePrices(products, selected, discountText);
      p.discount == 0.0 && p.finalPrice == p.originalPrice
  {
  }

  /** With prices that are numbers and not negative, the bundle costs at least 0. */
  lemma {:induction false} PriceSumNonNegative(products: seq<Entry<ProductData>>)
    requires forall i :: 0 <= i < |products| ==> products[i].data.price.Num? && products[i].data.price.value >= 0.0
    ensures PriceSum(products).Num? && PriceSum(products).value >= 0.0
  {
    if products != [] {
      PriceSumNonNegative(products[1..]);
    }
  }

  /**
   * A discount between 0 and 100 percent keeps the final price between 0 and
   * the original price.
   */
  lemma FinalPriceBounds(products: seq<Entry<ProductData>>, selected: seq<string>, discountText: string)
    requires forall i :: 0 <= i < |products| ==> products[i].data.price.Num? && products[i].data.price.value >= 0.0
    requires 0.0 <= DiscountOf(discountText) <= 100.0
    ensures var p := CalculatePrices(products, selected, discountText);
      p.originalPrice.Num? && p.finalPrice.Num? && 0.0 <= p.finalPrice.value <= p.originalPrice.value
  {
    SelectedSumNonNegative(products, selected);
    var original, d := PriceSum(SelectedProducts(products, selected)), DiscountOf(discountText);
    assert CalculatePrices(products, selected, discountText) == Prices(original, Discounted(original, d), d);
    DiscountScales(original, d);
  }

  lemma SelectedSumNonNegative(products: seq<Entry<ProductData>>, selected: seq<string>)
    requires forall i :: 0 <= i < |products| ==> products[i].data.price.Num? && products[i].data.price.value >= 0.0
    ensures var sum := PriceSum(SelectedProducts(products, selected)); sum.Num? && sum.value >= 0.0
  {
    var chosen := SelectedProducts(products, selected);
    forall i | 0 <= i < |chosen| ensures chosen[i].data.price.Num? && chosen[i].data.price.value >= 0.0 {
      assert chosen[i] in products;
    }
    PriceSumNonNegative(chosen);
  }

  /** Taking off `d` percent, for `d` between 0 and 100, leaves a price between 0 and the original. */
  lemma DiscountScales(original: Number, d: real)
    requires original.Num? && original.value >= 0.0 && 0.0 <= d <= 100.0
    ensures var f := Discounted(original, d);
      f.Num? && 0.0 <= f.value <= original.value
  {
    ScaleDown(original.value, 1.0 - d / 100.0);
  }

  lemma ScaleDown(v: real, f: real)
    requires v >= 0.0 && 0.0 <= f <= 1.0
    ensures 0.0 <= v * f <= v
  {
    assert v * f <= v * 1.0 by { assert v * (1.0 - f) >= 0.0; }
  }

  /** Two selected products of 179.90 and 249.80 with a 16% discount: 429.70 before, 360.948 after. */
  lemma PriceExample(a: Entry<ProductData>, b: Entry<ProductData>, discountText: string)
    requires a.data.price == Num(179.90) && b.data.price == Num(249.80) && a.id != b.id
    requires ParseFloat(discountText) == Num(16.0)
    ensures var p := CalculatePrices([a, b], [a.id, b.id], discountText);
      p.originalPrice == Num(429.70) && p.finalPrice == Num(360.948) && p.discount == 16.0
  {
    ExampleSum(a, b);
    assert DiscountOf(discountText) == 16.0;
    assert CalculatePrices([a, b], [a.id, b.id], discountText) ==
      Prices(Num(429.70), Discounted(Num(429.70), 16.0), 16.0);
    assert Discounted(Num(429.70), 16.0) == Num(360.948);
  }

  lemma ExampleSum(a: Entry<ProductData>, b: Entry<ProductData>)
    requires a.data.price == Num(179.90) && b.data.price == Num(249.80) && a.id != b.id
    ensures PriceSum(SelectedProducts([a, b], [a.id, b.id])) == Num(429.70)
  {
    assert SelectedProducts([b], [a.id, b.id]) == [b];
    assert SelectedProducts([a, b], [a.id, b.id]) == [a, b];
    assert PriceSum([b]) == Num(249.80);
  }

  /** What submitting the form led to: the toast shown, or the set saved. */
  datatype Outcome = MissingFields | TooFewProducts | MissingImage | Saved

  /** The state of the set form. */
  class SetForm {
    const store: Store
    var name: string
    var description: string
    var discount: string
    var selected: seq<string>
    var image: string

    constructor (store: Store)
      ensures this.store == store
      ensures name == "" && description == "" && discount == "" && selected == [] && image == ""
    {
      this.store := store;
      name, description, discount, selected, image := "", "", "", [], "";
    }

    /** `handleProductToggle`: deselect a selected id, otherwise select it last. */
    method HandleProductToggle(id: string)
      modifies this
      ensures selected == Toggle(old(selected), Same, id)
      ensures id in selected <==> id !in old(selected)
      ensures forall other :: other != id ==> (other in selected <==> other in old(selected))
      ensures name == old(name) && description == old(description) && discount == old(discount) && image == old(image)
    {
      var next := Toggle(selected, Same, id);
      HasKeySame(selected, id);
      HasKeySame(next, id);
      forall other | other != id ensures other in next <==> other in selected {
        HasKeySame(selected, other);
        HasKeySame(next, other);
      }
      selected := next;
    }

    /** `onload` of the image reader: a non-empty result becomes the set's image. */
    method OnImageLoaded(result: string)
      modifies this
      ensures image == if result != "" then result else old(image)
      ensures name == old(name) && description == old(description) && discount == old(discount) && selected == old(selected)
    {
      if result != "" {
        image := result;
      }
    }

    /**
     * `handleSubmit`: name and description are required, then at least two
     * products, then an image; only then is one set appended, holding the
     * selection, the computed prices and status `active`.
     */
    method HandleSubmit(now: nat, suffix: string) returns (outcome: Outcome)
      modifies store
      ensures outcome == (if name == "" || description == "" then MissingFields
                          else if |selected| < 2 then TooFewProducts
                          else if image == "" then MissingImage
                          else Saved)
      ensures outcome != Saved ==>
        store.products == old(store.products) && store.promotions == old(store.promotions) && store.sets == old(store.sets)
      ensures outcome == Saved ==>
        var p := CalculatePrices(old(store.products), selected, discount);
        store.sets == old(store.sets) +
          [Entry(NewId(SetPrefix, now, suffix),
                 SetData(name, description, selected, p.finalPrice, p.originalPrice, Num(p.discount), image, Active))] &&
        store.products == old(store.products) && store.promotions == old(store.promotions)
    {
      if name == "" || description == "" {
        return MissingFields;
      }
      if |selected| < 2 {
        return TooFewProducts;
      }
      if image == "" {
        return MissingImage;
      }
      var p := CalculatePrices(store.products, selected, discount);
      store.AddSet(SetData(name, description, selected, p.finalPrice, p.originalPrice, Num(p.discount), image, Active), now, suffix);
      outcome := Saved;
    }
  }
}
