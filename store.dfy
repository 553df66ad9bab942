/**
 * The admin catalogue store: three independent lists (products, promotions,
 * product sets), each with append, update-by-id (a field merge) and
 * delete-by-id. Numbers in the records come from `parseFloat`/`parseInt` on
 * form text and may be NaN.
 */
module StoreContext {
  import opened Wrappers
  import opened Lists
  import opened Numerals
  import opened JsNumber

  datatype Status = Active | Inactive
  datatype PromotionType = Percentage | Fixed
  datatype PromotionStatus = PromotionActive | PromotionInactive | PromotionScheduled

  datatype ColorChoice = ColorChoice(name: string, image: Option<string>)
  datatype ProductPromotion = ProductPromotion(active: bool, discount: Number)

  /** `Omit<Product, 'id'>`. */
  datatype ProductData = ProductData(
    name: string, category: string, price: Number, originalPrice: Option<Number>,
    discount: Option<Number>, stock: Number, status: Status, featured: bool,
    images: seq<string>, description: string, colors: Option<seq<ColorChoice>>,
    sizes: seq<string>, promotion: Option<ProductPromotion>)

  /** `Omit<Promotion, 'id'>`. */
  datatype PromotionData = PromotionData(
    title: string, description: string, discount: Number, validUntil: string,
    kind: PromotionType, status: PromotionStatus, applicableProducts: Option<seq<string>>)

  /** `Omit<ProductSet, 'id'>`. */
  datatype SetData = SetData(
    name: string, description: string, products: seq<string>, price: Number,
    originalPrice: Number, discount: Number, image: string, status: Status)

  /** A stored record: its id and the remaining fields. */
  datatype Entry<D> = Entry(id: string, data: D)

  function IdOf<D>(e: Entry<D>): string {
    e.id
  }

  /** `Partial<Product>`: each field absent or given; a given optional field may be given as `undefined`. */
  datatype ProductPatch = ProductPatch(
    id: Option<string>, name: Option<string>, category: Option<string>, price: Option<Number>,
    originalPrice: Option<Option<Number>>, discount: Option<Option<Number>>, stock: Option<Number>,
    status: Option<Status>, featured: Option<bool>, images: Option<seq<string>>,
    description: Option<string>, colors: Option<Option<seq<ColorChoice>>>, sizes: Option<seq<string>>,
    promotion: Option<Option<ProductPromotion>>)

  datatype PromotionPatch = PromotionPatch(
    id: Option<string>, title: Option<string>, description: Option<string>, discount: Option<Number>,
    validUntil: Option<string>, kind: Option<PromotionType>, status: Option<PromotionStatus>,
    applicableProducts: Option<Option<seq<string>>>)

  datatype SetPatch = SetPatch(
    id: Option<string>, name: Option<string>, description: Option<string>, products: Option<seq<string>>,
    price: Option<Number>, originalPrice: Option<Number>, discount: Option<Number>,
    image: Option<string>, status: Option<Status>)

  /** `{ ...product, ...patch }`. */
  function OverlayProduct(patch: ProductPatch): Entry<ProductData> -> Entry<ProductData> {
    (e: Entry<ProductData>) =>
      var d := e.data;
      Entry(patch.id.GetOr(e.id),
        ProductData(patch.name.GetOr(d.name), patch.category.GetOr(d.category), patch.price.GetOr(d.price),
          patch.originalPrice.GetOr(d.originalPrice), patch.discount.GetOr(d.discount), patch.stock.GetOr(d.stock),
          patch.status.GetOr(d.status), patch.featured.GetOr(d.featured), patch.images.GetOr(d.images),
          patch.description.GetOr(d.description), patch.colors.GetOr(d.colors), patch.sizes.GetOr(d.sizes),
          patch.promotion.GetOr(d.promotion)))
  }

  /** `{ ...promotion, ...patch }`. */
  function OverlayPromotion(patch: PromotionPatch): Entry<PromotionData> -> Entry<PromotionData> {
    (e: Entry<PromotionData>) =>
      var d := e.data;
      Entry(patch.id.GetOr(e.id),
        PromotionData(patch.title.GetOr(d.title), patch.description.GetOr(d.description),
          patch.discount.GetOr(d.discount), patch.validUntil.GetOr(d.validUntil), patch.kind.GetOr(d.kind),
          patch.status.GetOr(d.status), patch.applicableProducts.GetOr(d.applicableProducts)))
  }

  /** `{ ...set, ...patch }`. */
  function OverlaySet(patch: SetPatch): Entry<SetData> -> Entry<SetData> {
    (e: Entry<SetData>) =>
      var d := e.data;
      Entry(patch.id.GetOr(e.id),
        SetData(patch.name.GetOr(d.name), patch.description.GetOr(d.description),
          patch.products.GetOr(d.products), patch.price.GetOr(d.price), patch.originalPrice.GetOr(d.originalPrice),
          patch.discount.GetOr(d.discount), patch.image.GetOr(d.image), patch.status.GetOr(d.status)))
  }

  const NoProductChange := ProductPatch(None, None, None, None, None, None, None, None, None, None, None, None, None, None)
  const NoPromotionChange := PromotionPatch(None, None, None, None, None, None, None, None)
  const NoSetChange := SetPatch(None, None, None, None, None, None, None, None, None)

  /**
   * A merge is a no-op with an empty patch, applying the same patch twice is
   * applying it once, and the id survives any patch that does not name one.
   */
  lemma OverlayLaws(e: Entry<ProductData>, p: Entry<PromotionData>, s: Entry<SetData>,
                    pp: ProductPatch, qp: PromotionPatch, sp: SetPatch)
    ensures OverlayProduct(NoProductChange)(e) == e
    ensures OverlayPromotion(NoPromotionChange)(p) == p
    ensures OverlaySet(NoSetChange)(s) == s
    ensures OverlayProduct(pp)(OverlayProduct(pp)(e)) == OverlayProduct(pp)(e)
    ensures OverlayPromotion(qp)(OverlayPromotion(qp)(p)) == OverlayPromotion(qp)(p)
    ensures OverlaySet(sp)(OverlaySet(sp)(s)) == OverlaySet(sp)(s)
    ensures pp.id == None ==> OverlayProduct(pp)(e).id == e.id
    ensures qp.id == None ==> OverlayPromotion(qp)(p).id == p.id
    ensures sp.id == None ==> OverlaySet(sp)(s).id == s.id
  {
  }

  /** `${prefix}${Date.now()}-${random}`: a new record's id. */
  function NewId(prefix: string, now: nat, suffix: string): (id: string)
    ensures |id| > |prefix| && id[..|prefix|] == prefix
  {
    prefix + NatToString(now, 10) + "-" + suffix
  }

  const ProductPrefix: string := "PRD-"
  const PromotionPrefix: string := "PROMO-"
  const SetPrefix: string := "SET-"

  /** Ids of different kinds of record never coincide, whatever the clock and the random part. */
  lemma IdKindsDisjoint(n1: nat, s1: string, n2: nat, s2: string)
    ensures NewId(ProductPrefix, n1, s1) != NewId(PromotionPrefix, n2, s2)
    ensures NewId(ProductPrefix, n1, s1) != NewId(SetPrefix, n2, s2)
    ensures NewId(PromotionPrefix, n1, s1) != NewId(SetPrefix, n2, s2)
  {
    var a, b, c := NewId(ProductPrefix, n1, s1), NewId(PromotionPrefix, n2, s2), NewId(SetPrefix, n2, s2);
    assert a[2] == 'D' && b[2] == 'O';
    assert a[0] == 'P' && NewId(SetPrefix, n2, s2)[0] == 'S';
    assert NewId(PromotionPrefix, n1, s1)[0] == 'P';
  }

  /** The store provider's state. */
  class Store {
    var products: seq<Entry<ProductData>>
    var promotions: seq<Entry<PromotionData>>
    var sets: seq<Entry<SetData>>

    /** All three lists start empty. */
    constructor ()
      ensures products == [] && promotions == [] && sets == []
    {
      products, promotions, sets := [], [], [];
    }

    /** `addProduct`: append the record under a fresh `PRD-` id. */
    method AddProduct(data: ProductData, now: nat, suffix: string)
      modifies this
      ensures products == old(products) + [Entry(NewId(ProductPrefix, now, suffix), data)]
      ensures promotions == old(promotions) && sets == old(sets)
    {
      products := products + [Entry(NewId(ProductPrefix, now, suffix), data)];
    }

    /** `addPromotion`: append the record under a fresh `PROMO-` id. */
    method AddPromotion(data: PromotionData, now: nat, suffix: string)
      modifies this
      ensures promotions == old(promotions) + [Entry(NewId(PromotionPrefix, now, suffix), data)]
      ensures products == old(products) && sets == old(sets)
    {
      promotions := promotions + [Entry(NewId(PromotionPrefix, now, suffix), data)];
    }

    /** `addSet`: append the record under a fresh `SET-` id. */
    method AddSet(data: SetData, now: nat, suffix: string)
      modifies this
      ensures sets == old(sets) + [Entry(NewId(SetPrefix, now, suffix), data)]
      ensures products == old(products) && promotions == old(promotions)
    {
      sets := sets + [Entry(NewId(SetPrefix, now, suffix), data)];
    }

    /** `updateProduct`: merge the patch into every product with this id. */
    method UpdateProduct(id: string, patch: ProductPatch)
      modifies this
      ensures products == UpdateWhere(old(products), IdOf, id, OverlayProduct(patch))
      ensures promotions == old(promotions) && sets == old(sets)
    {
      products := UpdateWhere(products, IdOf, id, OverlayProduct(patch));
    }

    /** `updatePromotion`: merge the patch into every promotion with this id. */
    method UpdatePromotion(id: string, patch: PromotionPatch)
      modifies this
      ensures promotions == UpdateWhere(old(promotions), IdOf, id, OverlayPromotion(patch))
      ensures products == old(products) && sets == old(sets)
    {
      promotions := UpdateWhere(promotions, IdOf, id, OverlayPromotion(patch));
    }

    /** `updateSet`: merge the patch into every set with this id. */
    method UpdateSet(id: string, patch: SetPatch)
      modifies this
      ensures sets == UpdateWhere(old(sets), IdOf, id, OverlaySet(patch))
      ensures products == old(products) && promotions == old(promotions)
    {
      sets := UpdateWhere(sets, IdOf, id, OverlaySet(patch));
    }

    /** `deleteProduct`: drop every product with this id; sets and promotions naming it are left alone. */
    method DeleteProduct(id: string)
      modifies this
      ensures products == Without(old(products), IdOf, id)
      ensures promotions == old(promotions) && sets == old(sets)
    {
      products := Without(products, IdOf, id);
    }

    method DeletePromotion(id: string)
      modifies this
      ensures promotions == Without(old(promotions), IdOf, id)
      ensures products == old(products) && sets == old(sets)
    {
      promotions := Without(promotions, IdOf, id);
    }

    method DeleteSet(id: string)
      modifies this
      ensures sets == Without(old(sets), IdOf, id)
      ensures products == old(products) && promotions == old(promotions)
    {
      sets := Without(sets, IdOf, id);
    }
  }
}
