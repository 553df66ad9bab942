/**
 * The admin form that creates a promotion: four required text fields, a
 * type and a status with defaults, and an optional list of applicable
 * products kept as a toggle list.
 */
module PromotionFormComponent {
  import opened Wrappers
  import opened Lists
  import opened JsNumber
  import opened StoreContext

  /** What submitting the form led to. */
  datatype Outcome = MissingFields | Saved

  /** `selectedProducts.length > 0 ? selectedProducts : undefined`. */
  function ApplicableProducts(selected: seq<string>): (r: Option<seq<string>>)
    ensures r == None <==> selected == []
    ensures r.Some? ==> r.value == selected
  {
    if |selected| > 0 then Some(selected) else None
  }

  /** The record a complete form submits: the discount text parsed as a float. */
  function PromotionRecord(title: string, description: string, discount: string, validUntil: string,
                           kind: PromotionType, status: PromotionStatus, selected: seq<string>): PromotionData
  {
    PromotionData(title, description, ParseFloat(discount), validUntil, kind, status, ApplicableProducts(selected))
  }

  /** A discount typed as `FormatCents(c)` (say "15.00") is stored as the number it shows. */
  lemma RecordDiscountParses(title: string, description: string, cents: int, validUntil: string,
                             kind: PromotionType, status: PromotionStatus, selected: seq<string>)
    ensures PromotionRecord(title, description, Numerals.FormatCents(cents), validUntil, kind, status, selected).discount
            == Num(cents as real / 100.0)
  {
    FormatCentsParses(cents);
  }

  /** The state of the promotion form. */
  class PromotionForm {
    const store: Store
    var title: string
    var description: string
    var discount: string
    var validUntil: string
    var kind: PromotionType
    var status: PromotionStatus
    var selected: seq<string>

    /** Empty text fields, type `percentage`, status `active`, nothing selected. */
    constructor (store: Store)
      ensures this.store == store
      ensures title == "" && description == "" && discount == "" && validUntil == ""
      ensures kind == Percentage && status == PromotionActive && selected == []
    {
      this.store := store;
      title, description, discount, validUntil := "", "", "", "";
      kind, status, selected := Percentage, PromotionActive, [];
    }

    /** `handleProductToggle`: deselect a selected id, otherwise select it last. */
    method HandleProductToggle(id: string)
      modifies this
      ensures selected == Toggle(old(selected), Same, id)
      ensures id in selected <==> id !in old(selected)
      ensures forall other :: other != id ==> (other in selected <==> other in old(selected))
      ensures title == old(title) && description == old(description) && discount == old(discount)
      ensures validUntil == old(validUntil) && kind == old(kind) && status == old(status)
    {
      var next := Toggle(selected, Same, id);
      HasKeySame(selected, id);
      HasKeySame(next, id);
      forall other | other != id ensures other in next <==> other in selected {
        HasKeySame(selected, other);
        HasKeySame(next, other);
      }
      selected := next;
    }

    /**
     * `handleSubmit`: any of title, description, discount or end date empty
     * shows the error and adds nothing; otherwise one promotion is appended
     * with the parsed discount, the chosen type and status, and the selected
     * products (absent when none is selected).
     */
    method HandleSubmit(now: nat, suffix: string) returns (outcome: Outcome)
      modifies store
      ensures outcome == Saved <==> title != "" && description != "" && discount != "" && validUntil != ""
      ensures outcome == MissingFields ==>
        store.products == old(store.products) && store.promotions == old(store.promotions) && store.sets == old(store.sets)
      ensures outcome == Saved ==>
        store.promotions == old(store.promotions) +
          [Entry(NewId(PromotionPrefix, now, suffix),
                 PromotionRecord(title, description, discount, validUntil, kind, status, selected))] &&
        store.products == old(store.products) && store.sets == old(store.sets)
      ensures outcome == Saved ==>
        |store.promotions| == |old(store.promotions)| + 1 &&
        var added := store.promotions[|old(store.promotions)|].data;
        && added.title == title && added.description == description && added.validUntil == validUntil
        && added.kind == kind && added.status == status && added.discount == ParseFloat(discount)
        && (added.applicableProducts == None <==> selected == [])
        && (selected != [] ==> added.applicableProducts == Some(selected))
    {
      if title == "" || description == "" || discount == "" || validUntil == "" {
        return MissingFields;
      }
      store.AddPromotion(PromotionRecord(title, description, discount, validUntil, kind, status, selected), now, suffix);
      outcome := Saved;
    }
  }
}
