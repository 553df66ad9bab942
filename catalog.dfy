/**
 * The catalogue page: the products whose lower-cased name contains the
 * lower-cased search term and whose category is the chosen one (or any, for
 * `all`), ordered by the chosen sort option. The list is recomputed from the
 * page state on every render, as one filter-then-sort expression.
 */
module CatalogPage {
  import opened Wrappers
  import opened Text
  import opened Lists
  import opened Sorting

  /** A catalogue entry: the fields the listing reads (pictures, sizes and colours are only displayed). */
  datatype CatalogProduct = CatalogProduct(id: string, name: string, price: real, discount: Option<real>, category: string)

  const AllCategories: string := "all"

  /** The filter of `filteredProducts`. */
  predicate Matches(p: CatalogProduct, searchTerm: string, category: string) {
    Contains(ToLower(p.name), ToLower(searchTerm)) && (category == AllCategories || p.category == category)
  }

  function Price(p: CatalogProduct): real {
    p.price
  }

  /** `product.discount || 0`. */
  function DiscountOrZero(p: CatalogProduct): real {
    p.discount.GetOr(0.0)
  }

  function Name(p: CatalogProduct): string {
    p.name
  }

  /** The comparator chosen by `sortBy`; any unknown option sorts by name. */
  function SortOrder(sortBy: string): (CatalogProduct, CatalogProduct) -> bool {
    match sortBy
    case "price-low" => Ascending(Price)
    case "price-high" => Descending(Price)
    case "discount" => Descending(DiscountOrZero)
    case _ => ByName(Name)
  }

  /** Every sort option orders all pairs consistently. */
  lemma SortOrderTotal(sortBy: string)
    ensures TotalPreorder(SortOrder(sortBy))
  {
    AscendingTotal(Price);
    DescendingTotal(Price);
    DescendingTotal(DiscountOrZero);
    ByNameTotal(Name);
  }

  /** The test the `filter` call applies. */
  function MatchFilter(searchTerm: string, category: string): CatalogProduct -> bool {
    p => Matches(p, searchTerm, category)
  }

  /**
   * `filteredProducts`: each matching product appears as often as in the
   * catalogue and no other product appears, ordered by the chosen option,
   * with products the option ranks level in catalogue order.
   */
  function FilteredProducts(products: seq<CatalogProduct>, searchTerm: string, category: string, sortBy: string)
    : (r: seq<CatalogProduct>)
    ensures forall p :: multiset(r)[p] == if Matches(p, searchTerm, category) then multiset(products)[p] else 0
    ensures forall i :: 0 <= i < |r| ==> Matches(r[i], searchTerm, category)
    ensures SortedBy(r, SortOrder(sortBy))
    ensures Stable(r, Keep(products, MatchFilter(searchTerm, category)), SortOrder(sortBy))
  {
    SortOrderTotal(sortBy);
    KeepCount(products, MatchFilter(searchTerm, category));
    var r := Sort(Keep(products, MatchFilter(searchTerm, category)), SortOrder(sortBy));
    assert forall i :: 0 <= i < |r| ==> r[i] in multiset(r);
    r
  }

  /** Any list that orders the matching products and keeps each rank in catalogue order is the listing. */
  lemma FilteredProductsUnique(r: seq<CatalogProduct>, products: seq<CatalogProduct>, searchTerm: string, category: string, sortBy: string)
    requires SortedBy(r, SortOrder(sortBy))
    requires Stable(r, Keep(products, MatchFilter(searchTerm, category)), SortOrder(sortBy))
    ensures r == FilteredProducts(products, searchTerm, category, sortBy)
  {
    SortOrderTotal(sortBy);
    StableSortIsSort(r, Keep(products, MatchFilter(searchTerm, category)), SortOrder(sortBy));
  }

  /** What each sort option means for the listed products. */
  lemma SortModes(r: seq<CatalogProduct>, sortBy: string)
    requires SortedBy(r, SortOrder(sortBy))
    ensures sortBy == "price-low" ==> forall i, j :: 0 <= i < j < |r| ==> r[i].price <= r[j].price
    ensures sortBy == "price-high" ==> forall i, j :: 0 <= i < j < |r| ==> r[i].price >= r[j].price
    ensures sortBy == "discount" ==> forall i, j :: 0 <= i < j < |r| ==> DiscountOrZero(r[i]) >= DiscountOrZero(r[j])
    ensures sortBy !in {"price-low", "price-high", "discount"} ==>
      forall i, j :: 0 <= i < j < |r| ==> NameLe(r[i].name, r[j].name)
  {
    var le := SortOrder(sortBy);
    forall i, j | 0 <= i < j < |r|
      ensures sortBy == "price-low" ==> r[i].price <= r[j].price
      ensures sortBy == "price-high" ==> r[i].price >= r[j].price
      ensures sortBy == "discount" ==> DiscountOrZero(r[i]) >= DiscountOrZero(r[j])
      ensures sortBy !in {"price-low", "price-high", "discount"} ==> NameLe(r[i].name, r[j].name)
    {
      assert le(r[i], r[j]);
      if sortBy == "price-low" {
        assert Price(r[i]) <= Price(r[j]);
      } else if sortBy == "price-high" {
        assert Price(r[j]) <= Price(r[i]);
      } else if sortBy !in {"price-low", "price-high", "discount"} {
        assert NameLe(Name(r[i]), Name(r[j]));
      }
    }
  }

  /** An empty search with category `all` shows the whole catalogue. */
  lemma EmptySearchShowsAll(products: seq<CatalogProduct>, sortBy: string)
    ensures multiset(FilteredProducts(products, "", AllCategories, sortBy)) == multiset(products)
  {
    var r := FilteredProducts(products, "", AllCategories, sortBy);
    forall p ensures multiset(r)[p] == multiset(products)[p] {
      ContainsEmpty(ToLower(p.name));
      assert ToLower("") == "";
    }
  }

  /** Lower-casing twice is lower-casing once. */
  lemma ToLowerIdempotent(s: string)
    ensures ToLower(ToLower(s)) == ToLower(s)
  {
  }

  /** The search ignores the case of the term: typing it in capitals finds the same products. */
  lemma SearchIgnoresCase(p: CatalogProduct, searchTerm: string, category: string)
    ensures Matches(p, ToLower(searchTerm), category) == Matches(p, searchTerm, category)
    ensures Matches(p, ToUpper(searchTerm), category) == Matches(p, searchTerm, category)
  {
    ToLowerIdempotent(searchTerm);
    assert ToLower(ToUpper(searchTerm)) == ToLower(searchTerm);
  }
}
