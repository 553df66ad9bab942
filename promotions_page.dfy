/**
 * The promotions page: a fixed list of discounted products, narrowed by a
 * search (name or description containing the term, ignoring ASCII case) and
 * a category, then sorted in place by the chosen option. Each of the three
 * controls stores its new value and recomputes the list from the fixed one.
 */
module PromotionsPage {
  import opened Text
  import opened Lists
  import opened Sorting

  /**
   * A promoted product as listed (its picture is only displayed). Every entry
   * has a discount, so `discount || 0` is the discount itself.
   */
  datatype PromoProduct = PromoProduct(
    id: string, name: string, price: real, originalPrice: real, discount: real,
    description: string, isPromotion: bool, category: string)

  /** The six products the page lists. */
  const Promo1: PromoProduct :=
    PromoProduct("1", "Camiseta Premium Laranja", 79.90, 99.90, 20.0,
      "Camiseta 100% algodão com design moderno", true, "camisetas")
  const Promo3: PromoProduct :=
    PromoProduct("3", "Tênis Casual Branco", 199.90, 249.90, 25.0,
      "Tênis casual confortável para o dia a dia", true, "calcados")
  const Promo4: PromoProduct :=
    PromoProduct("4", "Calça Cargo Preta", 129.90, 179.90, 28.0,
      "Calça cargo resistente com múltiplos bolsos", true, "calcas")
  const Promo5: PromoProduct :=
    PromoProduct("5", "Jaqueta Bomber", 189.90, 259.90, 35.0,
      "Jaqueta bomber moderna e confortável", true, "jaquetas")
  const Promo6: PromoProduct :=
    PromoProduct("6", "Tênis Esportivo", 159.90, 219.90, 30.0,
      "Tênis para corrida e atividades físicas", true, "calcados")
  const Promo7: PromoProduct :=
    PromoProduct("7", "Camiseta Básica Kit", 99.90, 149.90, 33.0,
      "Kit com 3 camisetas básicas essenciais", true, "camisetas")

  const PromotionalProducts: seq<PromoProduct> := [Promo1, Promo3, Promo4, Promo5, Promo6, Promo7]

  const AllCategories: string := "all"

  predicate MatchesSearch(p: PromoProduct, search: string) {
    var term := ToLower(search);
    Contains(ToLower(p.name), term) || Contains(ToLower(p.description), term)
  }

  /** A product is listed when an empty search or a match, and `all` or its own category, let it through. */
  predicate Shown(p: PromoProduct, search: string, category: string) {
    (search == "" || MatchesSearch(p, search)) && (category == AllCategories || p.category == category)
  }

  function Price(p: PromoProduct): real {
    p.price
  }

  function Discount(p: PromoProduct): real {
    p.discount
  }

  function Name(p: PromoProduct): string {
    p.name
  }

  /** The comparator of each sort option; any other option sorts by name. */
  function SortOrder(sort: string): (PromoProduct, PromoProduct) -> bool {
    match sort
    case "price-asc" => Ascending(Price)
    case "price-desc" => Descending(Price)
    case "discount" => Descending(Discount)
    case _ => ByName(Name)
  }

  lemma SortOrderTotal(sort: string)
    ensures TotalPreorder(SortOrder(sort))
  {
    AscendingTotal(Price);
    DescendingTotal(Price);
    DescendingTotal(Discount);
    ByNameTotal(Name);
  }

  /** The search test `filter` applies when there is a search. */
  function SearchFilter(search: string): PromoProduct -> bool {
    (p: PromoProduct) => MatchesSearch(p, search)
  }

  /** The category test `filter` applies when the category is not `all`. */
  function CategoryFilter(category: string): PromoProduct -> bool {
    (p: PromoProduct) => p.category == category
  }

  /** Both controls together. */
  function ShownBy(search: string, category: string): PromoProduct -> bool {
    (p: PromoProduct) => Shown(p, search, category)
  }

  /**
   * The list the page shows for these control values: exactly the shown
   * entries, as often as they occur, ordered by the option, and entries the
   * option ranks level in the order of the fixed list.
   */
  ghost predicate Listing(r: seq<PromoProduct>, all: seq<PromoProduct>, search: string, category: string, sort: string) {
    && (forall p :: multiset(r)[p] == if Shown(p, search, category) then multiset(all)[p] else 0)
    && SortedBy(r, SortOrder(sort))
    && Stable(r, Keep(all, ShownBy(search, category)), SortOrder(sort))
  }

  /** The control values fix the listing: only one list meets `Listing`. */
  lemma ListingUnique(r1: seq<PromoProduct>, r2: seq<PromoProduct>, all: seq<PromoProduct>, search: string, category: string, sort: string)
    requires Listing(r1, all, search, category, sort) && Listing(r2, all, search, category, sort)
    ensures r1 == r2
  {
    SortOrderTotal(sort);
    StableSortIsSort(r1, Keep(all, ShownBy(search, category)), SortOrder(sort));
    StableSortIsSort(r2, Keep(all, ShownBy(search, category)), SortOrder(sort));
  }

  /** What each sort option means for a listing. */
  lemma SortModes(r: seq<PromoProduct>, sort: string)
    requires SortedBy(r, SortOrder(sort))
    ensures sort == "price-asc" ==> forall i, j :: 0 <= i < j < |r| ==> r[i].price <= r[j].price
    ensures sort == "price-desc" ==> forall i, j :: 0 <= i < j < |r| ==> r[i].price >= r[j].price
    ensures sort == "discount" ==> forall i, j :: 0 <= i < j < |r| ==> r[i].discount >= r[j].discount
    ensures sort !in {"price-asc", "price-desc", "discount"} ==>
      forall i, j :: 0 <= i < j < |r| ==> NameLe(r[i].name, r[j].name)
  {
    var le := SortOrder(sort);
    forall i, j | 0 <= i < j < |r|
      ensures sort == "price-asc" ==> r[i].price <= r[j].price
      ensures sort == "price-desc" ==> r[i].price >= r[j].price
      ensures sort == "discount" ==> r[i].discount >= r[j].discount
      ensures sort !in {"price-asc", "price-desc", "discount"} ==> NameLe(r[i].name, r[j].name)
    {
      assert le(r[i], r[j]);
      if sort == "price-asc" {
        assert Price(r[i]) <= Price(r[j]);
      } else if sort == "price-desc" {
        assert Price(r[j]) <= Price(r[i]);
      } else if sort == "discount" {
        assert Discount(r[j]) <= Discount(r[i]);
      } else {
        assert NameLe(Name(r[i]), Name(r[j]));
      }
    }
  }

  /**
   * `filterProducts`: copy the list, keep the search matches when there is a
   * search, keep the category when it is not `all`, then sort the copy in place.
   */
  method FilterProducts(all: seq<PromoProduct>, search: string, category: string, sort: string)
    returns (r: seq<PromoProduct>)
    ensures forall p :: multiset(r)[p] == if Shown(p, search, category) then multiset(all)[p] else 0
    ensures SortedBy(r, SortOrder(sort))
    ensures Stable(r, Keep(all, ShownBy(search, category)), SortOrder(sort))
  {
    var filtered := all;
    if search != "" {
      filtered := Keep(filtered, SearchFilter(search));
    }
    if category != AllCategories {
      filtered := Keep(filtered, CategoryFilter(category));
    }
    FilterStages(all, search, category);
    KeepCount(all, ShownBy(search, category));
    SortOrderTotal(sort);
    r := SortedCopy(filtered, SortOrder(sort));
  }

  /** The two optional `filter` calls keep exactly the shown entries, in order. */
  lemma FilterStages(all: seq<PromoProduct>, search: string, category: string)
    ensures var afterSearch := if search != "" then Keep(all, SearchFilter(search)) else all;
      (if category != AllCategories then Keep(afterSearch, CategoryFilter(category)) else afterSearch)
      == Keep(all, ShownBy(search, category))
  {
    var shown := ShownBy(search, category);
    if search != "" && category != AllCategories {
      KeepTwice(all, SearchFilter(search), CategoryFilter(category), shown);
    } else if search != "" {
      KeepAgree(all, SearchFilter(search), shown);
    } else if category != AllCategories {
      KeepAgree(all, CategoryFilter(category), shown);
    } else {
      assert forall i :: 0 <= i < |all| ==> shown(all[i]);
      KeepAll(all, shown);
    }
  }

  /** The list the page opens with is not in name order, although the sort control starts at `name`. */
  lemma InitialListingUnordered()
    ensures !SortedBy(PromotionalProducts, SortOrder("name"))
  {
    var second, third := Promo3.name, Promo4.name;
    assert second[0] == 'T' && third[0] == 'C';
    NameLeFirstDifference(second, third, 0);
    OutOfNameOrder(PromotionalProducts, Name, 1, 2);
    assert SortOrder("name") == ByName(Name);
  }

  /** The page's state. */
  class PromotionsPageState {
    var searchTerm: string
    var selectedCategory: string
    var sortBy: string
    var filteredProducts: seq<PromoProduct>

    /** The listing shows what the controls select. */
    ghost predicate Valid()
      reads this
    {
      Listing(filteredProducts, PromotionalProducts, searchTerm, selectedCategory, sortBy)
    }

    /** As the page opens: no search, category `all`, sort `name`, and the fixed list as it is. */
    constructor AsWritten()
      ensures searchTerm == "" && selectedCategory == AllCategories && sortBy == "name"
      ensures filteredProducts == PromotionalProducts
    {
      searchTerm, selectedCategory, sortBy := "", AllCategories, "name";
      filteredProducts := PromotionalProducts;
    }

    /** The same opening state with the list computed by `filterProducts`, so that it agrees with the controls. */
    constructor ()
      ensures searchTerm == "" && selectedCategory == AllCategories && sortBy == "name"
      ensures Valid()
    {
      searchTerm, selectedCategory, sortBy := "", AllCategories, "name";
      new;
      Refilter();
    }

    /** `filterProducts` on the current control values, storing its result as the listing. */
    method Refilter()
      modifies this
      ensures searchTerm == old(searchTerm) && selectedCategory == old(selectedCategory) && sortBy == old(sortBy)
      ensures Valid()
    {
      filteredProducts := FilterProducts(PromotionalProducts, searchTerm, selectedCategory, sortBy);
    }

    /** `handleSearch`. */
    method HandleSearch(term: string)
      modifies this
      ensures searchTerm == term && selectedCategory == old(selectedCategory) && sortBy == old(sortBy)
      ensures Valid()
    {
      searchTerm := term;
      Refilter();
    }

    /** `handleCategoryFilter`. */
    method HandleCategoryFilter(category: string)
      modifies this
      ensures selectedCategory == category && searchTerm == old(searchTerm) && sortBy == old(sortBy)
      ensures Valid()
    {
      selectedCategory := category;
      Refilter();
    }

    /** `handleSort`. */
    method HandleSort(sort: string)
      modifies this
      ensures sortBy == sort && searchTerm == old(searchTerm) && selectedCategory == old(selectedCategory)
      ensures Valid()
    {
      sortBy := sort;
      Refilter();
    }

    /** The "Limpar Filtros" button: the controls go back to their defaults and the fixed list is shown as it is. */
    method ClearFiltersAsWritten()
      modifies this
      ensures searchTerm == "" && selectedCategory == AllCategories && sortBy == "name"
      ensures filteredProducts == PromotionalProducts
    {
      searchTerm, selectedCategory, sortBy := "", AllCategories, "name";
      filteredProducts := PromotionalProducts;
    }

    /** The same reset, with the list recomputed so that it agrees with the default controls. */
    method ClearFilters()
      modifies this
      ensures searchTerm == "" && selectedCategory == AllCategories && sortBy == "name"
      ensures Valid()
    {
      searchTerm, selectedCategory, sortBy := "", AllCategories, "name";
      Refilter();
    }
  }
}
