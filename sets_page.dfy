/**
 * The product-sets page: a fixed list of sets, narrowed by a search (name,
 * description or a tag containing the term, ignoring ASCII case) and a
 * category, then sorted in place by the chosen option. Each of the three
 * controls stores its new value and recomputes the list from the fixed one.
 */
module SetsPage {
  import opened Text
  import opened Lists
  import opened Sorting

  datatype SetItem = SetItem(id: string, name: string, price: real)

  /** A product set as listed (its picture is only displayed). */
  datatype ProductSet = ProductSet(
    id: string, name: string, description: string, items: seq<SetItem>,
    totalPrice: real, discountedPrice: real, discount: real, category: string, tags: seq<string>)

  /** The six sets the page lists. */
  const Set1: ProductSet :=
    ProductSet("set-1", "Conjunto Urban Casual", "Look completo para o dia a dia urbano com conforto e estilo",
      [SetItem("1", "Camiseta Premium Laranja", 79.90), SetItem("2", "Calça Jeans Premium", 149.90),
       SetItem("3", "Tênis Casual Branco", 199.90)],
      429.70, 359.90, 16.0, "casual", ["bestseller", "comfort"])

  const Set2: ProductSet :=
    ProductSet("set-2", "Conjunto Street Style", "Para quem gosta de se destacar nas ruas com muito estilo",
      [SetItem("4", "Camiseta Oversized", 89.90), SetItem("5", "Calça Cargo", 159.90),
       SetItem("6", "Tênis Chunky", 229.90)],
      479.70, 399.90, 17.0, "street", ["trending", "urban"])

  const Set3: ProductSet :=
    ProductSet("set-3", "Conjunto Smart Casual", "Elegância e sofisticação para ocasiões especiais",
      [SetItem("7", "Camisa Social", 119.90), SetItem("8", "Calça Social", 189.90),
       SetItem("9", "Sapato Social", 249.90)],
      559.70, 469.90, 16.0, "formal", ["elegant", "professional"])

  const Set4: ProductSet :=
    ProductSet("set-4", "Conjunto Esportivo", "Perfeito para academia e atividades físicas",
      [SetItem("10", "Camiseta Dri-Fit", 69.90), SetItem("11", "Bermuda Esportiva", 79.90),
       SetItem("12", "Tênis Running", 189.90)],
      339.70, 289.90, 15.0, "sport", ["fitness", "performance"])

  const Set5: ProductSet :=
    ProductSet("set-5", "Conjunto Summer Vibes", "Para os dias quentes com muito estilo e frescor",
      [SetItem("13", "Regata Premium", 59.90), SetItem("14", "Bermuda Jeans", 99.90),
       SetItem("15", "Chinelo Slide", 79.90)],
      239.70, 199.90, 17.0, "summer", ["fresh", "beach"])

  const Set6: ProductSet :=
    ProductSet("set-6", "Conjunto Winter Style", "Looks quentes e estilosos para o inverno",
      [SetItem("16", "Moletom Premium", 139.90), SetItem("17", "Calça Moletom", 109.90),
       SetItem("18", "Tênis Cano Alto", 219.90)],
      469.70, 389.90, 17.0, "winter", ["warm", "cozy"])

  const ProductSets: seq<ProductSet> := [Set1, Set2, Set3, Set4, Set5, Set6]

  const AllCategories: string := "all"

  /** The search: the term occurs in the name, the description or one of the tags, ignoring ASCII case. */
  predicate MatchesSearch(s: ProductSet, search: string) {
    var term := ToLower(search);
    Contains(ToLower(s.name), term) || Contains(ToLower(s.description), term) ||
    exists i | 0 <= i < |s.tags| :: Contains(ToLower(s.tags[i]), term)
  }

  /** A set is listed when an empty search or a match, and `all` or its own category, let it through. */
  predicate Shown(s: ProductSet, search: string, category: string) {
    (search == "" || MatchesSearch(s, search)) && (category == AllCategories || s.category == category)
  }

  function DiscountedPrice(s: ProductSet): real {
    s.discountedPrice
  }

  function Discount(s: ProductSet): real {
    s.discount
  }

  function Name(s: ProductSet): string {
    s.name
  }

  /** The comparator of each sort option; any other option sorts by name. */
  function SortOrder(sort: string): (ProductSet, ProductSet) -> bool {
    match sort
    case "price-asc" => Ascending(DiscountedPrice)
    case "price-desc" => Descending(DiscountedPrice)
    case "discount" => Descending(Discount)
    case _ => ByName(Name)
  }

  lemma SortOrderTotal(sort: string)
    ensures TotalPreorder(SortOrder(sort))
  {
    AscendingTotal(DiscountedPrice);
    DescendingTotal(DiscountedPrice);
    DescendingTotal(Discount);
    ByNameTotal(Name);
  }

  /** The search test `filter` applies when there is a search. */
  function SearchFilter(search: string): ProductSet -> bool {
    (s: ProductSet) => MatchesSearch(s, search)
  }

  /** The category test `filter` applies when the category is not `all`. */
  function CategoryFilter(category: string): ProductSet -> bool {
    (s: ProductSet) => s.category == category
  }

  /** Both controls together. */
  function ShownBy(search: string, category: string): ProductSet -> bool {
    (s: ProductSet) => Shown(s, search, category)
  }

  /**
   * The list the page shows for these control values: exactly the shown
   * entries, as often as they occur, ordered by the option, and entries the
   * option ranks level in the order of the fixed list.
   */
  ghost predicate Listing(r: seq<ProductSet>, all: seq<ProductSet>, search: string, category: string, sort: string) {
    && (forall s :: multiset(r)[s] == if Shown(s, search, category) then multiset(all)[s] else 0)
    && SortedBy(r, SortOrder(sort))
    && Stable(r, Keep(all, ShownBy(search, category)), SortOrder(sort))
  }

  /** The control values fix the listing: only one list meets `Listing`. */
  lemma ListingUnique(r1: seq<ProductSet>, r2: seq<ProductSet>, all: seq<ProductSet>, search: string, category: string, sort: string)
    requires Listing(r1, all, search, category, sort) && Listing(r2, all, search, category, sort)
    ensures r1 == r2
  {
    SortOrderTotal(sort);
    StableSortIsSort(r1, Keep(all, ShownBy(search, category)), SortOrder(sort));
    StableSortIsSort(r2, Keep(all, ShownBy(search, category)), SortOrder(sort));
  }

  /** What each sort option means for a listing. */
  lemma SortModes(r: seq<ProductSet>, sort: string)
    requires SortedBy(r, SortOrder(sort))
    ensures sort == "price-asc" ==> forall i, j :: 0 <= i < j < |r| ==> r[i].discountedPrice <= r[j].discountedPrice
    ensures sort == "price-desc" ==> forall i, j :: 0 <= i < j < |r| ==> r[i].discountedPrice >= r[j].discountedPrice
    ensures sort == "discount" ==> forall i, j :: 0 <= i < j < |r| ==> r[i].discount >= r[j].discount
    ensures sort !in {"price-asc", "price-desc", "discount"} ==>
      forall i, j :: 0 <= i < j < |r| ==> NameLe(r[i].name, r[j].name)
  {
    var le := SortOrder(sort);
    forall i, j | 0 <= i < j < |r|
      ensures sort == "price-asc" ==> r[i].discountedPrice <= r[j].discountedPrice
      ensures sort == "price-desc" ==> r[i].discountedPrice >= r[j].discountedPrice
      ensures sort == "discount" ==> r[i].discount >= r[j].discount
      ensures sort !in {"price-asc", "price-desc", "discount"} ==> NameLe(r[i].name, r[j].name)
    {
      assert le(r[i], r[j]);
      if sort == "price-asc" {
        assert DiscountedPrice(r[i]) <= DiscountedPrice(r[j]);
      } else if sort == "price-desc" {
        assert DiscountedPrice(r[j]) <= DiscountedPrice(r[i]);
      } else if sort == "discount" {
        assert Discount(r[j]) <= Discount(r[i]);
      } else {
        assert NameLe(Name(r[i]), Name(r[j]));
      }
    }
  }

  /**
   * `filterSets`: copy the list, keep the search matches when there is a
   * search, keep the category when it is not `all`, then sort the copy in place.
   */
  method FilterSets(all: seq<ProductSet>, search: string, category: string, sort: string) returns (r: seq<ProductSet>)
    ensures forall s :: multiset(r)[s] == if Shown(s, search, category) then multiset(all)[s] else 0
    ensures SortedBy(r, SortOrder(sort))
    ensures Stable(r, Keep(all, ShownBy(search, category)), SortOrder(sort))
  {
    var filtered := all;
    if search != "" {
      filtered := Keep(filtered, SearchFilter(search));
    }
    if category != AllCategories {
      filtered := Keep(filtered, CategoryFilter(category));
    }
    FilterStages(all, search, category);
    KeepCount(all, ShownBy(search, category));
    SortOrderTotal(sort);
    r := SortedCopy(filtered, SortOrder(sort));
  }

  /** The two optional `filter` calls keep exactly the shown entries, in order. */
  lemma FilterStages(all: seq<ProductSet>, search: string, category: string)
    ensures var afterSearch := if search != "" then Keep(all, SearchFilter(search)) else all;
      (if category != AllCategories then Keep(afterSearch, CategoryFilter(category)) else afterSearch)
      == Keep(all, ShownBy(search, category))
  {
    var shown := ShownBy(search, category);
    if search != "" && category != AllCategories {
      KeepTwice(all, SearchFilter(search), CategoryFilter(category), shown);
    } else if search != "" {
      KeepAgree(all, SearchFilter(search), shown);
    } else if category != AllCategories {
      KeepAgree(all, CategoryFilter(category), shown);
    } else {
      assert forall i :: 0 <= i < |all| ==> shown(all[i]);
      KeepAll(all, shown);
    }
  }

  /**
   * Sorted by discount, the whole list reads set-2, set-5, set-6 (17%),
   * set-1, set-3 (16%), set-4 (15%): sets with equal discounts keep the
   * order of the fixed list, and no other order meets `Listing`.
   */
  lemma DiscountListing(r: seq<ProductSet>)
    requires Listing(r, ProductSets, "", AllCategories, "discount")
    ensures r == [Set2, Set5, Set6, Set1, Set3, Set4]
  {
    var le := SortOrder("discount");
    assert le == Descending(Discount);
    var all := Keep(ProductSets, ShownBy("", AllCategories));
    KeepAll(ProductSets, ShownBy("", AllCategories));
    DiscountOrder(Set1, Set2, Set3, Set4, Set5, Set6);
    SortOrderTotal("discount");
    StableSortIsSort([Set2, Set5, Set6, Set1, Set3, Set4], all, le);
    StableSortIsSort(r, all, le);
  }

  /** Six sets with the listed discounts, reordered by discount, stay in list order within each discount. */
  lemma DiscountOrder(s1: ProductSet, s2: ProductSet, s3: ProductSet, s4: ProductSet, s5: ProductSet, s6: ProductSet)
    requires s1.discount == 16.0 && s2.discount == 17.0 && s3.discount == 16.0
    requires s4.discount == 15.0 && s5.discount == 17.0 && s6.discount == 17.0
    ensures SortedBy([s2, s5, s6, s1, s3, s4], Descending(Discount))
    ensures Stable([s2, s5, s6, s1, s3, s4], [s1, s2, s3, s4, s5, s6], Descending(Discount))
  {
    var c := [s2, s5, s6, s1, s3, s4];
    forall i, j | 0 <= i < j < |c| ensures Descending(Discount)(c[i], c[j]) {
      assert Discount(c[j]) <= Discount(c[i]);
    }
    forall z ensures Keep(c, LevelWith(Descending(Discount), z)) == Keep([s1, s2, s3, s4, s5, s6], LevelWith(Descending(Discount), z)) {
      DiscountRank(s1, s2, s3, s4, s5, s6, z);
    }
  }

  /** One discount level of the reordered six sets holds the same sets, in the same order, as in the fixed list. */
  lemma DiscountRank(s1: ProductSet, s2: ProductSet, s3: ProductSet, s4: ProductSet, s5: ProductSet, s6: ProductSet, z: ProductSet)
    requires s1.discount == 16.0 && s2.discount == 17.0 && s3.discount == 16.0
    requires s4.discount == 15.0 && s5.discount == 17.0 && s6.discount == 17.0
    ensures Keep([s2, s5, s6, s1, s3, s4], LevelWith(Descending(Discount), z))
      == Keep([s1, s2, s3, s4, s5, s6], LevelWith(Descending(Discount), z))
  {
    var f := LevelWith(Descending(Discount), z);
    var k := z.discount;
    DescendingLevel(Discount, z, s1);
    DescendingLevel(Discount, z, s2);
    DescendingLevel(Discount, z, s3);
    DescendingLevel(Discount, z, s4);
    DescendingLevel(Discount, z, s5);
    DescendingLevel(Discount, z, s6);
    KeepWritten([s2, s5, s6, s1, s3, s4], f);
    KeepWritten([s1, s2, s3, s4, s5, s6], f);
    if k == 17.0 {
      assert Kept(s1, f) == Kept(s3, f) == Kept(s4, f) == [];
      assert Kept(s2, f) == [s2] && Kept(s5, f) == [s5] && Kept(s6, f) == [s6];
    } else if k == 16.0 {
      assert Kept(s2, f) == Kept(s4, f) == Kept(s5, f) == Kept(s6, f) == [];
      assert Kept(s1, f) == [s1] && Kept(s3, f) == [s3];
    } else if k == 15.0 {
      assert Kept(s1, f) == Kept(s2, f) == Kept(s3, f) == Kept(s5, f) == Kept(s6, f) == [];
    } else {
      assert Kept(s1, f) == Kept(s2, f) == Kept(s3, f) == Kept(s4, f) == Kept(s5, f) == Kept(s6, f) == [];
    }
  }

  /** The list the page opens with is not in name order, although the sort control starts at `name`. */
  lemma InitialListingUnordered()
    ensures !SortedBy(ProductSets, SortOrder("name"))
  {
    var r := ProductSets;
    assert r[0] == Set1 && r[1] == Set2;
    FirstNamesUnordered(Set1.name, Set2.name);
    FirstTwoUnordered(r);
  }

  lemma FirstTwoUnordered(r: seq<ProductSet>)
    requires |r| >= 2 && !NameLe(r[0].name, r[1].name)
    ensures !SortedBy(r, SortOrder("name"))
  {
    OutOfNameOrder(r, Name, 0, 1);
    assert SortOrder("name") == ByName(Name);
  }

  /** "Conjunto Urban Casual" comes after "Conjunto Street Style": they first differ at 'U' and 'S'. */
  lemma FirstNamesUnordered(first: string, second: string)
    requires first == "Conjunto Urban Casual" && second == "Conjunto Street Style"
    ensures !NameLe(first, second)
  {
    assert first[9] == 'U' && second[9] == 'S';
    assert first[..9] == second[..9];
    forall i | 0 <= i < 9 ensures first[i] == second[i] {
      assert first[i] == first[..9][i] && second[i] == second[..9][i];
    }
    NameLeFirstDifference(first, second, 9);
  }

  /** The page's state. */
  class SetsPageState {
    var searchTerm: string
    var selectedCategory: string
    var sortBy: string
    var filteredSets: seq<ProductSet>

    /** The listing shows what the controls select. */
    ghost predicate Valid()
      reads this
    {
      Listing(filteredSets, ProductSets, searchTerm, selectedCategory, sortBy)
    }

    /** As the page opens: no search, category `all`, sort `name`, and the fixed list as it is. */
    constructor AsWritten()
      ensures searchTerm == "" && selectedCategory == AllCategories && sortBy == "name"
      ensures filteredSets == ProductSets
    {
      searchTerm, selectedCategory, sortBy := "", AllCategories, "name";
      filteredSets := ProductSets;
    }

    /** The same opening state with the list computed by `filterSets`, so that it agrees with the controls. */
    constructor ()
      ensures searchTerm == "" && selectedCategory == AllCategories && sortBy == "name"
      ensures Valid()
    {
      searchTerm, selectedCategory, sortBy := "", AllCategories, "name";
      new;
      Refilter();
    }

    /** `filterSets` on the current control values, storing its result as the listing. */
    method Refilter()
      modifies this
      ensures searchTerm == old(searchTerm) && selectedCategory == old(selectedCategory) && sortBy == old(sortBy)
      ensures Valid()
    {
      filteredSets := FilterSets(ProductSets, searchTerm, selectedCategory, sortBy);
    }

    /** `handleSearch`. */
    method HandleSearch(term: string)
      modifies this
      ensures searchTerm == term && selectedCategory == old(selectedCategory) && sortBy == old(sortBy)
      ensures Valid()
    {
      searchTerm := term;
      Refilter();
    }

    /** `handleCategoryFilter`. */
    method HandleCategoryFilter(category: string)
      modifies this
      ensures selectedCategory == category && searchTerm == old(searchTerm) && sortBy == old(sortBy)
      ensures Valid()
    {
      selectedCategory := category;
      Refilter();
    }

    /** `handleSort`. */
    method HandleSort(sort: string)
      modifies this
      ensures sortBy == sort && searchTerm == old(searchTerm) && selectedCategory == old(selectedCategory)
      ensures Valid()
    {
      sortBy := sort;
      Refilter();
    }

    /** The "Limpar Filtros" button: the controls go back to their defaults and the fixed list is shown as it is. */
    method ClearFiltersAsWritten()
      modifies this
      ensures searchTerm == "" && selectedCategory == AllCategories && sortBy == "name"
      ensures filteredSets == ProductSets
    {
      searchTerm, selectedCategory, sortBy := "", AllCategories, "name";
      filteredSets := ProductSets;
    }

    /** The same reset, with the list recomputed so that it agrees with the default controls. */
    method ClearFilters()
      modifies this
      ensures searchTerm == "" && selectedCategory == AllCategories && sortBy == "name"
      ensures Valid()
    {
      searchTerm, selectedCategory, sortBy := "", AllCategories, "name";
      Refilter();
    }
  }
}
