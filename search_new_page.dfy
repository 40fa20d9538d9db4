/** The redesigned search page: the results pipeline of the routed page with
    a price filter in front of the sort, nine results to a page, category
    chips and toggle chips for layout, switch type and material. */
module SearchNew {
  import opened Wrappers
  import opened Text
  import opened Seqs
  import opened Catalog
  import opened Effects
  import opened SearchResults

  const ProductsPerPage: int := 9

  /** The price filter compares the price in dollars, `price / 1000`, with
      the slider's bounds. */
  predicate InPriceRange(lo: int, hi: int, p: Product) {
    var usd := p.price as real / 1000.0;
    lo as real <= usd <= hi as real
  }

  /** For whole-dollar bounds the filter is a test on the integer price. */
  lemma InPriceRangeIff(lo: int, hi: int, p: Product)
    ensures InPriceRange(lo, hi, p) <==> 1000 * lo <= p.price <= 1000 * hi
  {
    var usd := p.price as real / 1000.0;
    assert p.price as real == usd * 1000.0;
    assert (1000 * lo) as real == lo as real * 1000.0;
    assert (1000 * hi) as real == hi as real * 1000.0;
  }

  /** The list the results effect sorts: the selected source, then the
      price filter. */
  function PriceFilteredSource(catalog: seq<Product>, searchTerm: string, category: string, lo: int, hi: int): seq<Product> {
    Filter((p: Product) => InPriceRange(lo, hi, p), SelectSource(catalog, searchTerm, category))
  }

  /** The list holds each catalog product that passes the source test and
      whose price lies in `[1000 * lo, 1000 * hi]`, as often as the catalog
      does, and nothing else, in catalog order. */
  lemma PriceFilteredExact(catalog: seq<Product>, searchTerm: string, category: string, lo: int, hi: int)
    ensures forall p ::
      multiset(PriceFilteredSource(catalog, searchTerm, category, lo, hi))[p] ==
      (if InSource(p, searchTerm, category) && 1000 * lo <= p.price <= 1000 * hi then multiset(catalog)[p] else 0)
    ensures IsSubsequence(PriceFilteredSource(catalog, searchTerm, category, lo, hi), catalog)
  {
    var P := (p: Product) => InPriceRange(lo, hi, p);
    SourceExact(catalog, searchTerm, category);
    FilterCounts(P, SelectSource(catalog, searchTerm, category));
    FilterIsSubsequence(P, SelectSource(catalog, searchTerm, category));
    SubsequenceTransitive(PriceFilteredSource(catalog, searchTerm, category, lo, hi),
      SelectSource(catalog, searchTerm, category), catalog);
    forall p: Product
      ensures P(p) <==> 1000 * lo <= p.price <= 1000 * hi
    {
      InPriceRangeIff(lo, hi, p);
    }
  }

  /** The initial range `[0, 500]` keeps every seed product: none costs more
      than 500 dollars. */
  lemma InitialRangeKeepsSeed()
    ensures PriceFilteredSource(Products, "", "all", 0, 500) == Products
  {
    var P := (p: Product) => InPriceRange(0, 500, p);
    forall i | 0 <= i < |Products|
      ensures P(Products[i])
    {
      InPriceRangeIff(0, 500, Products[i]);
    }
    FilterKeepsAll(P, Products);
  }

  /** The three lists of toggle chips. */
  datatype FilterType = Layout | SwitchType | Material

  datatype Filters = Filters(layout: seq<string>, switchType: seq<string>, material: seq<string>)
  {
    function Get(t: FilterType): seq<string> {
      match t
      case Layout => layout
      case SwitchType => switchType
      case Material => material
    }
  }

  const NoFilters: Filters := Filters([], [], [])

  /** One list after a click on chip `v`: every copy of `v` removed when it
      is there, `v` appended when it is not. */
  function Toggled(l: seq<string>, v: string): (r: seq<string>)
    ensures v in l ==> v !in r
    ensures v !in l ==> r == l + [v]
    ensures forall x :: x != v ==> multiset(r)[x] == multiset(l)[x]
  {
    if v in l then
      FilterCounts((x: string) => x != v, l);
      Filter((x: string) => x != v, l)
    else l + [v]
  }

  /** `handleFilterToggle(filterType, value)`. */
  function ToggleFilter(f: Filters, t: FilterType, v: string): (r: Filters)
    ensures v in r.Get(t) <==> v !in f.Get(t)
    ensures forall x :: x != v ==> multiset(r.Get(t))[x] == multiset(f.Get(t))[x]
    ensures forall u :: u != t ==> r.Get(u) == f.Get(u)
  {
    match t
    case Layout => f.(layout := Toggled(f.layout, v))
    case SwitchType => f.(switchType := Toggled(f.switchType, v))
    case Material => f.(material := Toggled(f.material, v))
  }

  /** Two clicks on a chip that was off give back the same list. */
  lemma {:induction false} ToggleTwiceAbsent(l: seq<string>, v: string)
    requires v !in l
    ensures Toggled(Toggled(l, v), v) == l
  {
    var P := (x: string) => x != v;
    FilterAppend(P, l, v);
    FilterKeepsAll(P, l);
  }

  /** Two clicks on a chip that was on once give back the same chips, but
      the chip moves to the end of the list. */
  lemma ToggleTwiceOnce(l: seq<string>, v: string)
    requires multiset(l)[v] == 1
    ensures multiset(Toggled(Toggled(l, v), v)) == multiset(l)
  {
    var once := Toggled(l, v);
    assert v in l;
    assert v !in once;
    assert multiset(once)[v] == 0;
    var twice := Toggled(once, v);
    assert twice == once + [v];
    assert multiset(twice)[v] == multiset(once)[v] + 1;
  }

  /** The order is not restored: a chip that was on and not last ends up
      last after two clicks. */
  lemma ToggleTwiceReorders()
    ensures Toggled(Toggled(["60%", "TKL"], "60%"), "60%") == ["TKL", "60%"]
  {
    var P := (x: string) => x != "60%";
    var l: seq<string> := ["60%", "TKL"];
    assert l[1..] == ["TKL"];
    assert ["TKL"][1..] == [];
    assert Filter(P, l) == ["TKL"];
  }

  /** Toggling is carried out on each list independently. */
  lemma ToggleCommutes(f: Filters, t: FilterType, u: FilterType, v: string, w: string)
    requires t != u
    ensures ToggleFilter(ToggleFilter(f, t, v), u, w) == ToggleFilter(ToggleFilter(f, u, w), t, v)
  {
  }

  /** The chip labels of the main row. */
  const ChipItems: seq<string> := ["Keyboards", "Keycaps", "Switches", "Accessories", "DIY Kits"]

  /** `categoryMap[item] || 'all'`: the category a main-row chip selects. */
  function ChipCategory(item: string): (r: string)
    ensures r in {"mechanical", "keycaps", "accessories", "all"}
    ensures r == "all" <==> item !in ChipItems
    ensures r == "mechanical" <==> item == "Keyboards" || item == "DIY Kits"
    ensures r == "accessories" <==> item == "Switches" || item == "Accessories"
  {
    if item == "Keyboards" then "mechanical"
    else if item == "Keycaps" then "keycaps"
    else if item == "Switches" then "accessories"
    else if item == "Accessories" then "accessories"
    else if item == "DIY Kits" then "mechanical"
    else "all"
  }

  class SearchPage {
    var searchTerm: string
    var selectedCategory: string
    var sortBy: string
    var filteredProducts: seq<Product>
    var currentPage: int
    var priceMin: int
    var priceMax: int
    var selectedFilters: Filters

    constructor()
      ensures searchTerm == "" && selectedCategory == "all" && sortBy == "name"
      ensures filteredProducts == [] && currentPage == 1
      ensures priceMin == 0 && priceMax == 500
      ensures selectedFilters == NoFilters
    {
      searchTerm := "";
      selectedCategory := "all";
      sortBy := "name";
      filteredProducts := [];
      currentPage := 1;
      priceMin, priceMax := 0, 500;
      selectedFilters := NoFilters;
    }

    /** The effect on `location.search`: reads `q` and `category` from the
        parsed query string and goes back to the first page. */
    method OnLocationChange(params: map<string, string>)
      modifies this`searchTerm, this`selectedCategory, this`currentPage
      ensures searchTerm == ParamOr(params, "q", "")
      ensures selectedCategory == ParamOr(params, "category", "all")
      ensures currentPage == 1
    {
      searchTerm := ParamOr(params, "q", "");
      selectedCategory := ParamOr(params, "category", "all");
      currentPage := 1;
    }

    /** The results effect: the selected source, filtered by price, reordered
        by the key, with equally ranked products in their source order. The toggle chips are among the effect's dependencies but
        do not take part in it. */
    method RefreshResults()
      modifies this`filteredProducts
      ensures filteredProducts == InsertionSort(Comparator(ParseSortKey(sortBy)), PriceFilteredSource(Products, searchTerm, selectedCategory, priceMin, priceMax))
      ensures multiset(filteredProducts) == multiset(PriceFilteredSource(Products, searchTerm, selectedCategory, priceMin, priceMax))
      ensures SortedBy(ParseSortKey(sortBy), filteredProducts)
      ensures forall c :: Filter(Ties(Comparator(ParseSortKey(sortBy)), c), filteredProducts)
                       == Filter(Ties(Comparator(ParseSortKey(sortBy)), c), PriceFilteredSource(Products, searchTerm, selectedCategory, priceMin, priceMax))
    {
      var results := PriceFilteredSource(Products, searchTerm, selectedCategory, priceMin, priceMax);
      filteredProducts := SortedResults(results, ParseSortKey(sortBy));
    }

    method SetSearchTerm(value: string)
      modifies this`searchTerm
      ensures searchTerm == value
    {
      searchTerm := value;
    }

    method SetSortBy(value: string)
      modifies this`sortBy
      ensures sortBy == value
    {
      sortBy := value;
    }

    method SetCurrentPage(value: int)
      modifies this`currentPage
      ensures currentPage == value
    {
      currentPage := value;
    }

    /** The price slider moves the lower bound only. */
    method SetPriceMin(value: int)
      modifies this`priceMin
      ensures priceMin == value
    {
      priceMin := value;
    }

    /** Submitting the search form: the route to go to, if any. */
    method HandleSearch() returns (nav: Option<Route>)
      ensures nav.None? <==> IsBlank(searchTerm)
      ensures nav.Some? ==> nav.value == SearchQuery(Trim(searchTerm))
    {
      nav := SearchTarget(searchTerm);
    }

    /** Choosing a category: it is selected at once and the URL follows. */
    method HandleCategoryChange(category: string) returns (nav: Route)
      modifies this`selectedCategory
      ensures selectedCategory == category
      ensures nav == (if category == "all" then SearchAll else SearchCategory(category))
    {
      selectedCategory := category;
      nav := CategoryTarget(category);
    }

    /** A click on a chip of the main row. */
    method PressCategoryChip(item: string) returns (nav: Route)
      modifies this`selectedCategory
      ensures selectedCategory == ChipCategory(item)
      ensures item !in ChipItems ==> nav == SearchAll
      ensures item in ChipItems ==> nav == SearchCategory(ChipCategory(item))
    {
      nav := HandleCategoryChange(ChipCategory(item));
    }

    /** A click on a toggle chip. */
    method HandleFilterToggle(t: FilterType, v: string)
      modifies this`selectedFilters
      ensures selectedFilters == ToggleFilter(old(selectedFilters), t, v)
    {
      selectedFilters := ToggleFilter(selectedFilters, t, v);
    }

    /** The add-to-cart button of a result card: disabled when the product
        is out of stock. */
    method PressAddToCart(product: Product) returns (calls: seq<CartCall>)
      ensures product.inStock == 0 ==> calls == []
      ensures product.inStock != 0 ==> calls == [AddToCart(product)]
    {
      calls := if product.inStock == 0 then [] else [AddToCart(product)];
    }

    /** The results on the current page: the window of nine starting at
        `(currentPage - 1) * 9`, cut off at the end of the results. */
    function CurrentProducts(): (r: seq<Product>)
      reads this
      ensures currentPage >= 1 ==> |r| <= ProductsPerPage
      ensures currentPage >= 1 ==> r == filteredProducts[Min((currentPage - 1) * ProductsPerPage, |filteredProducts|)..Min(currentPage * ProductsPerPage, |filteredProducts|)]
    {
      if currentPage >= 1 then PageWindow(filteredProducts, currentPage, ProductsPerPage); PageSlice(filteredProducts, currentPage, ProductsPerPage)
      else PageSlice(filteredProducts, currentPage, ProductsPerPage)
    }

    /** `Math.ceil(filteredProducts.length / 9)`. */
    function PageCount(): (r: nat)
      reads this
      ensures |filteredProducts| == 0 ==> r == 0
      ensures |filteredProducts| > 0 ==> (r - 1) * ProductsPerPage < |filteredProducts| <= r * ProductsPerPage
    {
      TotalPages(|filteredProducts|, ProductsPerPage)
    }
  }
}
