/** The routed search page: the search term and category come from the URL,
    the results are the selected source sorted by the chosen key, and they
    are shown six to a page. */
module Search {
  import opened Wrappers
  import opened Text
  import opened Seqs
  import opened Catalog
  import opened Effects
  import opened SearchResults

  const ProductsPerPage: int := 6

  class SearchPage {
    var searchTerm: string
    var selectedCategory: string
    var sortBy: string
    var filteredProducts: seq<Product>
    var currentPage: int

    constructor()
      ensures searchTerm == "" && selectedCategory == "all" && sortBy == "name"
      ensures filteredProducts == [] && currentPage == 1
    {
      searchTerm := "";
      selectedCategory := "all";
      sortBy := "name";
      filteredProducts := [];
      currentPage := 1;
    }

    /** The effect on `location.search`: reads `q` and `category` from the
        parsed query string and goes back to the first page. */
    method OnLocationChange(params: map<string, string>)
      modifies this`searchTerm, this`selectedCategory, this`currentPage
      ensures searchTerm == ParamOr(params, "q", "")
      ensures selectedCategory == ParamOr(params, "category", "all")
      ensures currentPage == 1
    {
      searchTerm := ParamOr(params, "q", "");
      selectedCategory := ParamOr(params, "category", "all");
      currentPage := 1;
    }

    /** The effect on the term, the category and the sort key: the displayed
        results are the selected source, reordered by the key, with equally
        ranked products in their source order. */
    method RefreshResults()
      modifies this`filteredProducts
      ensures filteredProducts == InsertionSort(Comparator(ParseSortKey(sortBy)), SelectSource(Products, searchTerm, selectedCategory))
      ensures multiset(filteredProducts) == multiset(SelectSource(Products, searchTerm, selectedCategory))
      ensures SortedBy(ParseSortKey(sortBy), filteredProducts)
      ensures forall c :: Filter(Ties(Comparator(ParseSortKey(sortBy)), c), filteredProducts)
                       == Filter(Ties(Comparator(ParseSortKey(sortBy)), c), SelectSource(Products, searchTerm, selectedCategory))
    {
      filteredProducts := SortedResults(SelectSource(Products, searchTerm, selectedCategory), ParseSortKey(sortBy));
    }

    /** Typing in the search box. */
    method SetSearchTerm(value: string)
      modifies this`searchTerm
      ensures searchTerm == value
    {
      searchTerm := value;
    }

    /** Choosing a sort key. */
    method SetSortBy(value: string)
      modifies this`sortBy
      ensures sortBy == value
    {
      sortBy := value;
    }

    /** Choosing a page in the pagination control. */
    method SetCurrentPage(value: int)
      modifies this`currentPage
      ensures currentPage == value
    {
      currentPage := value;
    }

    /** Submitting the search form: the route to go to, if any. */
    method HandleSearch() returns (nav: Option<Route>)
      ensures nav.None? <==> IsBlank(searchTerm)
      ensures nav.Some? ==> nav.value == SearchQuery(Trim(searchTerm))
    {
      nav := SearchTarget(searchTerm);
    }

    /** Choosing a category: it is selected at once and the URL follows. */
    method HandleCategoryChange(category: string) returns (nav: Route)
      modifies this`selectedCategory
      ensures selectedCategory == category
      ensures nav == (if category == "all" then SearchAll else SearchCategory(category))
    {
      selectedCategory := category;
      nav := CategoryTarget(category);
    }

    /** The add-to-cart button of a result card: disabled when the product
        is out of stock. */
    method PressAddToCart(product: Product) returns (calls: seq<CartCall>)
      ensures product.inStock == 0 ==> calls == []
      ensures product.inStock != 0 ==> calls == [AddToCart(product)]
    {
      calls := if product.inStock == 0 then [] else [AddToCart(product)];
    }

    /** The results on the current page: the window of six starting at
        `(currentPage - 1) * 6`, cut off at the end of the results. */
    function CurrentProducts(): (r: seq<Product>)
      reads this
      ensures currentPage >= 1 ==> |r| <= ProductsPerPage
      ensures currentPage >= 1 ==> r == filteredProducts[Min((currentPage - 1) * ProductsPerPage, |filteredProducts|)..Min(currentPage * ProductsPerPage, |filteredProducts|)]
    {
      if currentPage >= 1 then PageWindow(filteredProducts, currentPage, ProductsPerPage); PageSlice(filteredProducts, currentPage, ProductsPerPage)
      else PageSlice(filteredProducts, currentPage, ProductsPerPage)
    }

    /** `Math.ceil(filteredProducts.length / 6)`. */
    function PageCount(): (r: nat)
      reads this
      ensures |filteredProducts| == 0 ==> r == 0
      ensures |filteredProducts| > 0 ==> (r - 1) * ProductsPerPage < |filteredProducts| <= r * ProductsPerPage
    {
      TotalPages(|filteredProducts|, ProductsPerPage)
    }
  }
}
