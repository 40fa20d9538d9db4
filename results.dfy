/** The part of the search pages' results logic that both versions share:
    which products to start from, the four sort orders and the sort itself,
    pagination, the defaults read from the URL and the search-box guard. */
module SearchResults {
  import opened Wrappers
  import opened Text
  import opened Seqs
  import opened Catalog
  import opened Effects

  /** The starting list: a non-empty search term wins, then a category other
      than "all", then a copy of the whole catalog. */
  function SelectSource(catalog: seq<Product>, searchTerm: string, category: string): seq<Product> {
    if searchTerm != "" then SearchProducts(catalog, searchTerm)
    else if category != "all" then GetProductsByCategory(catalog, category)
    else catalog
  }

  /** The test a product must pass to be in the starting list. */
  ghost predicate InSource(p: Product, searchTerm: string, category: string) {
    && (searchTerm != "" ==> MatchesQuery(p, searchTerm))
    && (searchTerm == "" && category != "all" ==> p.category == category)
  }

  /** The starting list holds each catalog product that passes the test as
      often as the catalog does, and nothing else, in catalog order. */
  lemma SourceExact(catalog: seq<Product>, searchTerm: string, category: string)
    ensures var r := SelectSource(catalog, searchTerm, category);
      && (forall p :: p in r <==> p in catalog && InSource(p, searchTerm, category))
      && (forall p :: multiset(r)[p] == if InSource(p, searchTerm, category) then multiset(catalog)[p] else 0)
      && IsSubsequence(r, catalog)
  {
    if searchTerm != "" {
      SearchExact(catalog, searchTerm);
    } else if category != "all" {
      CategoryQueryExact(catalog, category);
    } else {
      assert Picks(seq(|catalog|, i => i), catalog, catalog);
    }
  }

  /** The keys of the sort selector. Any value other than the three named
      ones sorts by name. */
  datatype SortKey = PriceLow | PriceHigh | HighestRating | ByName

  function ParseSortKey(sortBy: string): (k: SortKey)
    ensures k == PriceLow <==> sortBy == "price-low"
    ensures k == PriceHigh <==> sortBy == "price-high"
    ensures k == HighestRating <==> sortBy == "rating"
    ensures k == ByName <==> sortBy !in {"price-low", "price-high", "rating"}
  {
    if sortBy == "price-low" then PriceLow
    else if sortBy == "price-high" then PriceHigh
    else if sortBy == "rating" then HighestRating
    else ByName
  }

  /** The comparator of the sort returns a value `<= 0` for `a`, `b`: `a` may
      stand before `b`. */
  predicate Before(k: SortKey, a: Product, b: Product) {
    match k
    case PriceLow => a.price <= b.price
    case PriceHigh => b.price <= a.price
    case HighestRating => b.rating <= a.rating
    case ByName => NameLeq(a.name, b.name)
  }

  lemma BeforeTotal(k: SortKey, a: Product, b: Product)
    ensures Before(k, a, b) || Before(k, b, a)
  {
    if k == ByName {
      NameLeqTotal(a.name, b.name);
    }
  }

  lemma BeforeTransitive(k: SortKey, a: Product, b: Product, c: Product)
    requires Before(k, a, b) && Before(k, b, c)
    ensures Before(k, a, c)
  {
    if k == ByName {
      NameLeqTransitive(a.name, b.name, c.name);
    }
  }

  /** The comparator of key `k` as a function value, `comparator(a, b) <= 0`. */
  function Comparator(k: SortKey): (Product, Product) -> bool {
    (a, b) => Before(k, a, b)
  }

  /** Each key's comparator is consistent, as `sort` requires. */
  lemma ComparatorConsistent(k: SortKey)
    ensures Total(Comparator(k)) && Transitive(Comparator(k))
  {
    forall a, b
      ensures Comparator(k)(a, b) || Comparator(k)(b, a)
    {
      BeforeTotal(k, a, b);
    }
    forall a, b, c | Comparator(k)(a, b) && Comparator(k)(b, c)
      ensures Comparator(k)(a, c)
    {
      BeforeTransitive(k, a, b, c);
    }
  }

  /** Every product may stand before every product after it. */
  ghost predicate SortedBy(k: SortKey, s: seq<Product>) {
    Ordered(Comparator(k), s)
  }

  /** What each key's order means for the sorted list. */
  lemma SortedMeaning(k: SortKey, s: seq<Product>)
    requires SortedBy(k, s)
    ensures k == PriceLow ==> forall i, j :: 0 <= i < j < |s| ==> s[i].price <= s[j].price
    ensures k == PriceHigh ==> forall i, j :: 0 <= i < j < |s| ==> s[i].price >= s[j].price
    ensures k == HighestRating ==> forall i, j :: 0 <= i < j < |s| ==> s[i].rating >= s[j].rating
    ensures k == ByName ==> forall i, j :: 0 <= i < j < |s| ==> NameLeq(s[i].name, s[j].name)
  {
    forall i, j | 0 <= i < j < |s|
      ensures Before(k, s[i], s[j])
    {
      assert Comparator(k)(s[i], s[j]);
    }
  }

  /** The results effect's `results.sort(comparator)` on a fresh copy of
      `source`: the same products, each as often, in the order of `k`, and
      equally ranked products in their order in `source`. */
  method SortedResults(source: seq<Product>, k: SortKey) returns (r: seq<Product>)
    ensures r == InsertionSort(Comparator(k), source)
    ensures multiset(r) == multiset(source)
    ensures SortedBy(k, r)
    ensures forall c :: Filter(Ties(Comparator(k), c), r) == Filter(Ties(Comparator(k), c), source)
  {
    var a := new Product[|source|](i requires 0 <= i < |source| => source[i]);
    assert a[..] == source;
    SortInPlace(a, Comparator(k));
    r := a[..];
    ComparatorConsistent(k);
    InsertionSortMeaning(Comparator(k), source);
  }

  /** The products shown on page `currentPage`: `slice(first, last)` with
      `last = currentPage * perPage` and `first = last - perPage`. */
  function PageSlice<T>(results: seq<T>, currentPage: int, perPage: int): seq<T> {
    var last := currentPage * perPage;
    var first := last - perPage;
    Slice(results, first, last)
  }

  function Min(x: int, y: int): int {
    if x <= y then x else y
  }

  /** Page `p`, counted from 1, is the window `[(p-1) * perPage, p * perPage)`
      of the results, cut off at their end: never more than `perPage` items. */
  lemma PageWindow<T>(results: seq<T>, currentPage: int, perPage: int)
    requires currentPage >= 1 && perPage >= 1
    ensures var page := PageSlice(results, currentPage, perPage);
      && |page| <= perPage
      && page == results[Min((currentPage - 1) * perPage, |results|)..Min(currentPage * perPage, |results|)]
  {
    var first := (currentPage - 1) * perPage;
    var last := currentPage * perPage;
    assert last - perPage == first by {
      assert currentPage * perPage == (currentPage - 1) * perPage + perPage;
    }
    assert 0 <= first by {
      assert currentPage - 1 >= 0;
    }
    SliceWindow(results, first, last);
  }

  /** `Math.ceil(n / perPage)`. */
  function TotalPages(n: nat, perPage: int): (r: nat)
    requires perPage > 0
    ensures n == 0 ==> r == 0
    ensures n > 0 ==> (r - 1) * perPage < n <= r * perPage
  {
    if n % perPage == 0 then n / perPage else n / perPage + 1
  }

  /** Pages 1 to `k`, one after the other. */
  function PagesUpTo<T>(results: seq<T>, perPage: int, k: nat): seq<T> {
    if k == 0 then [] else PagesUpTo(results, perPage, k - 1) + PageSlice(results, k, perPage)
  }

  lemma {:induction false} PagesUpToPrefix<T>(results: seq<T>, perPage: int, k: nat)
    requires perPage >= 1
    ensures PagesUpTo(results, perPage, k) == results[..Min(k * perPage, |results|)]
  {
    if k > 0 {
      PagesUpToPrefix(results, perPage, k - 1);
      PageWindow(results, k, perPage);
      var lo := Min((k - 1) * perPage, |results|);
      var hi := Min(k * perPage, |results|);
      assert lo <= hi;
      assert results[..lo] + results[lo..hi] == results[..hi];
    }
  }

  /** Reading pages 1 to `totalPages` in order shows every result once. */
  lemma PagesCoverResults<T>(results: seq<T>, perPage: int)
    requires perPage >= 1
    ensures PagesUpTo(results, perPage, TotalPages(|results|, perPage)) == results
  {
    PagesUpToPrefix(results, perPage, TotalPages(|results|, perPage));
  }

  /** A page after the last one is empty. */
  lemma PagesBeyondEnd<T>(results: seq<T>, perPage: int, currentPage: int)
    requires perPage >= 1
    requires currentPage > TotalPages(|results|, perPage)
    ensures PageSlice(results, currentPage, perPage) == []
  {
    PageWindow(results, currentPage, perPage);
    var tp := TotalPages(|results|, perPage);
    assert |results| <= tp * perPage;
    MulMonotone(tp, currentPage - 1, perPage);
  }

  lemma MulMonotone(a: int, b: int, c: int)
    requires a <= b && c >= 0
    ensures a * c <= b * c
  {
    assert b * c - a * c == (b - a) * c;
  }

  /** `params.get(key) || fallback`: a missing or empty parameter reads as
      `fallback`. */
  function ParamOr(params: map<string, string>, key: string, fallback: string): (r: string)
    ensures key !in params ==> r == fallback
    ensures key in params && params[key] == "" ==> r == fallback
    ensures key in params && params[key] != "" ==> r == params[key]
  {
    if key in params && params[key] != "" then params[key] else fallback
  }

  /** `handleSearch`: the route to the results of the trimmed term, or no
      navigation when the term is blank. */
  function SearchTarget(searchTerm: string): (r: Option<Route>)
    ensures r.None? <==> IsBlank(searchTerm)
    ensures r.Some? ==> r.value == SearchQuery(Trim(searchTerm)) && Trim(searchTerm) != ""
  {
    var term := Trim(searchTerm);
    if term != "" then Some(SearchQuery(term)) else None
  }

  /** `handleCategoryChange`: "all" goes to the plain search page, any other
      category to the search page filtered by it. */
  function CategoryTarget(category: string): (r: Route)
    ensures r == SearchAll <==> category == "all"
    ensures r != SearchAll ==> r == SearchCategory(category)
  {
    if category == "all" then SearchAll else SearchCategory(category)
  }
}
