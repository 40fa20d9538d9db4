# Keyboard storefront: catalog, search, checkout and product page

This project models the logic of a small React storefront for keyboards in
Dafny and proves properties of it. It covers:

- the product catalog, which is a read-only seed list with four queries (lookup by id, filter by category,
  case-insensitive search, featured products);
- the two search pages, in which a search term, a category and a sort key pick, order and paginate the
  results; the redesigned page adds a price filter, category chips and toggle chips;
- the routed checkout wizard, which walks through three steps, each guarded by its own validity check;
- the redesigned checkout form, with its required-field validator, error map and processing flag;
- the redesigned product page, with its quantity stepper, repeated add-to-cart, related products and
  image gallery.

## How the model is built

- **Modules.** Each page is one module and one class. Its fields are the page's `useState` variables and the values derived from the route.
  Its methods are the page's handlers, and each method changes only the fields its handler sets.
- **Buttons.** A button with a `disabled` attribute has its own `Press…` method. That method does nothing
  while the button is disabled, and otherwise calls the handler.
- **Effects.** The `useEffect` hooks are methods the caller invokes: `OnLocationChange` for the URL effect
  and `RefreshResults` for the results effect. React decides when these run; the model leaves that order to
  the caller.
- **The cart.** The cart context is not part of this model. A handler returns the calls it makes into the
  cart as a list of `CartCall` values (`AddToCart(p)`, `ClearCart`). Where a page depends on the cart being
  empty, that fact is an input.
- **Navigation.** Calls to `navigate` become a returned `Route`.
- **Catalog values.** Seed ratings are stored in tenths (4.7 is 47). The queries take the catalog as a
  parameter; the pages apply them to the seed `Catalog.Products`.
- **Results sort.** `Array.prototype.sort` must be stable, so `results.sort(comparator)` has one
  result for a consistent comparator. The model sorts in place with an insertion sort on an array,
  `Seqs.SortInPlace`, proved to leave the array equal to the reference `Seqs.InsertionSort`. About that
  function it is proved that it orders by the comparator, keeps every element as often as it occurs,
  and keeps equally ranked elements in their input order.
- **Checkout-new validation.** The eleven `if (!formData.x)` checks of `validateForm` are a loop over the
  required fields in source order. Every check has the same form, so the loop performs the same updates.

Two behaviours of the code are worth knowing:

- Toggling a filter chip twice restores its contents but not always its order. The first click on a
  chip that is already on removes it, and the second click appends it at the end.
  `SearchNew.ToggleTwiceOnce` proves the contents are restored, and `SearchNew.ToggleTwiceReorders`
  exhibits the change of order.
- Once the redesigned product page is mounted at `/product/:id`, a related-product link changes the
  route parameter without remounting it, so the page keeps its `quantity`. The quantity can then exceed
  the new product's stock, and "Add to Cart" makes more `addToCart` calls than that product has in
  stock. `ProductDetail.OverStockAfterNavigation` shows this, and `ProductDetail.SeedOverStockCase`
  names a seed instance: 25 calls for product 8, which has 22 in stock. The cart context is not part
  of this model, so what those calls do to the cart is not stated. The application's router
  (src/App.js) mounts the older src/pages/ProductDetail.js at that route, not this page.

## Model

| member | source | states |
|---|---|---|
| `Catalog.SeedWellFormed` | src/data/products.js:1-146 | the seed has unique ids 1 to 8, positive prices, non-negative stock and ratings between 0 and 5 stars |
| `Catalog.GetProductById` | src/data/products.js:148-150 | absent exactly when no product has the id; otherwise the first product with that id |
| `Catalog.LookupFindsEveryProduct` | src/data/products.js:148-150 | in a catalog with unique ids, looking up a product's id returns that product |
| `Catalog.CategoryQueryExact` | src/data/products.js:152-154 | the category query returns exactly the products of that category, each as often as in the catalog, in catalog order |
| `Catalog.SearchExact` | src/data/products.js:156-164 | search returns exactly the products whose lower-cased name, description, brand or category contains the lower-cased query, in catalog order |
| `Catalog.SearchEmptyIsCatalog` | src/data/products.js:157-163 | searching for the empty string returns the whole catalog |
| `Catalog.SearchIgnoresQueryCase` | src/data/products.js:156-157 | a query and its lower-cased form give the same results |
| `Catalog.FeaturedExact` | src/data/products.js:166-168 | featured products are exactly those rated 4.7 or more, in catalog order |
| `Catalog.FeaturedOfEight` | src/data/products.js:166-168 | in any eight-product list rated like the seed, exactly the first, third, fourth and sixth products are featured, in that order |
| `Catalog.FeaturedSeed` | src/data/products.js:166-168 | the seed's featured products are ids 1, 3, 4 and 6, in that order |
| `Text.Lower` | src/data/products.js:157-162 | `toLowerCase` maps each letter A-Z to its lower-case form and keeps every other character |
| `Text.LowerIdempotent` | src/data/products.js:157-162 | lower-casing twice is the same as lower-casing once |
| `Text.ContainsIff` | src/data/products.js:159-162 | `includes` holds exactly when some window of the text equals the needle |
| `Text.ContainsEmpty` | src/data/products.js:159-162 | every text includes the empty string |
| `Text.LeadingSpaces` | src/pages/Search.js:79 | the length of the white-space run at the start of a string: every character in it is white space and the one after it is not |
| `Text.TrailingSpaces` | src/pages/Search.js:79 | the length of the white-space run at the end of a string: every character in it is white space and the one before it is not |
| `Text.Trim` | src/pages/Search.js:79 | `trim` is the window of the input with only white space before and after it, and no white space at its own ends; it is empty exactly for a blank string |
| `Text.TrimUnique` | src/pages/Search.js:79 | any window with blank text on both sides and non-space ends is the trimmed string, so the properties of `Trim` determine it |
| `Text.NameLeqTotal` | src/pages/Search.js:70 | any two names are ordered one way or the other |
| `Text.NameLeqTransitive` | src/pages/Search.js:70 | the name order is transitive |
| `Text.NameLeqAntisymmetric` | src/pages/Search.js:70 | two names ordered both ways are equal |
| `Seqs.Filter` | src/data/products.js:153 | `filter` is never longer than its input; `Seqs.FilterCounts` and `Seqs.FilterIsSubsequence` state what it keeps |
| `Seqs.FilterCounts` | src/data/products.js:153 | `filter` keeps every occurrence of a passing element and drops every failing one, so its result holds exactly the passing elements |
| `Seqs.FilterIsSubsequence` | src/data/products.js:153 | `filter` keeps the input order |
| `Seqs.FilterKeepsAll` | src/data/products.js:157-163 | a filter that every element passes returns its input |
| `Seqs.FilterAgrees` | src/data/products.js:156-163 | two tests that agree on the elements give the same filter |
| `Seqs.FilterAppend` | src/pages/Search-new.js:88-90 | filtering a list with one element appended gives the filtered list plus that element if it passes |
| `Seqs.PrefixIsSubsequence` | src/pages/ProductDetail-new.js:47-49 | a prefix of an order-keeping selection also keeps the order |
| `Seqs.SliceIndex` | src/pages/Search.js:104 | a `slice` index counts back from the end when negative and is clamped to the length |
| `Seqs.Slice` | src/pages/Search.js:104 | `slice(start, end)` holds the elements between the two resolved indices, and nothing when they cross |
| `Seqs.SliceWindow` | src/pages/Search-new.js:104 | with non-negative bounds, `slice` is the window cut off at the end, and no longer than `end - start` |
| `Seqs.InsertCounts` | src/pages/Search.js:60-72 | one insertion adds the new element and drops nothing |
| `Seqs.InsertKeepsOrdered` | src/pages/Search.js:60-72 | with a consistent comparator, inserting into an ordered list gives an ordered list |
| `Seqs.InsertStable` | src/pages/Search.js:60-72 | an insertion keeps the elements that tie with any `c` in their order, and puts the new element after them when it ties too |
| `Seqs.InsertionSortOrdered` | src/pages/Search.js:60-72 | with a consistent comparator, the sorted list is ordered by it |
| `Seqs.InsertionSortCounts` | src/pages/Search.js:60-72 | the sorted list holds every element as often as the input |
| `Seqs.InsertionSortStable` | src/pages/Search.js:60-72 | the elements that tie with any `c` come out in their input order: the sort is stable |
| `Seqs.InsertionSortMeaning` | src/pages/Search.js:60-72 | with a consistent comparator, the sort orders the list, keeps its elements with their counts, and is stable |
| `Seqs.SortInPlace` | src/pages/Search.js:60-72 | the sort in place leaves the array equal to `InsertionSort` of its old contents, holding the same elements |
| `Seqs.InsertAt` | src/pages/Search.js:60-72 | one pass inserts the next element into the sorted prefix by swaps, leaving the rest of the array as it was |
| `Seqs.Repeat` | src/pages/ProductDetail-new.js:34-36 | `n` copies of one value |
| `SearchResults.SourceExact` | src/pages/Search.js:51-57 | a non-empty term selects the search results, otherwise a category other than "all" selects that category, otherwise the whole catalog; always as an order-keeping selection of the catalog |
| `SearchResults.ParseSortKey` | src/pages/Search.js:61-71 | "price-low", "price-high" and "rating" select their orders; every other value sorts by name |
| `SearchResults.BeforeTotal` | src/pages/Search.js:60-72 | for every key, the comparator orders any two products one way or the other |
| `SearchResults.BeforeTransitive` | src/pages/Search.js:60-72 | for every key, the comparator is transitive |
| `SearchResults.ComparatorConsistent` | src/pages/Search.js:60-72 | each key's comparator is total and transitive, so the sort's properties hold for it |
| `SearchResults.SortedMeaning` | src/pages/Search-new.js:52-64 | sorted by price-low means prices non-decreasing; price-high, prices non-increasing; rating, ratings non-increasing; name, names in order |
| `SearchResults.SortedResults` | src/pages/Search.js:49-74 | the sorted results are the insertion sort of the source by the key's comparator: the same products, ordered by the key, equally ranked products in source order |
| `SearchResults.PageWindow` | src/pages/Search.js:101-104 | page `p`, counted from 1, is the window `[(p-1)·n, p·n)` of the results, cut off at their end, with at most `n` items |
| `SearchResults.TotalPages` | src/pages/Search.js:105 | the page count is ceil(n / perPage): zero for no results, otherwise the least count whose pages hold them all |
| `SearchResults.PagesUpToPrefix` | src/pages/Search-new.js:102-104 | pages 1 to `k` in order are the first `k·perPage` results |
| `SearchResults.PagesCoverResults` | src/pages/Search-new.js:102-105 | reading every page in order gives back the full result list |
| `SearchResults.PagesBeyondEnd` | src/pages/Search.js:101-105 | a page after the last one is empty |
| `SearchResults.ParamOr` | src/pages/Search.js:40-41 | a missing or empty URL parameter reads as the default |
| `SearchResults.SearchTarget` | src/pages/Search.js:77-82 | the search form navigates, to the trimmed term, exactly when the term is not blank |
| `SearchResults.CategoryTarget` | src/pages/Search.js:84-91 | "all" leads to the plain search page and any other category to the search page filtered by it |
| `Search.SearchPage.constructor` | src/pages/Search.js:31-35 | empty term, category "all", sort by name, no results, page 1 |
| `Search.SearchPage.OnLocationChange` | src/pages/Search.js:38-46 | the URL effect sets the term from `q` (default ""), the category from `category` (default "all"), and page 1 |
| `Search.SearchPage.RefreshResults` | src/pages/Search.js:48-75 | the displayed results are the selected source, unfiltered, sorted by the chosen key: ordered by it, the same products, equally ranked products in source order |
| `Search.SearchPage.SetSearchTerm` | src/pages/Search.js:130 | typing sets the term |
| `Search.SearchPage.SetSortBy` | src/pages/Search.js:162 | the selector sets the sort key |
| `Search.SearchPage.SetCurrentPage` | src/pages/Search.js:248 | the pagination control sets the page |
| `Search.SearchPage.HandleSearch` | src/pages/Search.js:77-82 | no navigation for a blank term; otherwise to the results of the trimmed term |
| `Search.SearchPage.HandleCategoryChange` | src/pages/Search.js:84-91 | selects the category and navigates to its search page |
| `Search.SearchPage.PressAddToCart` | src/pages/Search.js:231-232 | one add-to-cart call, or none for a product out of stock |
| `Search.SearchPage.CurrentProducts` | src/pages/Search.js:101-104 | the current page shows at most 6 results, those of the window `[(p-1)·6, p·6)` |
| `Search.SearchPage.PageCount` | src/pages/Search.js:105 | ceil(results / 6) |
| `SearchNew.InPriceRangeIff` | src/pages/Search-new.js:46-49 | `lo <= price / 1000 <= hi` holds exactly when `1000·lo <= price <= 1000·hi` |
| `SearchNew.PriceFilteredExact` | src/pages/Search-new.js:37-49 | before sorting, the results are exactly the catalog products that pass the source test and the price bounds, each as often as in the catalog, and in catalog order |
| `SearchNew.InitialRangeKeepsSeed` | src/pages/Search-new.js:16 | the initial range of 0 to 500 dollars keeps the whole seed |
| `SearchNew.Toggled` | src/pages/Search-new.js:88-90 | a chip that is on is removed with every copy; a chip that is off is appended; no other chip changes |
| `SearchNew.ToggleFilter` | src/pages/Search-new.js:85-92 | the clicked chip's state flips in its own list; the other chips and the other two lists are unchanged |
| `SearchNew.ToggleTwiceAbsent` | src/pages/Search-new.js:85-92 | two clicks on a chip that was off give back the same list |
| `SearchNew.ToggleTwiceOnce` | src/pages/Search-new.js:85-92 | two clicks on a chip that was on once give back the same chips |
| `SearchNew.ToggleTwiceReorders` | src/pages/Search-new.js:88-90 | two clicks on a chip that was on and not last move it to the end |
| `SearchNew.ToggleCommutes` | src/pages/Search-new.js:86-87 | clicks in different lists do not interfere |
| `SearchNew.ChipCategory` | src/pages/Search-new.js:164-171 | of the chip labels the page renders, Keyboards and DIY Kits select "mechanical", Switches and Accessories "accessories", Keycaps "keycaps"; a label the map does not name selects "all" |
| `SearchNew.SearchPage.constructor` | src/pages/Search-new.js:11-21 | empty term, category "all", name order, page 1, price range 0 to 500, no chips on |
| `SearchNew.SearchPage.OnLocationChange` | src/pages/Search-new.js:24-32 | the URL effect sets the term from `q` (default ""), the category from `category` (default "all"), and page 1 |
| `SearchNew.SearchPage.RefreshResults` | src/pages/Search-new.js:34-67 | the displayed results are the price-filtered source sorted by the key: ordered by it, the same products, equally ranked products in source order; the toggle chips do not take part |
| `SearchNew.SearchPage.SetSearchTerm` | src/pages/Search-new.js:148 | typing sets the term |
| `SearchNew.SearchPage.SetSortBy` | src/pages/Search-new.js:220 | the selector sets the sort key |
| `SearchNew.SearchPage.SetCurrentPage` | src/pages/Search-new.js:302 | a page button sets the page |
| `SearchNew.SearchPage.SetPriceMin` | src/pages/Search-new.js:191 | the slider sets the lower price bound only |
| `SearchNew.SearchPage.HandleSearch` | src/pages/Search-new.js:69-74 | no navigation for a blank term; otherwise to the results of the trimmed term |
| `SearchNew.SearchPage.HandleCategoryChange` | src/pages/Search-new.js:76-83 | selects the category and navigates to its search page |
| `SearchNew.SearchPage.PressCategoryChip` | src/pages/Search-new.js:163-173 | a main-row chip selects its mapped category, and an unmapped label leads to the plain search page |
| `SearchNew.SearchPage.HandleFilterToggle` | src/pages/Search-new.js:85-92 | the filter record becomes the toggled one |
| `SearchNew.SearchPage.PressAddToCart` | src/pages/Search-new.js:281-282 | one add-to-cart call, or none for a product out of stock |
| `SearchNew.SearchPage.CurrentProducts` | src/pages/Search-new.js:102-104 | the current page shows at most 9 results, those of the window `[(p-1)·9, p·9)` |
| `SearchNew.SearchPage.PageCount` | src/pages/Search-new.js:105 | ceil(results / 9) |
| `Checkout.FilledIff` | src/pages/Checkout.js:96 | `value.trim() !== ''` holds exactly for a value that is not blank |
| `Checkout.AllFilledIff` | src/pages/Checkout.js:96 | `every` over the values holds exactly when none is blank |
| `Checkout.ShippingStepMeaning` | src/pages/Checkout.js:95-96 | step 0 is valid exactly when none of the eight shipping fields is blank |
| `Checkout.PaymentStepMeaning` | src/pages/Checkout.js:97-99 | step 1 is valid exactly when the method is cash or none of the four card fields is blank |
| `Checkout.OtherStepsMeaning` | src/pages/Checkout.js:100-103 | step 2 is always valid and no step outside 0 to 2 is |
| `Checkout.CheckoutWizard.constructor` | src/pages/Checkout.js:38-59 | step 0, order not complete, empty forms, credit card as the method |
| `Checkout.CheckoutWizard.HandleCompleteOrder` | src/pages/Checkout.js:82-86 | the order is complete and the cart is told to clear |
| `Checkout.CheckoutWizard.HandleNext` | src/pages/Checkout.js:69-76 | on the last step the order completes and the step stays; on any other step, one step on |
| `Checkout.CheckoutWizard.HandleBack` | src/pages/Checkout.js:78-80 | one step back |
| `Checkout.CheckoutWizard.HandleCloseDialog` | src/pages/Checkout.js:88-91 | the order is no longer complete and the page goes home |
| `Checkout.CheckoutWizard.PressNext` | src/pages/Checkout.js:393-398 | nothing while the step is invalid; otherwise one step on, or completion from the last step; the step stays within 0 to 2 |
| `Checkout.CheckoutWizard.PressBack` | src/pages/Checkout.js:387-390 | nothing on step 0, otherwise one step back; the step stays within 0 to 2 |
| `Checkout.CheckoutWizard.SetShippingInfo` | src/pages/Checkout.js:128 | an input sets the shipping record |
| `Checkout.CheckoutWizard.SetPaymentMethod` | src/pages/Checkout.js:210 | the radio group sets the payment method |
| `Checkout.CheckoutWizard.SetPaymentInfo` | src/pages/Checkout.js:234 | an input sets the card record |
| `Checkout.CheckoutWizard.View` | src/pages/Checkout.js:107-118 | the empty-cart warning shows exactly when the cart is empty and no order was just completed |
| `CheckoutNew.OptionalFieldsNeverChecked` | src/pages/Checkout-new.js:53-63 | country, the two checkboxes and the shipping method are not among the eleven checked fields |
| `CheckoutNew.WhiteSpaceCountsAsFilled` | src/pages/Checkout-new.js:54 | a field holding only a space passes here, although the wizard's trimmed check rejects it |
| `CheckoutNew.CheckoutForm.constructor` | src/pages/Checkout-new.js:9-35 | the initial form, no errors, not processing |
| `CheckoutNew.ErrorsStep` | src/pages/Checkout-new.js:53-63 | one required-field check adds that field's message exactly when the field is falsy and keeps the other entries' meaning |
| `CheckoutNew.ErrorsComplete` | src/pages/Checkout-new.js:52-67 | after all required fields are checked, the error map lists exactly the falsy required fields with their messages, and it is empty exactly when every required field is filled |
| `CheckoutNew.CheckoutForm.ValidateForm` | src/pages/Checkout-new.js:50-67 | the error map has an entry, with its message, exactly for each falsy required field; the result is true exactly when all required fields are filled |
| `CheckoutNew.CheckoutForm.HandleInputChange` | src/pages/Checkout-new.js:37-48 | only the named field changes, to the checkbox state or the text; only that field's error is blanked, and only if it was set |
| `CheckoutNew.CheckoutForm.HandleSubmit` | src/pages/Checkout-new.js:69-76 | validation, then processing starts exactly when the form is complete |
| `CheckoutNew.CheckoutForm.PressSubmit` | src/pages/Checkout-new.js:409-411 | nothing while processing; otherwise the submit handler |
| `CheckoutNew.CheckoutForm.PaymentCompletes` | src/pages/Checkout-new.js:79-88 | the cart is told to clear, processing stops and the confirmation page follows |
| `CheckoutNew.CheckoutForm.View` | src/pages/Checkout-new.js:99-114 | an empty cart shows the no-items notice instead of the form |
| `ProductDetail.FindProduct` | src/pages/ProductDetail-new.js:11 | a found product is in the catalog with the parsed id, and it is the catalog lookup's answer for that id; none is found for an unparsable id or one no product has |
| `ProductDetail.FindsSeedProducts` | src/pages/ProductDetail-new.js:11 | every seed product is found under its own id |
| `ProductDetail.RelatedProductsMeaning` | src/pages/ProductDetail-new.js:47-49 | at most four products of the same category other than this one, in catalog order: the first four such, or all of them |
| `ProductDetail.ProductImages` | src/pages/ProductDetail-new.js:51 | the main image first, then the gallery images if there are any |
| `ProductDetail.DecrementedQuantity` | src/pages/ProductDetail-new.js:175 | one less, but never below 1 |
| `ProductDetail.IncrementedQuantity` | src/pages/ProductDetail-new.js:183 | one more, but never above the stock |
| `ProductDetail.IncrementNeedsGuard` | src/pages/ProductDetail-new.js:183-185 | without the disabled guard the increment would set the quantity to 0 for a product out of stock |
| `ProductDetail.ProductDetailPage.constructor` | src/pages/ProductDetail-new.js:11-13 | the first image and a quantity of 1, which fit the product shown |
| `ProductDetail.ProductDetailPage.ShowProduct` | src/pages/ProductDetail-new.js:7-13 | a new route parameter changes the product shown and keeps the quantity and the selected image |
| `ProductDetail.ProductDetailPage.PressDecrement` | src/pages/ProductDetail-new.js:174-177 | nothing at 1; otherwise one less; the quantity stays at least 1, and within the stock if it was |
| `ProductDetail.ProductDetailPage.PressIncrement` | src/pages/ProductDetail-new.js:182-185 | nothing at the stock; otherwise one more; the quantity stays at least 1, and within the stock if it was |
| `ProductDetail.ProductDetailPage.SelectImage` | src/pages/ProductDetail-new.js:95 | a thumbnail selects its image |
| `ProductDetail.ProductDetailPage.HandleAddToCart` | src/pages/ProductDetail-new.js:33-37 | exactly `quantity` calls adding this product, none for a quantity below 1 |
| `ProductDetail.ProductDetailPage.PressAddToCart` | src/pages/ProductDetail-new.js:195-197 | no call for a product out of stock; otherwise `quantity` calls, all adding the product shown, and no more than its stock while the quantity fits it |
| `ProductDetail.ProductDetailPage.MainImage` | src/pages/ProductDetail-new.js:84 | the large image is one of the product's images, the main one at first; an index past the gallery gives `undefined` |
| `ProductDetail.OverStockAfterNavigation` | src/pages/ProductDetail-new.js:182-197 | raising the quantity to one product's stock and then showing a product with less stock makes "Add to Cart" make more `addToCart` calls than the shown product has in stock, every call naming that product |
| `ProductDetail.SeedOverStockCase` | src/pages/ProductDetail-new.js:47-49 | product 8 is related to product 3 and has less stock (22 against 25) |

## Left out

- The cart context (`src/context/CartContext`) is outside this model. Only the calls made into it are
  recorded, and the model gives them no meaning. Whether the cart is empty is an input
  of the two checkout views.
- Rendering is not modelled. This covers JSX, styling, the hover zoom (`isZoomed`), `formatPrice` with
  `Intl.NumberFormat`, and the text of messages and labels other than the validation messages.
- Navigation buttons other than those of the handlers above are left out: breadcrumbs, "View Details",
  related products, "Go back home" and "Continue Shopping". They only call `navigate`.
- The React runtime is not modelled: render scheduling, the batching of state updates, and when effects
  run. The caller invokes `OnLocationChange` and `RefreshResults`, and `ShowProduct` for a new product
  page parameter. A parameter that finds no product shows the not-found view, which is not modelled.
- The router, `URLSearchParams` and `encodeURIComponent` are library code. The query string arrives as a
  map holding each key's first value. A route carries the trimmed term before URL encoding.
- `Catalog.GetProductById`, `ProductDetail.FindProduct`: `parseInt(id)` is library code and is not
  modelled. `GetProductById` takes the parsed integer, and `FindProduct` takes it as an option with `None`
  for `NaN`. So the model does not say that `"3x"` finds product 3 or that `"x"` finds nothing.
- `SearchNew.ChipCategory`: `categoryMap` is an object literal, so a label such as `"constructor"`
  would read an inherited property instead of falling back to "all". The model treats the map as a
  plain lookup. The page only ever passes the five rendered chip labels, where the two agree.
- `localeCompare` is locale-sensitive. The model uses lexicographic order on code points.
- `Text.Lower`: `toLowerCase` folds every Unicode letter. The model's `Text.Lower` folds only A-Z, so a query such as "Á"
  is not matched case-insensitively.
- Floating point is not modelled. `price / 1000` is computed over the reals. Star ratings are whole tenths,
  so `b.rating - a.rating` keeps its sign. The tax `getCartTotal() * 1.08` is left out.
- The payment timer is not modelled: `setTimeout`, the random order number and the order total passed to
  the confirmation page. `PaymentCompletes` is the timer's callback, invoked by the caller.
- The other pages are not part of this model: the home pages, the cart pages, the older product page,
  the order confirmation page, and the layout components.
- The insertion sort stands for the engine's sort algorithm. A stable sort has one result for a
  consistent comparator, so the algorithm does not change the results.
