/** The redesigned product page: the product named by the route, a
    quantity stepper bounded by the stock of the product shown, add-to-cart
    repeated once per unit, up to four related products and the image gallery. */
module ProductDetail {
  import opened Wrappers
  import opened Seqs
  import opened Catalog
  import opened Effects

  /** `products.find(p => p.id === parseInt(id))`. The route parameter
      arrives parsed; `None` stands for `NaN`, which equals no id. */
  function FindProduct(catalog: seq<Product>, parsedId: Option<int>): (r: Option<Product>)
    ensures r.Some? ==> parsedId.Some? && r.value in catalog && r.value.id == parsedId.value
    ensures r.None? <==> parsedId.None? || forall i :: 0 <= i < |catalog| ==> catalog[i].id != parsedId.value
    ensures parsedId.Some? ==> r == GetProductById(catalog, parsedId.value)
  {
    match parsedId
    case None => None
    case Some(id) =>
      var r := GetProductById(catalog, id);
      assert r.Some? ==> r.value in catalog && r.value.id == id by {
        if r.Some? {
          var i :| FirstWithId(catalog, id, i) && catalog[i] == r.value;
        }
      }
      r
  }

  /** Every seed product is found under its own id. */
  lemma FindsSeedProducts(i: int)
    requires 0 <= i < |Products|
    ensures FindProduct(Products, Some(Products[i].id)) == Some(Products[i])
  {
    SeedWellFormed();
    LookupFindsEveryProduct(Products, i);
  }

  /** Another product of the same category. */
  predicate IsRelated(product: Product, p: Product) {
    p.id != product.id && p.category == product.category
  }

  /** `relatedProducts`: the related products, cut to the first four. */
  function RelatedProducts(catalog: seq<Product>, product: Product): seq<Product> {
    Slice(Filter((p: Product) => IsRelated(product, p), catalog), 0, 4)
  }

  /** At most four products, all of the same category and none the product
      itself, taken in catalog order: the first four related products, or
      all of them when there are fewer. */
  lemma RelatedProductsMeaning(catalog: seq<Product>, product: Product)
    ensures var r := RelatedProducts(catalog, product);
      && |r| <= 4
      && (forall p :: p in r ==> p in catalog && p.category == product.category && p.id != product.id)
      && IsSubsequence(r, catalog)
      && var all := Filter((p: Product) => IsRelated(product, p), catalog);
         r == all[..if |all| < 4 then |all| else 4]
  {
    var all := Filter((p: Product) => IsRelated(product, p), catalog);
    var k := if |all| < 4 then |all| else 4;
    SliceWindow(all, 0, 4);
    assert RelatedProducts(catalog, product) == all[..k];
    FilterIsSubsequence((p: Product) => IsRelated(product, p), catalog);
    FilterCounts((p: Product) => IsRelated(product, p), catalog);
    PrefixIsSubsequence(all, catalog, k);
    forall p | p in all[..k]
      ensures p in all
    {
    }
  }

  /** `[product.image, ...(product.images || [])]`: the main image first,
      then the extra images, if any. */
  function ProductImages(product: Product): (r: seq<string>)
    ensures |r| >= 1 && r[0] == product.image
    ensures product.images.None? ==> r == [product.image]
    ensures product.images.Some? ==> r[1..] == product.images.value
  {
    [product.image] + product.images.GetOr([])
  }

  /** `Math.max(1, quantity - 1)`. */
  function DecrementedQuantity(quantity: int): (r: int)
    ensures r >= 1
    ensures quantity > 1 ==> r == quantity - 1
    ensures quantity <= 1 ==> r == 1
  {
    if 1 >= quantity - 1 then 1 else quantity - 1
  }

  /** `Math.min(product.inStock, quantity + 1)`. */
  function IncrementedQuantity(quantity: int, inStock: int): (r: int)
    ensures r <= inStock
    ensures quantity < inStock ==> r == quantity + 1
    ensures quantity >= inStock ==> r == inStock
  {
    if inStock <= quantity + 1 then inStock else quantity + 1
  }

  /** The increment alone does not keep the quantity positive: for an
      out-of-stock product it would set it to 0. The disabled button is what
      prevents this. */
  lemma IncrementNeedsGuard()
    ensures IncrementedQuantity(1, 0) == 0
  {
  }

  class ProductDetailPage {
    var product: Product
    var selectedImage: int
    var quantity: int

    /** What every handler keeps: a quantity of at least 1 and an image
        index that is not negative. */
    ghost predicate Valid()
      reads this
    {
      1 <= quantity && 0 <= selectedImage
    }

    /** The quantity is within the stock of the product shown (or the initial
        1 of a product out of stock), and the selected image exists. The
        buttons keep this; showing another product need not. */
    ghost predicate FitsProduct()
      reads this
    {
      && (quantity <= product.inStock || quantity == 1)
      && selectedImage < |ProductImages(product)|
    }

    constructor(p: Product)
      ensures product == p && quantity == 1 && selectedImage == 0
      ensures Valid() && FitsProduct()
    {
      product := p;
      selectedImage := 0;
      quantity := 1;
    }

    /** The route parameter changes to another product while the page stays
        mounted: `product` is recomputed, and `quantity` and `selectedImage`,
        being `useState` values, are kept. */
    method ShowProduct(p: Product)
      modifies this`product
      ensures product == p
      ensures quantity == old(quantity) && selectedImage == old(selectedImage)
    {
      product := p;
    }

    /** The minus button, disabled at a quantity of 1 or less. */
    method PressDecrement()
      requires Valid()
      modifies this`quantity
      ensures Valid()
      ensures old(FitsProduct()) ==> FitsProduct()
      ensures old(quantity) <= 1 ==> quantity == old(quantity)
      ensures old(quantity) > 1 ==> quantity == old(quantity) - 1
    {
      if !(quantity <= 1) {
        quantity := DecrementedQuantity(quantity);
      }
    }

    /** The plus button, disabled once the quantity reaches the stock. */
    method PressIncrement()
      requires Valid()
      modifies this`quantity
      ensures Valid()
      ensures old(FitsProduct()) ==> FitsProduct()
      ensures old(quantity) >= product.inStock ==> quantity == old(quantity)
      ensures old(quantity) < product.inStock ==> quantity == old(quantity) + 1
    {
      if !(quantity >= product.inStock) {
        quantity := IncrementedQuantity(quantity, product.inStock);
      }
    }

    /** A click on a thumbnail of the gallery. */
    method SelectImage(index: int)
      requires 0 <= index < |ProductImages(product)|
      modifies this`selectedImage
      ensures selectedImage == index
    {
      selectedImage := index;
    }

    /** `handleAddToCart`: one `addToCart(product)` per unit of `quantity`. */
    method HandleAddToCart() returns (calls: seq<CartCall>)
      ensures quantity >= 0 ==> calls == Repeat(AddToCart(product), quantity)
      ensures quantity < 0 ==> calls == []
    {
      calls := [];
      var i := 0;
      while i < quantity
        invariant quantity >= 0 ==> 0 <= i <= quantity
        invariant quantity < 0 ==> i == 0
        invariant calls == Repeat(AddToCart(product), i)
      {
        calls := calls + [AddToCart(product)];
        i := i + 1;
      }
    }

    /** The add-to-cart button, disabled when the product is out of stock.
        The calls stay within the stock only while the quantity fits the
        product shown. */
    method PressAddToCart() returns (calls: seq<CartCall>)
      requires Valid()
      ensures product.inStock == 0 ==> calls == []
      ensures product.inStock != 0 ==> |calls| == quantity
      ensures FitsProduct() && product.inStock > 0 ==> |calls| <= product.inStock
      ensures forall c :: c in calls ==> c == AddToCart(product)
    {
      if product.inStock == 0 {
        calls := [];
      } else {
        calls := HandleAddToCart();
      }
    }

    /** The image shown large, `productImages[selectedImage]`; `None` stands
        for `undefined`, an index past the gallery of the product shown. */
    function MainImage(): (r: Option<string>)
      reads this
      requires Valid()
      ensures r.Some? <==> selectedImage < |ProductImages(product)|
      ensures r.Some? ==> r.value in ProductImages(product)
      ensures selectedImage == 0 ==> r == Some(product.image)
    {
      var images := ProductImages(product);
      if selectedImage < |images| then Some(images[selectedImage]) else None
    }
  }

  /** Raising the quantity to the stock of `p` and then following a link to
      a product `q` with less stock, the page stays mounted and the button
      adds more units of `q` than `q` has in stock. */
  method OverStockAfterNavigation(p: Product, q: Product) returns (calls: seq<CartCall>)
    requires p.inStock > q.inStock > 0
    ensures |calls| == p.inStock && |calls| > q.inStock
    ensures forall c :: c in calls ==> c == AddToCart(q)
  {
    var page := new ProductDetailPage(p);
    while page.quantity < p.inStock
      invariant page.product == p && page.Valid() && page.quantity <= p.inStock
      decreases p.inStock - page.quantity
    {
      page.PressIncrement();
    }
    page.ShowProduct(q);
    calls := page.PressAddToCart();
  }

  /** On the seed, product 8 is a related product of product 3 (both are
      keycaps) with less stock, so the case above arises: 25 units of
      product 8, which has 22 in stock. */
  lemma SeedOverStockCase()
    ensures Seed3.inStock == 25 && Seed8.inStock == 22
    ensures IsRelated(Seed3, Seed8)
  {
  }
}
