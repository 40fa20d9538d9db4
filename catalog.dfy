/** The product catalog: a read-only seed list and the four queries over it.
    Every query is a `find` or a `filter` over the catalog, so each keeps the
    catalog's order. The queries take the catalog as a parameter; `Products`
    is the seed the pages use. */
module Catalog {
  import opened Wrappers
  import opened Text
  import opened Seqs

  /** A product record. `price` is the stored integer amount, `rating` is in
      tenths of a star (4.7 is 47), and `images` is the optional gallery that
      no seed product has. */
  datatype Product = Product(
    id: int,
    name: string,
    price: int,
    category: string,
    brand: string,
    image: string,
    description: string,
    features: seq<string>,
    inStock: int,
    rating: int,
    images: Option<seq<string>>)

  /** The seed list, in catalog order. */
  const Products: seq<Product> := [Seed1, Seed2, Seed3, Seed4, Seed5, Seed6, Seed7, Seed8]

  const Seed1: Product := Product(
    id := 1,
    name := "Teclado Mecánico RGB Pro",
    price := 299900,
    category := "mechanical",
    brand := "KeyMaster",
    image := "https://images.unsplash.com/photo-1541140532154-b024d705b90a?w=400",
    description := "Teclado mecánico premium con switches Cherry MX Blue, iluminación RGB personalizable y construcción de aluminio.",
    features := [
      "Switches Cherry MX Blue",
      "Iluminación RGB por tecla",
      "Construcción de aluminio",
      "Keycaps PBT",
      "Cable USB-C desmontable"],
    inStock := 15,
    rating := 48,
    images := None)

  const Seed2: Product := Product(
    id := 2,
    name := "Gaming Keyboard X1",
    price := 199900,
    category := "gaming",
    brand := "GameForce",
    image := "https://images.unsplash.com/photo-1587829741301-dc798b83add3?w=400",
    description := "Teclado gaming con switches mecánicos, anti-ghosting y teclas macro programables.",
    features := [
      "Switches mecánicos gaming",
      "Anti-ghosting completo",
      "Teclas macro programables",
      "Iluminación RGB",
      "Software de personalización"],
    inStock := 8,
    rating := 46,
    images := None)

  const Seed3: Product := Product(
    id := 3,
    name := "Keycaps Artisan Set",
    price := 89900,
    category := "keycaps",
    brand := "ArtKey",
    image := "https://images.unsplash.com/photo-1595044426077-d36d9236d54a?w=400",
    description := "Set de keycaps artesanales con diseño único y alta calidad.",
    features := [
      "Material PBT de alta calidad",
      "Diseño artesanal único",
      "Compatible con Cherry MX",
      "Resistente al desgaste",
      "Perfil OEM"],
    inStock := 25,
    rating := 49,
    images := None)

  const Seed4: Product := Product(
    id := 4,
    name := "Wireless Mechanical Pro",
    price := 349900,
    category := "mechanical",
    brand := "WirelessTech",
    image := "https://images.unsplash.com/photo-1587829741301-dc798b83add3?w=400",
    description := "Teclado mecánico inalámbrico con conectividad dual y batería de larga duración.",
    features := [
      "Conectividad Bluetooth y 2.4GHz",
      "Batería de 2000mAh",
      "Switches hot-swappable",
      "Iluminación RGB",
      "Hasta 100 horas de uso"],
    inStock := 12,
    rating := 47,
    images := None)

  const Seed5: Product := Product(
    id := 5,
    name := "Mouse Pad Premium XXL",
    price := 49900,
    category := "accessories",
    brand := "SurfacePro",
    image := "https://images.unsplash.com/photo-1527864550417-7fd91fc51a46?w=400",
    description := "Mouse pad de tamaño XXL con superficie optimizada para gaming y trabajo.",
    features := [
      "Tamaño XXL (900x400mm)",
      "Superficie micro-texturizada",
      "Base antideslizante",
      "Bordes cosidos",
      "Fácil limpieza"],
    inStock := 30,
    rating := 45,
    images := None)

  const Seed6: Product := Product(
    id := 6,
    name := "Switch Tester Kit",
    price := 39900,
    category := "accessories",
    brand := "SwitchLab",
    image := "https://images.unsplash.com/photo-1595044426077-d36d9236d54a?w=400",
    description := "Kit de prueba con 12 tipos diferentes de switches mecánicos.",
    features := [
      "12 switches diferentes",
      "Incluye Cherry MX, Gateron y Kailh",
      "Base acrílica premium",
      "Guía de características",
      "Perfecto para principiantes"],
    inStock := 20,
    rating := 48,
    images := None)

  const Seed7: Product := Product(
    id := 7,
    name := "Gaming Combo RGB",
    price := 159900,
    category := "gaming",
    brand := "GameForce",
    image := "https://images.unsplash.com/photo-1541140532154-b024d705b90a?w=400",
    description := "Combo gaming con teclado mecánico y mouse RGB sincronizados.",
    features := [
      "Teclado mecánico compacto",
      "Mouse gaming 12000 DPI",
      "RGB sincronizado",
      "Software unificado",
      "Diseño ergonómico"],
    inStock := 18,
    rating := 44,
    images := None)

  const Seed8: Product := Product(
    id := 8,
    name := "Keycaps Retroiluminados",
    price := 69900,
    category := "keycaps",
    brand := "LightKeys",
    image := "https://images.unsplash.com/photo-1595044426077-d36d9236d54a?w=400",
    description := "Set completo de keycaps con leyendas retroiluminadas.",
    features := [
      "Leyendas retroiluminadas",
      "Material ABS de calidad",
      "104 teclas completas",
      "Compatible RGB",
      "Instalación fácil"],
    inStock := 22,
    rating := 46,
    images := None)

  /** The ids of a list of products, in order. */
  function Ids(s: seq<Product>): (r: seq<int>)
    ensures |r| == |s|
    ensures forall i :: 0 <= i < |s| ==> r[i] == s[i].id
  {
    seq(|s|, i requires 0 <= i < |s| => s[i].id)
  }

  ghost predicate UniqueIds(catalog: seq<Product>) {
    forall i, j :: 0 <= i < j < |catalog| ==> catalog[i].id != catalog[j].id
  }

  /** What the pages rely on of a catalog: ids are unique, prices positive,
      stock never negative and ratings between 0 and 5 stars. */
  ghost predicate WellFormed(catalog: seq<Product>) {
    && UniqueIds(catalog)
    && forall i :: 0 <= i < |catalog| ==>
         catalog[i].price > 0 && catalog[i].inStock >= 0 && 0 <= catalog[i].rating <= 50
  }

  lemma SeedWellFormed()
    ensures WellFormed(Products)
    ensures Ids(Products) == [1, 2, 3, 4, 5, 6, 7, 8]
  {
  }

  /** `catalog[i]` is the first product whose id is `id`. */
  ghost predicate FirstWithId(catalog: seq<Product>, id: int, i: int) {
    0 <= i < |catalog| && catalog[i].id == id && forall j :: 0 <= j < i ==> catalog[j].id != id
  }

  /** `getProductById(id)`: the first product whose id is `id`, or nothing. */
  function GetProductById(catalog: seq<Product>, id: int): (r: Option<Product>)
    ensures r.None? <==> forall i :: 0 <= i < |catalog| ==> catalog[i].id != id
    ensures r.Some? ==> exists i :: FirstWithId(catalog, id, i) && catalog[i] == r.value
  {
    if catalog == [] then None
    else if catalog[0].id == id then
      assert FirstWithId(catalog, id, 0);
      Some(catalog[0])
    else
      var r := GetProductById(catalog[1..], id);
      assert r.Some? ==> exists i :: FirstWithId(catalog, id, i) && catalog[i] == r.value by {
        if r.Some? {
          var i :| FirstWithId(catalog[1..], id, i) && catalog[1..][i] == r.value;
          assert FirstWithId(catalog, id, i + 1);
        }
      }
      r
  }

  /** With unique ids every product is found under its own id. */
  lemma LookupFindsEveryProduct(catalog: seq<Product>, i: int)
    requires UniqueIds(catalog)
    requires 0 <= i < |catalog|
    ensures GetProductById(catalog, catalog[i].id) == Some(catalog[i])
  {
  }

  predicate InCategory(category: string, p: Product) {
    p.category == category
  }

  /** `getProductsByCategory(category)`. */
  function GetProductsByCategory(catalog: seq<Product>, category: string): seq<Product> {
    Filter(p => InCategory(category, p), catalog)
  }

  /** The category query returns exactly the products of that category: each
      as often as the catalog holds it, none of another category, in catalog
      order. */
  lemma CategoryQueryExact(catalog: seq<Product>, category: string)
    ensures var r := GetProductsByCategory(catalog, category);
      && (forall p :: p in r <==> p in catalog && p.category == category)
      && (forall p :: multiset(r)[p] == if p.category == category then multiset(catalog)[p] else 0)
      && IsSubsequence(r, catalog)
  {
    FilterCounts(p => InCategory(category, p), catalog);
    FilterIsSubsequence(p => InCategory(category, p), catalog);
  }

  /** The test `searchProducts` applies to one product: the folded query
      occurs in the folded name, description, brand or category. */
  predicate MatchesQuery(p: Product, query: string) {
    var term := Lower(query);
    || Contains(Lower(p.name), term)
    || Contains(Lower(p.description), term)
    || Contains(Lower(p.brand), term)
    || Contains(Lower(p.category), term)
  }

  /** `searchProducts(query)`. */
  function SearchProducts(catalog: seq<Product>, query: string): seq<Product> {
    Filter(p => MatchesQuery(p, query), catalog)
  }

  /** The search returns exactly the matching products: each as often as the
      catalog holds it, no product that does not match, in catalog order. */
  lemma SearchExact(catalog: seq<Product>, query: string)
    ensures var r := SearchProducts(catalog, query);
      && (forall p :: p in r <==> p in catalog && MatchesQuery(p, query))
      && (forall p :: multiset(r)[p] == if MatchesQuery(p, query) then multiset(catalog)[p] else 0)
      && IsSubsequence(r, catalog)
  {
    FilterCounts(p => MatchesQuery(p, query), catalog);
    FilterIsSubsequence(p => MatchesQuery(p, query), catalog);
  }

  /** The empty query occurs in every field, so it returns the whole catalog. */
  lemma SearchEmptyIsCatalog(catalog: seq<Product>)
    ensures SearchProducts(catalog, "") == catalog
  {
    FilterKeepsAll(p => MatchesQuery(p, ""), catalog);
  }

  /** The query is folded before matching, so its case is irrelevant. */
  lemma SearchIgnoresQueryCase(catalog: seq<Product>, query: string)
    ensures SearchProducts(catalog, Lower(query)) == SearchProducts(catalog, query)
  {
    LowerIdempotent(query);
    FilterAgrees(p => MatchesQuery(p, Lower(query)), p => MatchesQuery(p, query), catalog);
  }

  /** The rating threshold of `getFeaturedProducts`, in tenths (4.7). */
  const FeaturedRating := 47

  predicate IsFeatured(p: Product) {
    p.rating >= FeaturedRating
  }

  /** `getFeaturedProducts()`. */
  function GetFeaturedProducts(catalog: seq<Product>): seq<Product> {
    Filter(IsFeatured, catalog)
  }

  /** The featured list holds exactly the products rated 4.7 or more: each as
      often as the catalog holds it, none rated lower, in catalog order. */
  lemma FeaturedExact(catalog: seq<Product>)
    ensures var r := GetFeaturedProducts(catalog);
      && (forall p :: p in r <==> p in catalog && p.rating >= FeaturedRating)
      && (forall p :: multiset(r)[p] == if p.rating >= FeaturedRating then multiset(catalog)[p] else 0)
      && IsSubsequence(r, catalog)
  {
    FilterCounts(IsFeatured, catalog);
    FilterIsSubsequence(IsFeatured, catalog);
  }

  /** The featured products of any eight-product list rated like the seed:
      the first, third, fourth and sixth. */
  lemma FeaturedOfEight(s: seq<Product>)
    requires |s| == 8
    requires IsFeatured(s[0]) && !IsFeatured(s[1]) && IsFeatured(s[2]) && IsFeatured(s[3])
    requires !IsFeatured(s[4]) && IsFeatured(s[5]) && !IsFeatured(s[6]) && !IsFeatured(s[7])
    ensures Filter(IsFeatured, s) == [s[0], s[2], s[3], s[5]]
  {
    assert s[8..] == [];
    FilterTail(IsFeatured, s, 7);
    FilterTail(IsFeatured, s, 6);
    FilterTail(IsFeatured, s, 5);
    FilterTail(IsFeatured, s, 4);
    FilterTail(IsFeatured, s, 3);
    FilterTail(IsFeatured, s, 2);
    FilterTail(IsFeatured, s, 1);
    FilterTail(IsFeatured, s, 0);
    assert s[0..] == s;
  }

  /** The featured products of the seed are those with ids 1, 3, 4 and 6. */
  lemma FeaturedSeed()
    ensures Ids(GetFeaturedProducts(Products)) == [1, 3, 4, 6]
  {
    FeaturedOfEight(Products);
  }
}
