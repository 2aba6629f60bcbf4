/**
 * The shop catalog: the request built from the filter controls, the mapping of backend records
 * to the cards' view records, and the fall-back to the built-in catalog when the backend returns
 * nothing or fails.
 */
module Shop {
  import opened Wrappers
  import Js
  import Seqs

  /** A catalog record as the backend sends it; `subCategory` is "" when absent. */
  datatype BackendItem = BackendItem(
    mongoId: string,
    name: string,
    category: string,
    subCategory: string,
    price: int,
    imageUrls: seq<string>,
    isNewArrival: bool,
    isBestSeller: bool,
    description: Option<string>)

  /** The record a product card shows. */
  datatype Product = Product(
    id: string,
    name: string,
    category: string,
    subCategory: string,
    price: int,
    image: string,
    badge: Option<string>,
    description: Option<string>)

  const Placeholder: string := "https://via.placeholder.com/400x500?text=No+Image"

  /** "New Arrival" wins over "Best Seller"; with neither flag there is no badge. */
  function BadgeFor(isNewArrival: bool, isBestSeller: bool): (b: Option<string>)
    ensures b == Some("New Arrival") <==> isNewArrival
    ensures b == Some("Best Seller") <==> !isNewArrival && isBestSeller
    ensures b == None <==> !isNewArrival && !isBestSeller
  {
    if isNewArrival then Some("New Arrival")
    else if isBestSeller then Some("Best Seller")
    else None
  }

  /** The image shown: the first image's url when it is non-empty, the placeholder otherwise. */
  function ImageFor(imageUrls: seq<string>): (url: string)
    ensures url != ""
    ensures |imageUrls| > 0 && imageUrls[0] != "" ==> url == imageUrls[0]
    ensures (|imageUrls| == 0 || imageUrls[0] == "") ==> url == Placeholder
  {
    if |imageUrls| > 0 && imageUrls[0] != "" then imageUrls[0] else Placeholder
  }

  /** Map one backend record to its view record. */
  function ToProduct(item: BackendItem): (p: Product)
    ensures p.id == item.mongoId && p.name == item.name && p.category == item.category
    ensures p.price == item.price && p.description == item.description
    ensures p.subCategory == item.subCategory || (item.subCategory == "" && p.subCategory == item.category)
    ensures p.subCategory == "" ==> item.subCategory == "" && item.category == ""
    ensures p.image == ImageFor(item.imageUrls)
    ensures p.badge == BadgeFor(item.isNewArrival, item.isBestSeller)
  {
    Product(
      item.mongoId,
      item.name,
      item.category,
      if item.subCategory != "" then item.subCategory else item.category,
      item.price,
      ImageFor(item.imageUrls),
      BadgeFor(item.isNewArrival, item.isBestSeller),
      item.description)
  }

  function ToProducts(items: seq<BackendItem>): (ps: seq<Product>)
    ensures |ps| == |items|
    ensures forall i :: 0 <= i < |items| ==> ps[i] == ToProduct(items[i])
  {
    seq(|items|, i requires 0 <= i < |items| => ToProduct(items[i]))
  }

  /** The query parameters of the catalog request. */
  datatype ProductQuery = ProductQuery(
    limit: int,
    minPrice: int,
    maxPrice: int,
    sort: string,
    category: Option<string>,
    search: Option<string>)

  /** `category` is sent only for a real category, `search` only for a non-empty query. */
  function RequestParams(activeCategory: string, searchQuery: string, minPrice: int, maxPrice: int, sortBy: string): (q: ProductQuery)
    ensures q.limit == 50 && q.minPrice == minPrice && q.maxPrice == maxPrice && q.sort == sortBy
    ensures q.category.Some? <==> activeCategory != "All"
    ensures q.category.Some? ==> q.category.value == activeCategory
    ensures q.search.Some? <==> searchQuery != ""
    ensures q.search.Some? ==> q.search.value == searchQuery
  {
    ProductQuery(
      50, minPrice, maxPrice, sortBy,
      if activeCategory != "All" then Some(activeCategory) else None,
      if searchQuery != "" then Some(searchQuery) else None)
  }

  /** The built-in catalog, shown before the first response and used as the fall-back. */
  const Hardcoded: seq<Product> := [
    Product("101", "Royal Silk Sherwani", "Men", "Sherwani", 15999,
      "https://images.unsplash.com/photo-1594938298603-c8148c4dae35?w=400", Some("Best Seller"), None),
    Product("102", "Banarasi Silk Saree", "Women", "Saree", 8999,
      "https://images.unsplash.com/photo-1610030469668-bd4ec3c4e2e7?w=400", Some("New Arrival"), None),
    Product("103", "Kids Party Suit", "Kids", "Suit", 2499,
      "https://images.unsplash.com/photo-1518831959646-742c3a14ebf7?w=400", None, None),
    Product("104", "Cotton Casual Shirt", "Men", "Shirt", 1299,
      "https://images.unsplash.com/photo-1596755094514-f87e34085b2c?w=400", None, None),
    Product("105", "Anarkali Kurti", "Women", "Kurti", 3499,
      "https://images.unsplash.com/photo-1583391733956-3750e0ff4e8b?w=400", None, None)
  ]

  /** "All" matches every product; any other category matches its own products. */
  function InCategory(activeCategory: string): Product -> bool {
    (p: Product) => activeCategory == "All" || p.category == activeCategory
  }

  /** The product's lower-cased name contains the lower-cased query. */
  function NameMatches(query: string): Product -> bool {
    (p: Product) => Js.Includes(Js.ToLower(p.name), Js.ToLower(query))
  }

  function InCategoryAndNameMatches(activeCategory: string, query: string): Product -> bool {
    (p: Product) => InCategory(activeCategory)(p) && NameMatches(query)(p)
  }

  /**
   * The fall-back when the backend answers with no products: the built-in `catalog` filtered by
   * category and name.
   */
  function EmptyResultFallback(catalog: seq<Product>, activeCategory: string, query: string): (ps: seq<Product>)
    ensures |ps| <= |catalog|
    ensures forall i :: 0 <= i < |ps| ==> InCategory(activeCategory)(ps[i]) && NameMatches(query)(ps[i])
  {
    Seqs.Filter(catalog, InCategoryAndNameMatches(activeCategory, query))
  }

  /** The fall-back when the request fails: the built-in `catalog` filtered by category only. */
  function ErrorFallback(catalog: seq<Product>, activeCategory: string): (ps: seq<Product>)
    ensures |ps| <= |catalog|
    ensures forall i :: 0 <= i < |ps| ==> InCategory(activeCategory)(ps[i])
  {
    Seqs.Filter(catalog, InCategory(activeCategory))
  }

  /** The empty-result fall-back is the error fall-back narrowed by name, order kept. */
  lemma EmptyResultNarrowsError(catalog: seq<Product>, activeCategory: string, query: string)
    ensures EmptyResultFallback(catalog, activeCategory, query)
         == Seqs.Filter(ErrorFallback(catalog, activeCategory), NameMatches(query))
  {
    Seqs.FilterFilter(catalog, InCategory(activeCategory), NameMatches(query), InCategoryAndNameMatches(activeCategory, query));
  }

  /** With an empty query the two fall-backs agree. */
  lemma EmptyQueryFallbacksAgree(catalog: seq<Product>, activeCategory: string)
    ensures EmptyResultFallback(catalog, activeCategory, "") == ErrorFallback(catalog, activeCategory)
  {
    EmptyResultNarrowsError(catalog, activeCategory, "");
    var e := ErrorFallback(catalog, activeCategory);
    forall i | 0 <= i < |e|
      ensures NameMatches("")(e[i])
    {
      Js.IncludesEmpty(Js.ToLower(e[i].name));
    }
    Seqs.FilterKeepsAll(e, NameMatches(""));
  }

  /** Under "All" a failed request shows the whole built-in catalog. */
  lemma AllCategoriesErrorShowsEverything(catalog: seq<Product>)
    ensures ErrorFallback(catalog, "All") == catalog
  {
    Seqs.FilterKeepsAll(catalog, InCategory("All"));
  }

  /** A failed request under "Men" shows the two men's items of the built-in catalog, in order. */
  lemma MenErrorFallback()
    ensures ErrorFallback(Hardcoded, "Men") == [Hardcoded[0], Hardcoded[3]]
  {
    var f := InCategory("Men");
    assert Hardcoded == [Hardcoded[0]] + Hardcoded[1..];
    assert Seqs.Filter(Hardcoded[4..], f) == [];
    assert Seqs.Filter(Hardcoded[3..], f) == [Hardcoded[3]];
    assert Seqs.Filter(Hardcoded[1..], f) == [Hardcoded[3]];
  }

  /** The outcome of the catalog request. */
  datatype FetchOutcome =
    | Answered(success: bool, items: seq<BackendItem>)
    | Failed

  /** The products shown after a fetch, with `catalog` as the built-in fall-back. */
  function ProductsAfterFetch(outcome: FetchOutcome, catalog: seq<Product>, activeCategory: string, query: string): (ps: seq<Product>)
    ensures outcome.Answered? && outcome.success && |outcome.items| > 0 ==> ps == ToProducts(outcome.items)
    ensures outcome.Answered? && !(outcome.success && |outcome.items| > 0) ==> ps == EmptyResultFallback(catalog, activeCategory, query)
    ensures outcome.Failed? ==> ps == ErrorFallback(catalog, activeCategory)
  {
    match outcome
    case Answered(success, items) =>
      if success && |items| > 0 then ToProducts(items) else EmptyResultFallback(catalog, activeCategory, query)
    case Failed => ErrorFallback(catalog, activeCategory)
  }

  class ShopPage {
    /** The built-in catalog the page shows first and falls back on. */
    const catalog: seq<Product>
    var products: seq<Product>
    var isLoading: bool
    var activeCategory: string
    var searchQuery: string
    var minPrice: int
    var maxPrice: int
    var sortBy: string
    var selectedProduct: Option<Product>
    var isDrawerOpen: bool

    constructor()
      ensures catalog == Hardcoded && products == Hardcoded && isLoading
      ensures activeCategory == "All" && searchQuery == "" && minPrice == 0 && maxPrice == 50000
      ensures sortBy == "newest" && selectedProduct == None && !isDrawerOpen
    {
      catalog := Hardcoded;
      products, isLoading := Hardcoded, true;
      activeCategory, searchQuery, minPrice, maxPrice, sortBy := "All", "", 0, 50000, "newest";
      selectedProduct, isDrawerOpen := None, false;
    }

    /** The request the filter controls currently produce. */
    function Request(): ProductQuery
      reads this
    {
      RequestParams(activeCategory, searchQuery, minPrice, maxPrice, sortBy)
    }

    /** The fetch effect once the request has settled. */
    method ApplyFetch(outcome: FetchOutcome)
      modifies this
      ensures products == ProductsAfterFetch(outcome, catalog, activeCategory, searchQuery)
      ensures !isLoading
      ensures activeCategory == old(activeCategory) && searchQuery == old(searchQuery)
      ensures minPrice == old(minPrice) && maxPrice == old(maxPrice) && sortBy == old(sortBy)
      ensures selectedProduct == old(selectedProduct) && isDrawerOpen == old(isDrawerOpen)
    {
      isLoading := true;
      match outcome {
        case Answered(success, items) =>
          if success && |items| > 0 {
            products := ToProducts(items);
          } else {
            products := EmptyResultFallback(catalog, activeCategory, searchQuery);
          }
        case Failed =>
          products := ErrorFallback(catalog, activeCategory);
      }
      isLoading := false;
    }

    /** Clicking a card selects it and opens the drawer. */
    method HandleProductClick(p: Product)
      modifies this
      ensures selectedProduct == Some(p) && isDrawerOpen
      ensures products == old(products) && activeCategory == old(activeCategory) && searchQuery == old(searchQuery)
    {
      selectedProduct := Some(p);
      isDrawerOpen := true;
    }
  }
}
