/** The free-text search box and the list it selects. */
module SearchBar {
  import opened Catalog
  import opened JsText
  import opened Sequences

  /** The search box's stored text and the list it stores as `filterProducts`. */
  datatype SearchResult = SearchResult(searchValue: string, filterProducts: seq<Product>)

  /** A product matches lower-cased text when its lower-cased name or category includes it. */
  predicate Matches(p: Product, search: string) {
    Includes(Lower(p.name), search) || Includes(Lower(p.category), search)
  }

  /** `searchProduct(e)`: lower-case the typed text, store it, and keep the matching products. */
  function SearchProduct(products: seq<Product>, typed: string): (r: SearchResult)
    ensures r.searchValue == Lower(typed)
    ensures |r.filterProducts| <= |products|
  {
    var search := Lower(typed);
    SearchResult(search, Filter(products, p => Matches(p, search)))
  }

  /** `clearSearch()`: the text becomes "" and the stored list becomes empty. */
  function ClearSearch(): (r: SearchResult)
    ensures r.searchValue == "" && r.filterProducts == []
  {
    SearchResult("", [])
  }

  /** The independent reading of a match: the text occurs at some position of the name or category. */
  ghost predicate OccursInNameOrCategory(p: Product, search: string) {
    (exists i :: OccursAt(Lower(p.name), search, i)) || (exists i :: OccursAt(Lower(p.category), search, i))
  }

  /**
   * A product is in the result iff the lower-cased text occurs at some
   * position of its lower-cased name or of its lower-cased category.
   */
  lemma SearchKeepsExactlyMatches(products: seq<Product>, typed: string, p: Product)
    ensures p in SearchProduct(products, typed).filterProducts <==>
      (p in products && OccursInNameOrCategory(p, Lower(typed)))
  {
    IncludesIffOccurs(Lower(p.name), Lower(typed));
    IncludesIffOccurs(Lower(p.category), Lower(typed));
  }

  /** Every copy of a matching product is kept, and no copy of any other. */
  lemma SearchKeepsEveryCopy(products: seq<Product>, typed: string, p: Product)
    ensures multiset(SearchProduct(products, typed).filterProducts)[p] ==
      (if Matches(p, Lower(typed)) then multiset(products)[p] else 0)
  {
    var search := Lower(typed);
    FilterCounts(products, q => Matches(q, search), p);
  }

  /** The result keeps the catalog's order: it is a subsequence of the catalog. */
  lemma SearchIsSubsequence(products: seq<Product>, typed: string)
    ensures IsSubsequence(SearchProduct(products, typed).filterProducts, products)
  {
    var search := Lower(typed);
    FilterIsSubsequence(products, q => Matches(q, search));
  }

  /** Empty text matches every product: the result is the whole catalog. */
  lemma EmptySearchMatchesAll(products: seq<Product>)
    ensures SearchProduct(products, "").filterProducts == products
  {
    forall p | p in products ensures Matches(p, Lower("")) {
      EverythingIncludesEmpty(Lower(p.name));
    }
    FilterAllKept(products, p => Matches(p, Lower("")));
  }

  /** The search is case-insensitive: typing the text in lower case changes nothing. */
  lemma SearchIgnoresCase(products: seq<Product>, typed: string)
    ensures SearchProduct(products, Lower(typed)) == SearchProduct(products, typed)
  {
    LowerIdempotent(typed);
  }
}
