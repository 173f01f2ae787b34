/**
 * The home page: which list the product grid renders, and the gates on the
 * create-product controls. Also the shared `products`/`filterProducts`
 * pair that the checkbox effect and the search box both overwrite.
 */
module Home {
  import opened Catalog
  import opened JsText
  import opened Sequences
  import opened FiltersMenu
  import opened SearchBar

  /** The grid renders `filterProducts` when it is non-empty, and otherwise the whole catalog. */
  function VisibleProducts(filterProducts: seq<Product>, products: seq<Product>): (r: seq<Product>)
    ensures r == filterProducts || r == products
    ensures |filterProducts| > 0 ==> r == filterProducts
    ensures |r| == 0 ==> |products| == 0
  {
    if |filterProducts| > 0 then filterProducts else products
  }

  /** The create-product toggle button is shown only to an authenticated user. */
  predicate ShowsCreateToggle(isAuthenticated: bool) {
    isAuthenticated
  }

  /** The product form is shown only when authenticated and toggled open. */
  predicate ShowsProductForm(isAuthenticated: bool, showProductForm: bool) {
    isAuthenticated && showProductForm
  }

  /** The toggle button's click: `setShowProductForm(!showProductForm)`. */
  function ToggleProductForm(showProductForm: bool): (r: bool)
    ensures r != showProductForm
  {
    !showProductForm
  }

  /** Whatever the toggle state, an unauthenticated visitor sees neither the toggle nor the form. */
  lemma FormNeedsAuthentication(isAuthenticated: bool, showProductForm: bool)
    ensures ShowsProductForm(isAuthenticated, showProductForm) ==> ShowsCreateToggle(isAuthenticated)
    ensures !isAuthenticated ==> !ShowsProductForm(isAuthenticated, showProductForm)
    ensures isAuthenticated ==> ShowsProductForm(isAuthenticated, ToggleProductForm(showProductForm)) == !showProductForm
  {
  }

  /** A search with zero matches renders the whole catalog. */
  lemma ZeroMatchSearchShowsCatalog(products: seq<Product>, typed: string)
    requires forall i :: 0 <= i < |products| ==> !Matches(products[i], Lower(typed))
    ensures VisibleProducts(SearchProduct(products, typed).filterProducts, products) == products
  {
    FilterNoneKept(products, p => Matches(p, Lower(typed)));
  }

  /** A search with at least one match renders exactly the matches. */
  lemma MatchingSearchShowsMatches(products: seq<Product>, typed: string, i: nat)
    requires i < |products| && Matches(products[i], Lower(typed))
    ensures VisibleProducts(SearchProduct(products, typed).filterProducts, products)
      == SearchProduct(products, typed).filterProducts
  {
    assert products[i] in SearchProduct(products, typed).filterProducts;
  }

  /** A box checked and then unchecked empties `filterProducts`, so the grid shows the whole catalog. */
  lemma CheckedThenUncheckedShowsCatalog(products: seq<Product>, value: string)
    ensures var selection := FilterCategory(FilterCategory(map[], value, true), value, false);
      VisibleProducts(CategoryFiltered(products, selection), products) == products
  {
    CheckedThenUncheckedHidesAll(products, value);
  }

  /** The catalog and the last list written to `filterProducts`. */
  datatype ListState = ListState(products: seq<Product>, filterProducts: seq<Product>)

  /** The writes to `filterProducts`, each from one handler or effect. */
  datatype ListEvent =
    | SelectionChanged(selection: Selection)
    | CatalogLoaded(newProducts: seq<Product>, selection: Selection)
    | SearchTyped(typed: string)
    | SearchCleared

  /**
   * The checkbox effect reruns when the selection or the catalog changes and
   * overwrites `filterProducts`; a keystroke in the search box overwrites it
   * with the matches; clearing the search overwrites it with `[]`.
   */
  function Apply(s: ListState, e: ListEvent): (r: ListState)
    ensures e.CatalogLoaded? ==> r.products == e.newProducts
    ensures !e.CatalogLoaded? ==> r.products == s.products
    ensures e.SearchCleared? ==> r.filterProducts == []
    ensures |r.filterProducts| <= |r.products|
  {
    match e
    case SelectionChanged(selection) => s.(filterProducts := CategoryFiltered(s.products, selection))
    case CatalogLoaded(newProducts, selection) => ListState(newProducts, CategoryFiltered(newProducts, selection))
    case SearchTyped(typed) => s.(filterProducts := SearchProduct(s.products, typed).filterProducts)
    case SearchCleared => s.(filterProducts := ClearSearch().filterProducts)
  }

  /** The stored list is drawn from the current catalog, in catalog order. */
  predicate Consistent(s: ListState) {
    IsSubsequence(s.filterProducts, s.products)
  }

  /** Every write keeps the stored list a subsequence of the catalog. */
  lemma ApplyKeepsConsistent(s: ListState, e: ListEvent)
    requires Consistent(s)
    ensures Consistent(Apply(s, e))
  {
    match e
    case SelectionChanged(selection) =>
      CategoryFilteredIsSubsequence(s.products, selection);
    case CatalogLoaded(newProducts, selection) =>
      CategoryFilteredIsSubsequence(newProducts, selection);
    case SearchTyped(typed) =>
      SearchIsSubsequence(s.products, typed);
    case SearchCleared =>
  }

  /** In a consistent state the rendered list is drawn from the catalog, and is empty only with it. */
  lemma {:induction false} VisibleIsDrawnFromCatalog(s: ListState)
    requires Consistent(s)
    ensures IsSubsequence(VisibleProducts(s.filterProducts, s.products), s.products)
    ensures |VisibleProducts(s.filterProducts, s.products)| == 0 <==> |s.products| == 0
  {
    if |s.filterProducts| == 0 {
      SubsequenceReflexive(s.products);
    }
  }
}
