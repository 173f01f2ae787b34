/** The category checkboxes and the list they select. */
module FiltersMenu {
  import opened Catalog
  import opened JsText
  import opened Sequences

  /** `selectedCheckboxes`: lower-cased category to the checkbox's last checked value. */
  type Selection = map<string, bool>

  /** `filterCategory(e)`: record the box's checked value under its lower-cased value. */
  function FilterCategory(selection: Selection, value: string, checked: bool): (r: Selection)
    ensures r.Keys == selection.Keys + {Lower(value)}
    ensures r[Lower(value)] == checked
    ensures forall k :: k in selection && k != Lower(value) ==> r[k] == selection[k]
  {
    selection[Lower(value) := checked]
  }

  /**
   * The filter predicate of the effect: with no keys at all every product
   * passes; otherwise a product passes when the entry for its lower-cased
   * category is true (an absent entry is falsy).
   */
  predicate Passes(selection: Selection, p: Product): (b: bool)
    ensures |selection| == 0 ==> b
    ensures |selection| > 0 && Lower(p.category) !in selection ==> !b
    ensures Lower(p.category) in selection ==> (b <==> selection[Lower(p.category)])
  {
    |selection| == 0 || (Lower(p.category) in selection && selection[Lower(p.category)])
  }

  /** The list the effect stores as `filterProducts`. */
  function CategoryFiltered(products: seq<Product>, selection: Selection): (r: seq<Product>)
    ensures |r| <= |products|
    ensures forall i :: 0 <= i < |r| ==> r[i] in products && Passes(selection, r[i])
    ensures forall i :: 0 <= i < |products| && Passes(selection, products[i]) ==> products[i] in r
  {
    Filter(products, p => Passes(selection, p))
  }

  /** With no keys in the selection, the filtered list is the whole catalog. */
  lemma EmptySelectionShowsAll(products: seq<Product>)
    ensures CategoryFiltered(products, map[]) == products
  {
    FilterAllKept(products, p => Passes(map[], p));
  }

  /**
   * With keys in the selection, a product is kept iff its lower-cased
   * category maps to true, and every copy of such a product is kept.
   */
  lemma NonEmptySelectionKeepsChecked(products: seq<Product>, selection: Selection, p: Product)
    requires |selection| > 0
    ensures p in CategoryFiltered(products, selection) <==>
      p in products && Lower(p.category) in selection && selection[Lower(p.category)]
    ensures multiset(CategoryFiltered(products, selection))[p] ==
      if Lower(p.category) in selection && selection[Lower(p.category)] then multiset(products)[p] else 0
  {
    FilterCounts(products, q => Passes(selection, q), p);
  }

  /** In every case the filtered list is an order-preserving subsequence of the catalog. */
  lemma CategoryFilteredIsSubsequence(products: seq<Product>, selection: Selection)
    ensures IsSubsequence(CategoryFiltered(products, selection), products)
  {
    FilterIsSubsequence(products, p => Passes(selection, p));
  }

  /**
   * A box checked and then unchecked leaves its key behind with the value
   * false: the selection is no longer empty, and with every value false
   * nothing passes, so the filtered list is empty rather than the catalog.
   */
  lemma CheckedThenUncheckedHidesAll(products: seq<Product>, value: string)
    ensures var selection := FilterCategory(FilterCategory(map[], value, true), value, false);
      |selection| == 1 && CategoryFiltered(products, selection) == []
  {
    var selection := FilterCategory(FilterCategory(map[], value, true), value, false);
    assert selection == map[Lower(value) := false];
    FilterNoneKept(products, p => Passes(selection, p));
  }

  /** More generally: a non-empty selection whose values are all false hides every product. */
  lemma AllUncheckedHidesAll(products: seq<Product>, selection: Selection)
    requires |selection| > 0
    requires forall k :: k in selection ==> !selection[k]
    ensures CategoryFiltered(products, selection) == []
  {
    FilterNoneKept(products, p => Passes(selection, p));
  }
}
