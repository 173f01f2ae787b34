/**
 * The product grid: add-to-cart, and the per-product editing state kept in
 * maps keyed by product id (selected counts, price and cost drafts, and the
 * two editor toggles).
 */
module ItemListContainer {
  import opened Wrappers
  import opened Catalog
  import opened Cart
  import opened Calculator

  // ---------------------------------------------------------------------
  // Add to cart
  // ---------------------------------------------------------------------

  /**
   * `productCounts[id] || 1`: the stored count unless it is absent or falsy
   * (the number 0), in which case 1.
   */
  function SelectedCount(counts: map<string, int>, id: string): (c: int)
    ensures c != 0
    ensures id in counts && counts[id] != 0 ==> c == counts[id]
    ensures id !in counts || counts[id] == 0 ==> c == 1
  {
    if id in counts && counts[id] != 0 then counts[id] else 1
  }

  /** `lines.findIndex(item => item.id === id)`: the first position holding `id`, or -1. */
  function FindIndex(lines: seq<CartLine>, id: string): (r: int)
    ensures -1 <= r < |lines|
    ensures r == -1 <==> forall k :: 0 <= k < |lines| ==> lines[k].id != id
    ensures r >= 0 ==> lines[r].id == id && forall k :: 0 <= k < r ==> lines[k].id != id
  {
    if lines == [] then -1
    else if lines[0].id == id then 0
    else
      var j := FindIndex(lines[1..], id);
      if j == -1 then -1 else j + 1
  }

  /** A repeat add: grow the line price by `product.price * count` and the quantity by `count`. */
  function Merge(line: CartLine, product: Product, count: int): (r: CartLine)
    ensures r.price - line.price == product.price * count && r.quantity - line.quantity == count
    ensures r.id == line.id && r.unitPrice == line.unitPrice
    ensures r == line.(price := r.price, quantity := r.quantity)
  {
    line.(price := line.price + product.price * count, quantity := line.quantity + count)
  }

  /** The cart after adding `count` units of `product`, as values. */
  function AddToCart(lines: seq<CartLine>, product: Product, count: int): (r: seq<CartLine>)
    ensures |r| == |lines| + (if FindIndex(lines, product.id) == -1 then 1 else 0)
    ensures exists k :: 0 <= k < |r| && r[k].id == product.id
    ensures forall k :: 0 <= k < |lines| && lines[k].id != product.id ==> r[k] == lines[k]
  {
    var i := FindIndex(lines, product.id);
    assert i == -1 ==> (lines + [NewLine(product, count)])[|lines|].id == product.id;
    assert i != -1 ==> lines[i := Merge(lines[i], product, count)][i].id == product.id;
    if i == -1 then lines + [NewLine(product, count)] else lines[i := Merge(lines[i], product, count)]
  }

  /** The ids of a cart, as a set. */
  function Ids(lines: seq<CartLine>): set<string>
  {
    set k | 0 <= k < |lines| :: lines[k].id
  }

  predicate UniqueIds(lines: seq<CartLine>) {
    forall i, j :: 0 <= i < j < |lines| ==> lines[i].id != lines[j].id
  }

  /** A first add appends exactly one line built from the product. */
  lemma AddAbsentAppends(lines: seq<CartLine>, product: Product, count: int)
    requires forall k :: 0 <= k < |lines| ==> lines[k].id != product.id
    ensures var r := AddToCart(lines, product, count);
      && |r| == |lines| + 1 && r[..|lines|] == lines
      && r[|lines|].id == product.id && r[|lines|].name == product.name
      && r[|lines|].category == product.category && r[|lines|].cost == product.cost
      && r[|lines|].img == product.img
      && r[|lines|].quantity == count && r[|lines|].price == product.price * count
      && r[|lines|].unitPrice == product.price
  {
  }

  /**
   * A repeat add keeps the length, grows the first matching line's price by
   * `product.price * count` and its quantity by `count`, keeps its unit price
   * and leaves every other line as it was.
   */
  lemma AddPresentMerges(lines: seq<CartLine>, product: Product, count: int, i: nat)
    requires i < |lines| && lines[i].id == product.id
    requires forall k :: 0 <= k < i ==> lines[k].id != product.id
    ensures var r := AddToCart(lines, product, count);
      && |r| == |lines|
      && r[i] == lines[i].(price := lines[i].price + product.price * count, quantity := lines[i].quantity + count)
      && r[i].unitPrice == lines[i].unitPrice
      && forall k :: 0 <= k < |lines| && k != i ==> r[k] == lines[k]
  {
    assert FindIndex(lines, product.id) == i;
  }

  /** The line count grows by at most one, and the ids become the old ids plus the product's. */
  lemma AddGrowsByAtMostOne(lines: seq<CartLine>, product: Product, count: int)
    ensures var r := AddToCart(lines, product, count);
      |lines| <= |r| <= |lines| + 1 && Ids(r) == Ids(lines) + {product.id}
  {
    var r := AddToCart(lines, product, count);
    var i := FindIndex(lines, product.id);
    if i == -1 {
      assert forall k :: 0 <= k < |lines| ==> r[k] == lines[k];
      assert r[|lines|].id == product.id;
      assert Ids(r) == Ids(lines) + {product.id} by {
        forall x | x in Ids(r) ensures x in Ids(lines) + {product.id} {
          var k :| 0 <= k < |r| && r[k].id == x;
          if k < |lines| { assert lines[k].id == x; }
        }
        forall x | x in Ids(lines) ensures x in Ids(r) {
          var k :| 0 <= k < |lines| && lines[k].id == x;
          assert r[k].id == x;
        }
      }
    } else {
      assert forall k :: 0 <= k < |lines| ==> r[k].id == lines[k].id;
      assert Ids(r) == Ids(lines) by {
        forall x | x in Ids(r) ensures x in Ids(lines) {
          var k :| 0 <= k < |r| && r[k].id == x;
          assert lines[k].id == x;
        }
        forall x | x in Ids(lines) ensures x in Ids(r) {
          var k :| 0 <= k < |lines| && lines[k].id == x;
          assert r[k].id == x;
        }
      }
      assert product.id in Ids(lines) by { assert lines[i].id == product.id; }
    }
  }

  /** At most one line per id: an add keeps the ids of the cart unique. */
  lemma AddKeepsIdsUnique(lines: seq<CartLine>, product: Product, count: int)
    requires UniqueIds(lines)
    ensures UniqueIds(AddToCart(lines, product, count))
  {
    var r := AddToCart(lines, product, count);
    if FindIndex(lines, product.id) == -1 {
      forall i, j | 0 <= i < j < |r| ensures r[i].id != r[j].id {
        if j == |lines| {
          assert r[i] == lines[i];
        } else {
          assert r[i] == lines[i] && r[j] == lines[j];
        }
      }
    } else {
      assert forall k :: 0 <= k < |lines| ==> r[k].id == lines[k].id;
    }
  }

  /** Every add raises the cart total by `product.price * count`, whichever branch it takes. */
  lemma AddRaisesTotal(lines: seq<CartLine>, product: Product, count: int)
    ensures TotalPrice(AddToCart(lines, product, count)) == TotalPrice(lines) + product.price * count
  {
    var i := FindIndex(lines, product.id);
    if i == -1 {
      TotalAppend(lines, [NewLine(product, count)]);
      assert TotalPrice([NewLine(product, count)]) == product.price * count by {
        assert [NewLine(product, count)][..0] == [];
      }
    } else {
      TotalUpdate(lines, i, Merge(lines[i], product, count));
    }
  }

  predicate QuantitiesPositive(lines: seq<CartLine>) {
    forall k :: 0 <= k < |lines| ==> lines[k].quantity >= 1
  }

  /** Adds with a positive count (all the stepper can produce) keep every quantity at least 1. */
  lemma AddKeepsQuantitiesPositive(lines: seq<CartLine>, product: Product, count: int)
    requires QuantitiesPositive(lines) && count >= 1
    ensures QuantitiesPositive(AddToCart(lines, product, count))
  {
  }

  /**
   * The count an add uses is at least 1 whenever every stored count is: the
   * stepper reports only counts it reaches from 1 (`Count.RunStaysPositive`),
   * and an absent count reads as 1.
   */
  lemma SelectedCountPositive(counts: map<string, int>, id: string)
    requires forall k :: k in counts ==> counts[k] >= 1
    ensures SelectedCount(counts, id) >= 1
  {
  }

  /** A line's price equals its unit price times its quantity. */
  predicate PriceConsistent(l: CartLine) {
    l.price == l.unitPrice * l.quantity
  }

  /** A repeat add keeps a line consistent when the catalog price still equals the line's unit price. */
  lemma MergeAtSamePriceStaysConsistent(line: CartLine, product: Product, count: int)
    requires PriceConsistent(line) && product.price == line.unitPrice
    ensures PriceConsistent(Merge(line, product, count))
  {
    assert line.unitPrice * (line.quantity + count) == line.unitPrice * line.quantity + line.unitPrice * count;
  }

  /**
   * A repeat add after the catalog price changed prices the new units at the
   * current catalog price, while `unitPrice` keeps the first one: for any
   * nonzero counts the line then no longer equals unit price times quantity.
   */
  lemma PriceDriftsWhenCatalogPriceChanges(p1: Product, price2: int, c1: int, c2: int)
    requires c1 != 0 && c2 != 0 && price2 != p1.price
    ensures var r := AddToCart(AddToCart([], p1, c1), p1.(price := price2), c2);
      && |r| == 1
      && r[0].price == p1.price * c1 + price2 * c2
      && r[0].quantity == c1 + c2 && r[0].unitPrice == p1.price
      && !PriceConsistent(r[0])
  {
    var once := AddToCart([], p1, c1);
    assert once == [NewLine(p1, c1)];
    assert FindIndex(once, p1.id) == 0;
    var r := AddToCart(once, p1.(price := price2), c2);
    assert r[0].price == p1.price * c1 + price2 * c2;
    assert p1.price * (c1 + c2) == p1.price * c1 + p1.price * c2;
    assert price2 * c2 - p1.price * c2 == (price2 - p1.price) * c2;
    assert (price2 - p1.price) * c2 != 0;
  }

  /** Adding 2 and then 3 units of one product to an empty cart gives one line of 5 units. */
  lemma AddTwiceMerges(product: Product)
    ensures AddToCart(AddToCart([], product, 2), product, 3) == [NewLine(product, 5)]
  {
    var once := AddToCart([], product, 2);
    assert once == [NewLine(product, 2)];
    assert FindIndex(once, product.id) == 0;
    assert product.price * 2 + product.price * 3 == product.price * 5;
  }

  /** The badge counts lines, not units: three units of one product still show 1. */
  lemma BadgeCountsLinesNotUnits(product: Product)
    ensures var r := AddToCart([], product, 3);
      Badge(r) == Some(1) && TotalQuantity(r) == 3
  {
    assert AddToCart([], product, 3) == [NewLine(product, 3)];
  }

  /** The search of `findIndex` over the line objects: the first position holding `id`, or -1. */
  method FindLine(lines: seq<Line>, id: string) returns (existing: int)
    ensures existing == FindIndex(Values(lines), id)
  {
    existing := 0;
    while existing < |lines| && lines[existing].id != id
      invariant 0 <= existing <= |lines|
      invariant forall k :: 0 <= k < existing ==> lines[k].id != id
    {
      existing := existing + 1;
    }
    if existing == |lines| {
      existing := -1;
    }
  }

  /** A repeat add: mutate the line object at position `i` in place; no other line changes. */
  method MergeLineAt(cart: Cart, i: nat, product: Product, count: int)
    requires cart.Valid() && i < |cart.lines|
    modifies cart.lines[i]
    ensures cart.Snapshot() == old(cart.Snapshot())[i := Merge(old(cart.Snapshot())[i], product, count)]
  {
    var line := cart.lines[i];
    line.price := line.price + product.price * count;
    line.quantity := line.quantity + count;
    forall k | 0 <= k < |cart.lines| && k != i ensures cart.lines[k].Value() == old(cart.lines[k].Value()) {
      assert cart.lines[k] != line;
    }
  }

  /** A first add: push a fresh line object built from the product; the existing lines are untouched. */
  method PushNewLine(cart: Cart, product: Product, count: int)
    requires cart.Valid()
    modifies cart
    ensures cart.Valid()
    ensures |cart.lines| == |old(cart.lines)| + 1 && cart.lines[..|old(cart.lines)|] == old(cart.lines)
    ensures fresh(cart.lines[|old(cart.lines)|])
    ensures cart.Snapshot() == old(cart.Snapshot()) + [NewLine(product, count)]
  {
    var line := new Line(product, count);
    cart.lines := cart.lines + [line];
    assert cart.lines[..|old(cart.lines)|] == old(cart.lines);
  }

  /**
   * `handleAddProducts(product)`: find the product's line, then either
   * mutate that line object or push a new one, and store the array.
   *
   * The array copy of the source is shallow: the line objects of the
   * previous array are those of the new one, so after a repeat add the OLD
   * array also shows the new price and quantity (the last postcondition).
   */
  method HandleAddProducts(cart: Cart, productCounts: map<string, int>, product: Product)
    requires cart.Valid()
    modifies cart, cart.lines
    ensures cart.Valid()
    ensures cart.Snapshot() == AddToCart(old(cart.Snapshot()), product, SelectedCount(productCounts, product.id))
    ensures |old(cart.lines)| <= |cart.lines| && cart.lines[..|old(cart.lines)|] == old(cart.lines)
    ensures Values(old(cart.lines)) == cart.Snapshot()[..|old(cart.lines)|]
  {
    var existing := FindLine(cart.lines, product.id);
    var selectedCount := SelectedCount(productCounts, product.id);
    if existing != -1 {
      MergeLineAt(cart, existing, product, selectedCount);
    } else {
      PushNewLine(cart, product, selectedCount);
    }
  }

  // ---------------------------------------------------------------------
  // Per-product editing state
  // ---------------------------------------------------------------------

  /** The five id-keyed state maps of the grid. Absent keys read as JavaScript `undefined`. */
  datatype ItemState = ItemState(
    productCounts: map<string, int>,
    newPrices: map<string, string>,
    showChangePrice: map<string, bool>,
    newCostPrices: map<string, string>,
    showCostPrices: map<string, bool>)

  /** All five maps start as `{}`. */
  const InitialItemState := ItemState(map[], map[], map[], map[], map[])

  /** `m[id]` read as a condition: an absent entry is falsy. */
  predicate IsOpen(m: map<string, bool>, id: string) {
    id in m && m[id]
  }

  /** `m'` is `{...m, [id]: v}`: `id` maps to `v` and every other key is as in `m`. */
  predicate Overrides<V(==)>(m': map<string, V>, m: map<string, V>, id: string, v: V) {
    && m'.Keys == m.Keys + {id}
    && m'[id] == v
    && forall k :: k in m && k != id ==> m'[k] == m[k]
  }

  /** `handleChangeCount(productId, newCount)`: only that product's count is overwritten. */
  function HandleChangeCount(s: ItemState, productId: string, newCount: int): (r: ItemState)
    ensures Overrides(r.productCounts, s.productCounts, productId, newCount)
    ensures r == s.(productCounts := r.productCounts)
  {
    s.(productCounts := s.productCounts[productId := newCount])
  }

  /** `handleChangePrice(productId, newPrice)`: only that product's price draft is overwritten. */
  function HandleChangePrice(s: ItemState, productId: string, newPrice: string): (r: ItemState)
    ensures Overrides(r.newPrices, s.newPrices, productId, newPrice)
    ensures r == s.(newPrices := r.newPrices)
  {
    s.(newPrices := s.newPrices[productId := newPrice])
  }

  /** `handleChangeCostPrice(productId, newPrice)`: only that product's cost draft is overwritten. */
  function HandleChangeCostPrice(s: ItemState, productId: string, newPrice: string): (r: ItemState)
    ensures Overrides(r.newCostPrices, s.newCostPrices, productId, newPrice)
    ensures r == s.(newCostPrices := r.newCostPrices)
  {
    s.(newCostPrices := s.newCostPrices[productId := newPrice])
  }

  /** `toggleChangePrice(productId)`: flip that product's price editor; absent counts as closed. */
  function ToggleChangePrice(s: ItemState, productId: string): (r: ItemState)
    ensures IsOpen(r.showChangePrice, productId) == !IsOpen(s.showChangePrice, productId)
    ensures Overrides(r.showChangePrice, s.showChangePrice, productId, !IsOpen(s.showChangePrice, productId))
    ensures r == s.(showChangePrice := r.showChangePrice)
  {
    s.(showChangePrice := s.showChangePrice[productId := !IsOpen(s.showChangePrice, productId)])
  }

  /** `toggleChangeCostPrice(productId)`: flip that product's cost editor; absent counts as closed. */
  function ToggleChangeCostPrice(s: ItemState, productId: string): (r: ItemState)
    ensures IsOpen(r.showCostPrices, productId) == !IsOpen(s.showCostPrices, productId)
    ensures Overrides(r.showCostPrices, s.showCostPrices, productId, !IsOpen(s.showCostPrices, productId))
    ensures r == s.(showCostPrices := r.showCostPrices)
  {
    s.(showCostPrices := s.showCostPrices[productId := !IsOpen(s.showCostPrices, productId)])
  }

  /** A toggle changes whether an editor is open for its own product only. */
  lemma ToggleAffectsOnlyItsProduct(s: ItemState, productId: string, other: string)
    requires other != productId
    ensures IsOpen(ToggleChangePrice(s, productId).showChangePrice, other) == IsOpen(s.showChangePrice, other)
    ensures IsOpen(ToggleChangeCostPrice(s, productId).showCostPrices, other) == IsOpen(s.showCostPrices, other)
  {
  }

  /** The first toggle of a product opens its editor, and the second closes it again. */
  lemma FirstToggleOpensSecondCloses(productId: string)
    ensures IsOpen(ToggleChangePrice(InitialItemState, productId).showChangePrice, productId)
    ensures !IsOpen(ToggleChangePrice(ToggleChangePrice(InitialItemState, productId), productId).showChangePrice, productId)
    ensures IsOpen(ToggleChangeCostPrice(InitialItemState, productId).showCostPrices, productId)
    ensures !IsOpen(ToggleChangeCostPrice(ToggleChangeCostPrice(InitialItemState, productId), productId).showCostPrices, productId)
  {
  }

  /** A repository call the grid issues: the id and the raw draft (`undefined` when none was typed). */
  datatype RepositoryCall = UpdatePrice(id: string, draft: Option<string>) | UpdateCost(id: string, draft: Option<string>)

  function Lookup(m: map<string, string>, id: string): Option<string> {
    if id in m then Some(m[id]) else None
  }

  /** The effect of one save: the call issued, the new state, and the alert shown, if any. */
  datatype SaveResult = SaveResult(call: RepositoryCall, state: ItemState, alert: Option<string>)

  /**
   * `changePrice(productId)`: send the price draft to the repository and,
   * only when that succeeds, toggle the price editor; on failure alert and
   * keep every map as it was.  The handler runs across an `await`: the draft
   * it sends and the map its toggle spreads are those of `atClick`, the
   * state when the button was pressed, while any other map is as it is
   * `now`, when the repository answers.
   */
  function ChangePrice(atClick: ItemState, now: ItemState, productId: string, update: Outcome): (r: SaveResult)
    ensures r.call == UpdatePrice(productId, Lookup(atClick.newPrices, productId))
    ensures update.Succeeded? ==> r.alert.None? && r.state == now.(showChangePrice := r.state.showChangePrice)
    ensures update.Succeeded? ==>
      Overrides(r.state.showChangePrice, atClick.showChangePrice, productId, !IsOpen(atClick.showChangePrice, productId))
    ensures update.Failed? ==> r.state == now && r.alert == Some("Error updating price.")
  {
    var call := UpdatePrice(productId, Lookup(atClick.newPrices, productId));
    if update.Succeeded? then SaveResult(call, now.(showChangePrice := ToggleChangePrice(atClick, productId).showChangePrice), None)
    else SaveResult(call, now, Some("Error updating price."))
  }

  /** `changeCostPrice(productId)`: the same cycle for the cost draft and the cost editor. */
  function ChangeCostPrice(atClick: ItemState, now: ItemState, productId: string, update: Outcome): (r: SaveResult)
    ensures r.call == UpdateCost(productId, Lookup(atClick.newCostPrices, productId))
    ensures update.Succeeded? ==> r.alert.None? && r.state == now.(showCostPrices := r.state.showCostPrices)
    ensures update.Succeeded? ==>
      Overrides(r.state.showCostPrices, atClick.showCostPrices, productId, !IsOpen(atClick.showCostPrices, productId))
    ensures update.Failed? ==> r.state == now && r.alert == Some("Error updating cost price.")
  {
    var call := UpdateCost(productId, Lookup(atClick.newCostPrices, productId));
    if update.Succeeded? then SaveResult(call, now.(showCostPrices := ToggleChangeCostPrice(atClick, productId).showCostPrices), None)
    else SaveResult(call, now, Some("Error updating cost price."))
  }

  /**
   * With nothing else happening while the update is pending, a save from an
   * open editor closes that editor exactly when the update succeeds, an alert
   * is raised exactly when it fails, and the drafts are kept either way.  Each
   * editor is considered on its own: the other may be open or closed.
   */
  lemma SaveClosesOnlyOnSuccess(s: ItemState, productId: string, update: Outcome)
    ensures var r := ChangePrice(s, s, productId, update);
      && (IsOpen(s.showChangePrice, productId) ==> (IsOpen(r.state.showChangePrice, productId) <==> update.Failed?))
      && IsOpen(r.state.showCostPrices, productId) == IsOpen(s.showCostPrices, productId)
      && (r.alert.Some? <==> update.Failed?)
      && r.state.newPrices == s.newPrices
    ensures var r := ChangeCostPrice(s, s, productId, update);
      && (IsOpen(s.showCostPrices, productId) ==> (IsOpen(r.state.showCostPrices, productId) <==> update.Failed?))
      && IsOpen(r.state.showChangePrice, productId) == IsOpen(s.showChangePrice, productId)
      && (r.alert.Some? <==> update.Failed?)
      && r.state.newCostPrices == s.newCostPrices
  {
  }

  /**
   * The toggle after a successful save spreads the map captured at the click:
   * another product's price editor toggled while the update was pending is
   * put back as it was, and a draft typed meanwhile is not the one sent.
   */
  lemma PendingSaveUndoesOtherToggle(s: ItemState, productId: string, other: string, typed: string)
    requires other != productId
    ensures var now := HandleChangePrice(ToggleChangePrice(s, other), productId, typed);
      var r := ChangePrice(s, now, productId, Succeeded);
      && IsOpen(now.showChangePrice, other) != IsOpen(s.showChangePrice, other)
      && IsOpen(r.state.showChangePrice, other) == IsOpen(s.showChangePrice, other)
      && r.call == UpdatePrice(productId, Lookup(s.newPrices, productId))
      && r.state.newPrices[productId] == typed
  {
  }

  /** The same for the cost editor. */
  lemma PendingCostSaveUndoesOtherToggle(s: ItemState, productId: string, other: string)
    requires other != productId
    ensures var now := ToggleChangeCostPrice(s, other);
      var r := ChangeCostPrice(s, now, productId, Succeeded);
      && IsOpen(now.showCostPrices, other) != IsOpen(s.showCostPrices, other)
      && IsOpen(r.state.showCostPrices, other) == IsOpen(s.showCostPrices, other)
  {
  }
}
