/** The cart summary: the total to pay, the badge on the cart button and the modal's two bodies. */
module Calculator {
  import opened Wrappers
  import opened Cart

  /** `cartProducts.reduce((acc, product) => acc + product.price, 0)`: a left fold over the lines. */
  function TotalPrice(lines: seq<CartLine>): (r: int)
    ensures (forall k :: 0 <= k < |lines| ==> lines[k].price >= 0) ==> r >= 0
    ensures (forall k :: 0 <= k < |lines| ==> lines[k].price == 0) ==> r == 0
  {
    if lines == [] then 0 else TotalPrice(lines[..|lines| - 1]) + lines[|lines| - 1].price
  }

  /** The sum of the line prices, taken from the front: the reference the fold is checked against. */
  function SumPrices(lines: seq<CartLine>): int
  {
    if lines == [] then 0 else lines[0].price + SumPrices(lines[1..])
  }

  lemma {:induction false} SumPricesAppend(a: seq<CartLine>, b: seq<CartLine>)
    ensures SumPrices(a + b) == SumPrices(a) + SumPrices(b)
  {
    if a != [] {
      assert (a + b)[1..] == a[1..] + b;
      SumPricesAppend(a[1..], b);
    } else {
      assert a + b == b;
    }
  }

  /** The total is the sum of every line's price, and 0 for an empty cart. */
  lemma {:induction false} TotalIsSumOfPrices(lines: seq<CartLine>)
    ensures TotalPrice(lines) == SumPrices(lines)
    ensures lines == [] ==> TotalPrice(lines) == 0
  {
    if lines != [] {
      var init := lines[..|lines| - 1];
      TotalIsSumOfPrices(init);
      assert lines == init + [lines[|lines| - 1]];
      SumPricesAppend(init, [lines[|lines| - 1]]);
    }
  }

  lemma TotalAppend(a: seq<CartLine>, b: seq<CartLine>)
    ensures TotalPrice(a + b) == TotalPrice(a) + TotalPrice(b)
  {
    TotalIsSumOfPrices(a + b);
    TotalIsSumOfPrices(a);
    TotalIsSumOfPrices(b);
    SumPricesAppend(a, b);
  }

  /** Replacing one line changes the total by exactly the change in that line's price. */
  lemma {:induction false} TotalUpdate(lines: seq<CartLine>, i: nat, l: CartLine)
    requires i < |lines|
    ensures TotalPrice(lines[i := l]) == TotalPrice(lines) - lines[i].price + l.price
  {
    var pre, post := lines[..i], lines[i + 1..];
    assert lines == pre + [lines[i]] + post;
    assert lines[i := l] == pre + [l] + post;
    TotalAppend(pre + [lines[i]], post);
    TotalAppend(pre + [l], post);
    TotalAppend(pre, [lines[i]]);
    TotalAppend(pre, [l]);
  }

  /** The total reads only the `price` fields: carts with the same line prices have the same total. */
  lemma {:induction false} TotalReadsOnlyPrices(a: seq<CartLine>, b: seq<CartLine>)
    requires |a| == |b|
    requires forall i :: 0 <= i < |a| ==> a[i].price == b[i].price
    ensures TotalPrice(a) == TotalPrice(b)
  {
    if a != [] {
      TotalReadsOnlyPrices(a[..|a| - 1], b[..|b| - 1]);
    }
  }

  /** The number on the cart button: the number of lines, shown only when there is one. */
  function Badge(lines: seq<CartLine>): (r: Option<nat>)
    ensures r.Some? <==> |lines| > 0
    ensures r.Some? ==> r.value == |lines|
  {
    if |lines| > 0 then Some(|lines|) else None
  }

  /** The modal body shows the empty-cart message. */
  predicate ShowsEmptyState(lines: seq<CartLine>) {
    |lines| == 0
  }

  /** The modal shows the footer with the total and the checkout button. */
  predicate ShowsFooter(lines: seq<CartLine>) {
    |lines| > 0
  }

  /** Exactly one of the empty state and the footer is shown, and the badge goes with the footer. */
  lemma ViewsAreExclusive(lines: seq<CartLine>)
    ensures ShowsEmptyState(lines) != ShowsFooter(lines)
    ensures Badge(lines).Some? <==> ShowsFooter(lines)
  {
  }

  /** The sum of the line quantities, which the badge does not show. */
  function TotalQuantity(lines: seq<CartLine>): int
  {
    if lines == [] then 0 else lines[0].quantity + TotalQuantity(lines[1..])
  }
}
