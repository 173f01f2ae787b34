/** The quantity stepper shown under each product: a counter that never goes below 1 by itself. */
module Count {
  import opened Wrappers

  /** A press of one of the stepper's two buttons. */
  datatype Press = Plus | Minus

  /** The count after one press: `+` adds 1; `-` subtracts 1 only above 1. */
  function Step(count: int, press: Press): (r: int)
    ensures press.Plus? ==> r == count + 1
    ensures press.Minus? ==> r <= count && (count > 1 ==> r == count - 1) && (count <= 1 ==> r == count)
    ensures count >= 1 ==> r >= 1
  {
    match press
    case Plus => count + 1
    case Minus => if count > 1 then count - 1 else count
  }

  /** The count after a sequence of presses. */
  function Run(count: int, presses: seq<Press>): (r: int)
    ensures count - |presses| <= r <= count + |presses|
    decreases |presses|
  {
    if presses == [] then count else Run(Step(count, presses[0]), presses[1..])
  }

  /** A count that starts at 1 or above stays at 1 or above under any presses. */
  lemma {:induction false} RunStaysPositive(count: int, presses: seq<Press>)
    requires count >= 1
    ensures Run(count, presses) >= 1
    decreases |presses|
  {
    if presses != [] {
      RunStaysPositive(Step(count, presses[0]), presses[1..]);
    }
  }

  /** Each press moves the count by at most one, so `n` presses move it by at most `n`. */
  lemma {:induction false} RunMovesAtMostOnePerPress(count: int, presses: seq<Press>)
    ensures count - |presses| <= Run(count, presses) <= count + |presses|
    decreases |presses|
  {
    if presses != [] {
      RunMovesAtMostOnePerPress(Step(count, presses[0]), presses[1..]);
    }
  }

  /** `n` presses of `-` from any positive count end at `max(count - n, 1)`. */
  lemma {:induction false} MinusFloorsAtOne(count: int, n: nat)
    requires count >= 1
    ensures Run(count, seq(n, _ => Minus)) == if count - n >= 1 then count - n else 1
    decreases n
  {
    if n > 0 {
      assert seq(n, _ => Minus)[1..] == seq(n - 1, _ => Minus);
      MinusFloorsAtOne(Step(count, Minus), n - 1);
    }
  }

  /** The stepper component: its `selectedCount` state, seeded from the `count` prop. */
  class Stepper {
    var selectedCount: int

    constructor (count: int)
      ensures selectedCount == count
    {
      selectedCount := count;
    }

    /** The effect on `count`: a new prop value overwrites the state. */
    method SyncFromProp(count: int)
      modifies this
      ensures selectedCount == count
    {
      selectedCount := count;
    }

    /** `addCount`: raise the count by 1 and report the new value to `onChangeCount`. */
    method AddCount() returns (reported: int)
      modifies this
      ensures selectedCount == old(selectedCount) + 1 == Step(old(selectedCount), Plus)
      ensures reported == selectedCount
    {
      var newCount := selectedCount + 1;
      selectedCount := newCount;
      reported := newCount;
    }

    /** `lessCount`: above 1, lower the count by 1 and report it; at 1 or below, do nothing. */
    method LessCount() returns (reported: Option<int>)
      modifies this
      ensures selectedCount == Step(old(selectedCount), Minus)
      ensures old(selectedCount) > 1 ==> selectedCount == old(selectedCount) - 1 && reported == Some(selectedCount)
      ensures old(selectedCount) <= 1 ==> selectedCount == old(selectedCount) && reported == None
    {
      reported := None;
      if selectedCount > 1 {
        var newCount := selectedCount - 1;
        selectedCount := newCount;
        reported := Some(newCount);
      }
    }
  }
}
