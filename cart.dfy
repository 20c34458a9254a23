/**
 * The cart page: per-line stock ceiling, the +/- and remove handlers, and the
 * figures the page derives (line totals, the item count, the final total).
 *
 * The cart's storage lives in a hook that is not part of this model; the page
 * reaches it through index-addressed callbacks. Those callbacks are modelled
 * as the plain setters SetQuantity and RemoveAt: this model keeps a line whose
 * quantity drops to 0 or below, and what the real hook does there, or above a
 * ceiling, is not known from the page. The lemmas about the cart after a
 * click hold of these setters. The page's `getTotalPrice` callback is an
 * input value.
 */
module Cart {
  import opened Wrappers

  datatype Product = Product(id: string, name: string, basePrice: real, stockQuantity: int)
  datatype Variation = Variation(id: string, name: string, price: real, stockQuantity: int)

  /** One cart line: a product, maybe one of its variations, a quantity and the unit price captured when added. */
  datatype LineItem = LineItem(product: Product, variation: Option<Variation>, quantity: int, price: real)

  /** The stock that bounds a line: the variation's when the line has one, the product's otherwise. */
  function StockCeiling(line: LineItem): (ceiling: int)
    ensures line.variation.Some? ==> ceiling == line.variation.value.stockQuantity
    ensures line.variation.None? ==> ceiling == line.product.stockQuantity
  {
    if line.variation.Some? then line.variation.value.stockQuantity else line.product.stockQuantity
  }

  /** The guard of the + button, used both for its `disabled` state and inside its click handler. */
  predicate AtStockLimit(line: LineItem): (atLimit: bool)
    ensures !atLimit ==> line.quantity + 1 <= StockCeiling(line)
    ensures atLimit ==> line.quantity >= StockCeiling(line)
  {
    line.quantity >= StockCeiling(line)
  }

  /** The "/ N" hint under the quantity: shown only for a positive ceiling. */
  function StockIndicator(line: LineItem): (shown: Option<int>)
    ensures shown.Some? <==> StockCeiling(line) > 0
    ensures shown.Some? ==> shown.value == StockCeiling(line)
  {
    var available := StockCeiling(line);
    if available > 0 then Some(available) else None
  }

  /** The amount shown for a line: unit price times quantity. */
  function LineTotal(line: LineItem): (total: real)
    ensures line.quantity == 0 ==> total == 0.0
    ensures line.price >= 0.0 && line.quantity >= 0 ==> total >= 0.0
  {
    line.price * line.quantity as real
  }

  /** The item count in the summary: `reduce((sum, item) => sum + item.quantity, 0)`, a left fold. */
  function ItemCount(items: seq<LineItem>): (count: int)
    ensures (forall i :: 0 <= i < |items| ==> items[i].quantity >= 0) ==> count >= 0
    ensures (forall i :: 0 <= i < |items| ==> items[i].quantity >= 1) ==> count >= |items|
  {
    if items == [] then 0 else ItemCount(items[..|items| - 1]) + items[|items| - 1].quantity
  }

  /** The hook's `updateQuantity(index, quantity)`, seen as an index-addressed setter. */
  function SetQuantity(items: seq<LineItem>, index: nat, quantity: int): (updated: seq<LineItem>)
    requires index < |items|
    ensures |updated| == |items|
    ensures updated[index].quantity == quantity
    ensures forall i :: 0 <= i < |items| && i != index ==> updated[i] == items[i]
    ensures updated[index].product == items[index].product && updated[index].variation == items[index].variation
    ensures updated[index].price == items[index].price
  {
    items[index := items[index].(quantity := quantity)]
  }

  /** The hook's `removeFromCart(index)`, seen as an index-addressed removal. */
  function RemoveAt(items: seq<LineItem>, index: nat): (remaining: seq<LineItem>)
    requires index < |items|
    ensures |remaining| == |items| - 1
    ensures forall i :: 0 <= i < index ==> remaining[i] == items[i]
    ensures forall i :: index <= i < |remaining| ==> remaining[i] == items[i + 1]
  {
    items[..index] + items[index + 1..]
  }

  /** The cart after a click on + for line `index`: one more, unless the line is at its stock limit. */
  function Incremented(items: seq<LineItem>, index: nat): (after: seq<LineItem>)
    requires index < |items|
    ensures |after| == |items|
    ensures after[index].quantity == items[index].quantity + (if AtStockLimit(items[index]) then 0 else 1)
    ensures after[index] == items[index].(quantity := after[index].quantity)
    ensures forall i :: 0 <= i < |items| && i != index ==> after[i] == items[i]
  {
    if AtStockLimit(items[index]) then items else SetQuantity(items, index, items[index].quantity + 1)
  }

  /** The cart after a click on - for line `index`: one less, with no lower bound checked here. */
  function Decremented(items: seq<LineItem>, index: nat): (after: seq<LineItem>)
    requires index < |items|
    ensures |after| == |items|
    ensures after[index].quantity == items[index].quantity - 1
    ensures after[index] == items[index].(quantity := after[index].quantity)
    ensures forall i :: 0 <= i < |items| && i != index ==> after[i] == items[i]
  {
    SetQuantity(items, index, items[index].quantity - 1)
  }

  /** Every line's quantity is at most its ceiling. */
  ghost predicate WithinStock(items: seq<LineItem>)
  {
    forall i :: 0 <= i < |items| ==> items[i].quantity <= StockCeiling(items[i])
  }

  /** The cart page, holding the lines it was rendered with. */
  class CartPage {
    var items: seq<LineItem>

    constructor (items: seq<LineItem>)
      ensures this.items == items
    {
      this.items := items;
    }

    /** Click on +: issues `updateQuantity(index, quantity + 1)` unless the line is at its stock limit. */
    method Increment(index: nat) returns (accepted: bool)
      requires index < |items|
      modifies this
      ensures accepted == !AtStockLimit(old(items)[index])
      ensures items == Incremented(old(items), index)
    {
      var item := items[index];
      var availableStock := if item.variation.Some? then item.variation.value.stockQuantity
                            else item.product.stockQuantity;
      if item.quantity >= availableStock {
        accepted := false;
        return;
      }
      items := SetQuantity(items, index, item.quantity + 1);
      accepted := true;
    }

    /** Click on -: always issues `updateQuantity(index, quantity - 1)`. */
    method Decrement(index: nat)
      requires index < |items|
      modifies this
      ensures items == Decremented(old(items), index)
    {
      items := SetQuantity(items, index, items[index].quantity - 1);
    }

    /** Click on the trash icon: issues `removeFromCart(index)`. */
    method Remove(index: nat)
      requires index < |items|
      modifies this
      ensures items == RemoveAt(old(items), index)
    {
      items := RemoveAt(items, index);
    }

    /** Click on Clear: issues `clearCart()`. */
    method Clear()
      modifies this
      ensures items == []
    {
      items := [];
    }
  }

  /** What one line shows: its quantity, the stock hint, whether + is disabled, and its total. */
  datatype LineView = LineView(quantity: int, stockIndicator: Option<int>, plusDisabled: bool, lineTotal: real)

  /** The page: the empty-cart screen, or the lines with the order summary. */
  datatype CartScreen =
    | EmptyCart
    | Filled(lines: seq<LineView>, itemCount: int, subtotal: real, total: real)

  function ViewOf(line: LineItem): LineView
  {
    LineView(line.quantity, StockIndicator(line), AtStockLimit(line), LineTotal(line))
  }

  /**
   * The page for `items`, given what `getTotalPrice()` answers. Shipping is not
   * added: the total equals the subtotal.
   */
  function Render(items: seq<LineItem>, totalPrice: real): (screen: CartScreen)
    ensures screen.EmptyCart? <==> items == []
    ensures screen.Filled? ==> |screen.lines| == |items|
    ensures screen.Filled? ==> screen.itemCount == ItemCount(items)
    ensures screen.Filled? ==> screen.subtotal == totalPrice && screen.total == totalPrice
    ensures screen.Filled? ==> forall i :: 0 <= i < |items| ==>
              screen.lines[i].quantity == items[i].quantity &&
              screen.lines[i].stockIndicator == StockIndicator(items[i]) &&
              screen.lines[i].plusDisabled == (items[i].quantity >= StockCeiling(items[i])) &&
              screen.lines[i].lineTotal == items[i].price * items[i].quantity as real
  {
    if items == [] then EmptyCart
    else
      var lines := seq(|items|, i requires 0 <= i < |items| => ViewOf(items[i]));
      Filled(lines, ItemCount(items), totalPrice, totalPrice)
  }

  /** The item count is additive over concatenation. */
  lemma {:induction false} ItemCountAppend(a: seq<LineItem>, b: seq<LineItem>)
    ensures ItemCount(a + b) == ItemCount(a) + ItemCount(b)
    decreases |b|
  {
    if b == [] {
      assert a + b == a;
    } else {
      var b' := b[..|b| - 1];
      assert (a + b)[..|a + b| - 1] == a + b';
      ItemCountAppend(a, b');
    }
  }

  /** Setting one line's quantity changes the item count by exactly the difference. */
  lemma {:induction false} ItemCountAfterSet(items: seq<LineItem>, index: nat, quantity: int)
    requires index < |items|
    ensures ItemCount(SetQuantity(items, index, quantity)) == ItemCount(items) - items[index].quantity + quantity
  {
    var updated := SetQuantity(items, index, quantity);
    ItemCountSplit(items, index);
    ItemCountSplit(updated, index);
    assert updated[..index] == items[..index];
    assert updated[index + 1..] == items[index + 1..];
  }

  /** Removing a line takes exactly its quantity off the item count. */
  lemma {:induction false} ItemCountAfterRemove(items: seq<LineItem>, index: nat)
    requires index < |items|
    ensures ItemCount(RemoveAt(items, index)) == ItemCount(items) - items[index].quantity
  {
    ItemCountSplit(items, index);
    ItemCountAppend(items[..index], items[index + 1..]);
  }

  /** The item count of a cart split around one of its lines. */
  lemma {:induction false} ItemCountSplit(items: seq<LineItem>, index: nat)
    requires index < |items|
    ensures ItemCount(items) == ItemCount(items[..index]) + items[index].quantity + ItemCount(items[index + 1..])
  {
    var before, line, after := items[..index], [items[index]], items[index + 1..];
    assert items == (before + line) + after;
    ItemCountAppend(before + line, after);
    ItemCountAppend(before, line);
    assert ItemCount(line) == items[index].quantity by {
      assert line[..0] == [];
    }
  }

  /** An accepted + adds exactly one item to the count; a rejected one adds nothing. */
  lemma {:induction false} ItemCountAfterIncrement(items: seq<LineItem>, index: nat)
    requires index < |items|
    ensures ItemCount(Incremented(items, index)) ==
              ItemCount(items) + (if AtStockLimit(items[index]) then 0 else 1)
  {
    if !AtStockLimit(items[index]) {
      ItemCountAfterSet(items, index, items[index].quantity + 1);
    }
  }

  /** - always takes exactly one item off the count. */
  lemma {:induction false} ItemCountAfterDecrement(items: seq<LineItem>, index: nat)
    requires index < |items|
    ensures ItemCount(Decremented(items, index)) == ItemCount(items) - 1
  {
    ItemCountAfterSet(items, index, items[index].quantity - 1);
  }

  /**
   * + never takes a line past its ceiling: a line at or below its ceiling is
   * still at or below it afterwards, and so is every other line.
   */
  lemma IncrementWithinStock(items: seq<LineItem>, index: nat)
    requires index < |items|
    requires WithinStock(items)
    ensures WithinStock(Incremented(items, index))
    ensures Incremented(items, index)[index].quantity <= StockCeiling(items[index])
  {
  }

  /** -, remove and clear keep every line within its ceiling. */
  lemma OtherHandlersWithinStock(items: seq<LineItem>, index: nat)
    requires index < |items|
    requires WithinStock(items)
    ensures WithinStock(Decremented(items, index))
    ensures WithinStock(RemoveAt(items, index))
    ensures WithinStock([])
  {
    var remaining := RemoveAt(items, index);
    forall i | 0 <= i < |remaining|
      ensures remaining[i].quantity <= StockCeiling(remaining[i])
    {
      if i >= index {
        assert remaining[i] == items[i + 1];
      }
    }
  }

  /** The disabled state of + is exactly the condition under which its click handler issues nothing. */
  lemma PlusDisabledIffRejected(items: seq<LineItem>, index: nat)
    requires index < |items|
    ensures ViewOf(items[index]).plusDisabled <==> Incremented(items, index) == items
  {
    if !AtStockLimit(items[index]) {
      assert Incremented(items, index)[index].quantity != items[index].quantity;
    }
  }

  /**
   * A ceiling of 0 (or less) blocks every increment: with at least one item on the
   * line, + is disabled and rejected, and the stock hint is hidden.
   */
  lemma ZeroCeilingBlocksIncrement(items: seq<LineItem>, index: nat)
    requires index < |items|
    requires StockCeiling(items[index]) <= 0 && items[index].quantity >= 1
    ensures AtStockLimit(items[index])
    ensures Incremented(items, index) == items
    ensures StockIndicator(items[index]).None?
  {
  }
}
