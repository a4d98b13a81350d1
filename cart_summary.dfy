/** The cart aggregate's derived totals (BSCS/Models/CartSummary.cs): two folds
    over the lines, their additivity, and the object that caches them. */
module CartSummaries {
  import opened CartModel

  /** Number of items in the cart: the sum of the lines' quantities. */
  function TotalItems(items: seq<CartItem>): (r: int)
    ensures items == [] ==> r == 0
    ensures (forall i :: 0 <= i < |items| ==> items[i].quantity > 0) ==> r >= |items|
  {
    if items == [] then 0
    else
      assert forall i :: 0 <= i < |items[1..]| ==> items[1..][i] == items[i + 1];
      items[0].quantity + TotalItems(items[1..])
  }

  /** price * n for an integer n, as the n-fold sum of price (negated for a
      negative n). Kept recursive so that the totals' lemmas reason about
      sums alone; TimesIsProduct shows it is the product. */
  function Times(price: real, n: int): real
    decreases if n < 0 then -n else n
  {
    if n == 0 then 0.0
    else if n > 0 then Times(price, n - 1) + price
    else Times(price, n + 1) - price
  }

  lemma {:induction false} TimesIsProduct(price: real, n: int)
    ensures Times(price, n) == price * n as real
    decreases if n < 0 then -n else n
  {
    if n > 0 {
      TimesIsProduct(price, n - 1);
      assert (n - 1) as real == n as real - 1.0;
    } else if n < 0 {
      TimesIsProduct(price, n + 1);
      assert (n + 1) as real == n as real + 1.0;
    }
  }

  /** A non-negative price taken a non-negative number of times costs nothing negative. */
  lemma {:induction false} TimesNonNegative(price: real, n: int)
    ensures price >= 0.0 && n >= 0 ==> Times(price, n) >= 0.0
    decreases if n < 0 then 0 else n
  {
    if n > 0 {
      TimesNonNegative(price, n - 1);
    }
  }

  /** Cost distributes over a sum of quantities. */
  lemma TimesAdd(price: real, a: int, b: int)
    ensures Times(price, a + b) == Times(price, a) + Times(price, b)
  {
    TimesIsProduct(price, a);
    TimesIsProduct(price, b);
    TimesIsProduct(price, a + b);
    assert (a + b) as real == a as real + b as real;
  }

  /** What one line costs: its captured price times its quantity. */
  function LineTotal(item: CartItem): (r: real)
    ensures item.quantity == 0 ==> r == 0.0
    ensures item.quantity >= 0 && item.price >= 0.0 ==> r >= 0.0
  {
    TimesNonNegative(item.price, item.quantity);
    Times(item.price, item.quantity)
  }

  /** Raising a line's quantity by q raises its total by q times its price. */
  lemma LineTotalAddQuantity(item: CartItem, q: int)
    ensures LineTotal(item.(quantity := item.quantity + q)) == LineTotal(item) + Times(item.price, q)
  {
    TimesAdd(item.price, item.quantity, q);
  }

  /** Price of the cart: the sum of the lines' totals. */
  function TotalPrice(items: seq<CartItem>): (r: real)
    ensures items == [] ==> r == 0.0
    ensures (forall i :: 0 <= i < |items| ==> items[i].quantity >= 0 && items[i].price >= 0.0) ==> r >= 0.0
  {
    if items == [] then 0.0
    else
      assert forall i :: 0 <= i < |items[1..]| ==> items[1..][i] == items[i + 1];
      LineTotal(items[0]) + TotalPrice(items[1..])
  }

  /** Both totals distribute over concatenation of line lists. */
  lemma {:induction false} TotalsAppend(a: seq<CartItem>, b: seq<CartItem>)
    ensures TotalItems(a + b) == TotalItems(a) + TotalItems(b)
    ensures TotalPrice(a + b) == TotalPrice(a) + TotalPrice(b)
  {
    if a == [] {
      assert a + b == b;
    } else {
      assert (a + b)[1..] == a[1..] + b;
      TotalsAppend(a[1..], b);
    }
  }

  /** A list is the lines before k, the line at k, and the lines after it. */
  lemma SplitAt(items: seq<CartItem>, k: nat)
    requires k < |items|
    ensures items == items[..k] + ([items[k]] + items[k + 1..])
  {
  }

  /** Appending a line adds its quantity and its line total. */
  lemma TotalsAppendLine(items: seq<CartItem>, line: CartItem)
    ensures TotalItems(items + [line]) == TotalItems(items) + line.quantity
    ensures TotalPrice(items + [line]) == TotalPrice(items) + LineTotal(line)
  {
    TotalsAppend(items, [line]);
    assert [line][1..] == [];
  }

  /** Removing the line at k subtracts its quantity and its line total. */
  lemma TotalsRemoveAt(items: seq<CartItem>, k: nat)
    requires k < |items|
    ensures TotalItems(items[..k] + items[k + 1..]) == TotalItems(items) - items[k].quantity
    ensures TotalPrice(items[..k] + items[k + 1..]) == TotalPrice(items) - LineTotal(items[k])
  {
    var rest := [items[k]] + items[k + 1..];
    SplitAt(items, k);
    assert rest[1..] == items[k + 1..];
    TotalsAppend(items[..k], rest);
    TotalsAppend(items[..k], items[k + 1..]);
  }

  /** Replacing the line at k by another swaps their contributions. */
  lemma TotalsReplaceAt(items: seq<CartItem>, k: nat, line: CartItem)
    requires k < |items|
    ensures TotalItems(items[k := line]) == TotalItems(items) - items[k].quantity + line.quantity
    ensures TotalPrice(items[k := line]) == TotalPrice(items) - LineTotal(items[k]) + LineTotal(line)
  {
    var rest := [line] + items[k + 1..];
    assert items[k := line] == items[..k] + rest;
    assert rest[1..] == items[k + 1..];
    TotalsAppend(items[..k], rest);
    TotalsAppend(items[..k], items[k + 1..]);
    assert TotalItems(rest) == line.quantity + TotalItems(items[k + 1..]);
    assert TotalPrice(rest) == LineTotal(line) + TotalPrice(items[k + 1..]);
    TotalsRemoveAt(items, k);
  }

  /** The cart aggregate: the lines in insertion order and the totals last
      computed from them. */
  class CartSummary {
    var items: seq<CartItem>
    var totalPrice: real
    var totalItems: int

    /** The cached totals are those of the current lines. */
    ghost predicate TotalsCurrent()
      reads this
    {
      totalItems == TotalItems(items) && totalPrice == TotalPrice(items)
    }

    /** A new summary holds no lines and zero totals. */
    constructor ()
      ensures items == [] && totalPrice == 0.0 && totalItems == 0
      ensures TotalsCurrent()
    {
      items := [];
      totalPrice := 0.0;
      totalItems := 0;
    }

    /** Overwrites both totals with the folds over the lines and leaves the
        lines alone; since the totals then depend on the lines only, a second
        call changes nothing. */
    method RecalculateTotals()
      modifies this
      ensures items == old(items)
      ensures totalItems == TotalItems(items)
      ensures totalPrice == TotalPrice(items)
    {
      totalItems := TotalItems(items);
      totalPrice := TotalPrice(items);
    }
  }
}
