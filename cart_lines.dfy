/** The cart's line list as a value (BSCS/Services/CartService.cs): the search
    for a product's line, the three edits the service makes to the list, the
    invariants those edits keep, and their effect on the totals. The class in
    CartServices is specified by these functions. */
module CartLines {
  import opened CartModel
  import opened CartSummaries

  /** Some line of the list is for product pid. */
  predicate HasProduct(items: seq<CartItem>, pid: int)
  {
    exists i :: 0 <= i < |items| && items[i].productId == pid
  }

  /** No two lines are for the same product. */
  predicate UniqueProducts(items: seq<CartItem>)
  {
    forall i, j :: 0 <= i < j < |items| ==> items[i].productId != items[j].productId
  }

  /** No two lines carry the same line id. */
  predicate DistinctIds(items: seq<CartItem>)
  {
    forall i, j :: 0 <= i < j < |items| ==> items[i].id != items[j].id
  }

  /** Every line id was drawn from a counter that starts at 1 and now stands at next. */
  predicate IdsIssuedBelow(items: seq<CartItem>, next: int)
  {
    forall i :: 0 <= i < |items| ==> 1 <= items[i].id < next
  }

  /** The invariant of the service's list together with its id counter. */
  predicate WellFormed(items: seq<CartItem>, next: int)
  {
    1 <= next && UniqueProducts(items) && DistinctIds(items) && IdsIssuedBelow(items, next)
  }

  /** Every line holds a positive quantity. */
  predicate AllPositive(items: seq<CartItem>)
  {
    forall i :: 0 <= i < |items| ==> items[i].quantity > 0
  }

  /** The index of the first line for product pid, or None when there is none
      (the FirstOrDefault search every service operation starts with). */
  function FindLine(items: seq<CartItem>, pid: int): (r: Option<nat>)
    ensures r.Some? ==> r.value < |items| && items[r.value].productId == pid
    ensures r.Some? ==> forall j :: 0 <= j < r.value ==> items[j].productId != pid
    ensures r.None? <==> !HasProduct(items, pid)
  {
    if items == [] then None
    else if items[0].productId == pid then Some(0)
    else match FindLine(items[1..], pid)
      case Some(k) => Some(k + 1)
      case None =>
        assert forall i :: 0 < i < |items| ==> items[i] == items[1..][i - 1];
        None
  }

  /** A line for pid at k with none before it is the one FindLine finds. */
  lemma FindLineAt(items: seq<CartItem>, pid: int, k: nat)
    requires k < |items| && items[k].productId == pid
    requires forall j :: 0 <= j < k ==> items[j].productId != pid
    ensures FindLine(items, pid) == Some(k)
  {
  }

  /** In a list without duplicate products, the line for pid is found wherever it is. */
  lemma FindLineUnique(items: seq<CartItem>, pid: int, k: nat)
    requires UniqueProducts(items)
    requires k < |items| && items[k].productId == pid
    ensures FindLine(items, pid) == Some(k)
  {
    FindLineAt(items, pid, k);
  }

  /** How many of product pid the cart holds: the quantity of its line, 0 without one. */
  function QuantityOf(items: seq<CartItem>, pid: int): int
  {
    match FindLine(items, pid)
    case Some(k) => items[k].quantity
    case None => 0
  }

  /** The price captured in product pid's line, 0 without one. */
  function UnitPrice(items: seq<CartItem>, pid: int): real
  {
    match FindLine(items, pid)
    case Some(k) => items[k].price
    case None => 0.0
  }

  /** The id counter after adding product pid: a new line consumes one id. */
  function NextCounter(items: seq<CartItem>, pid: int, next: int): (n: int)
    ensures n == if HasProduct(items, pid) then next else next + 1
  {
    if FindLine(items, pid).Some? then next else next + 1
  }

  /** The list after AddToCart(p, q) with the counter at id: the existing line
      for p gains q, or a new line snapshotting p with quantity q and id id is
      appended at the end. */
  function AddLine(items: seq<CartItem>, p: Product, q: int, id: int): (r: seq<CartItem>)
    ensures |r| == if HasProduct(items, p.id) then |items| else |items| + 1
    ensures !HasProduct(items, p.id) ==>
      r[..|items|] == items && r[|items|] == CartItem(id, p.id, p.title, p.price, q, p.image)
    ensures forall i :: 0 <= i < |items| ==> r[i] == items[i].(quantity := r[i].quantity)
    ensures forall i :: 0 <= i < |items| && items[i].productId != p.id ==> r[i] == items[i]
    ensures HasProduct(r, p.id)
    ensures QuantityOf(r, p.id) == QuantityOf(items, p.id) + q
  {
    match FindLine(items, p.id)
    case Some(k) =>
      var r := items[k := items[k].(quantity := items[k].quantity + q)];
      FindLineAt(r, p.id, k);
      r
    case None =>
      var r := items + [CartItem(id, p.id, p.title, p.price, q, p.image)];
      FindLineAt(r, p.id, |items|);
      r
  }

  /** The list after RemoveFromCart(pid): the first line for pid is deleted and
      the others keep their order; without such a line nothing changes. */
  function RemoveLine(items: seq<CartItem>, pid: int): (r: seq<CartItem>)
    ensures !HasProduct(items, pid) ==> r == items
    ensures HasProduct(items, pid) ==> |r| == |items| - 1
    ensures UniqueProducts(items) ==> !HasProduct(r, pid)
    ensures forall i :: 0 <= i < |r| ==> r[i] in items
  {
    match FindLine(items, pid)
    case Some(k) =>
      var r := items[..k] + items[k + 1..];
      assert forall i :: 0 <= i < |r| ==> r[i] == items[if i < k then i else i + 1];
      r
    case None => items
  }

  /** The list after UpdateQuantity(pid, q): nothing without a line for pid;
      a removal when q <= 0; otherwise the line's quantity becomes q. */
  function SetQuantity(items: seq<CartItem>, pid: int, q: int): (r: seq<CartItem>)
    ensures !HasProduct(items, pid) ==> r == items
    ensures q <= 0 ==> r == RemoveLine(items, pid)
    ensures q > 0 ==> |r| == |items|
    ensures q > 0 ==> forall i :: 0 <= i < |items| ==> r[i] == items[i].(quantity := r[i].quantity)
    ensures q > 0 ==> forall i :: 0 <= i < |items| && items[i].productId != pid ==> r[i] == items[i]
    ensures q > 0 && HasProduct(items, pid) ==> QuantityOf(r, pid) == q
  {
    match FindLine(items, pid)
    case None => items
    case Some(k) =>
      if q <= 0 then RemoveLine(items, pid)
      else
        var r := items[k := items[k].(quantity := q)];
        FindLineAt(r, pid, k);
        r
  }

  /** Reference definition of removal: every line for pid filtered out. */
  function Without(items: seq<CartItem>, pid: int): seq<CartItem>
  {
    if items == [] then []
    else (if items[0].productId == pid then [] else [items[0]]) + Without(items[1..], pid)
  }

  lemma {:induction false} WithoutAppend(a: seq<CartItem>, b: seq<CartItem>, pid: int)
    ensures Without(a + b, pid) == Without(a, pid) + Without(b, pid)
  {
    if a == [] {
      assert a + b == b;
    } else {
      assert (a + b)[1..] == a[1..] + b;
      WithoutAppend(a[1..], b, pid);
    }
  }

  lemma {:induction false} WithoutAbsent(items: seq<CartItem>, pid: int)
    requires !HasProduct(items, pid)
    ensures Without(items, pid) == items
  {
    if items != [] {
      assert !HasProduct(items[1..], pid) by {
        forall i | 0 <= i < |items[1..]| ensures items[1..][i].productId != pid {
          assert items[1..][i] == items[i + 1];
        }
      }
      WithoutAbsent(items[1..], pid);
    }
  }

  /** The filter drops exactly the lines for pid and keeps the rest in order. */
  lemma {:induction false} WithoutSpec(items: seq<CartItem>, pid: int)
    ensures !HasProduct(Without(items, pid), pid)
    ensures forall x :: x in Without(items, pid) <==> x in items && x.productId != pid
  {
    if items != [] {
      WithoutSpec(items[1..], pid);
      assert items == [items[0]] + items[1..];
      forall x ensures x in items <==> x == items[0] || x in items[1..] {
      }
    }
  }

  /** A slice whose lines are all for other products does not hold pid. */
  lemma AbsentFromSlice(items: seq<CartItem>, pid: int, lo: nat, hi: nat)
    requires lo <= hi <= |items|
    requires forall i :: lo <= i < hi ==> items[i].productId != pid
    ensures !HasProduct(items[lo..hi], pid)
  {
    forall j | 0 <= j < hi - lo ensures items[lo..hi][j].productId != pid {
      assert items[lo..hi][j] == items[lo + j];
    }
  }

  /** Deleting the line at k shifts every later line down by one. */
  lemma DeletedAt(items: seq<CartItem>, k: nat, i: nat)
    requires k < |items| && i < |items| - 1
    ensures (items[..k] + items[k + 1..])[i] == items[if i < k then i else i + 1]
  {
  }

  /** When the line at k is the only one for pid, the filter deletes just it. */
  lemma WithoutSingle(items: seq<CartItem>, pid: int, k: nat)
    requires k < |items| && items[k].productId == pid
    requires !HasProduct(items[..k], pid) && !HasProduct(items[k + 1..], pid)
    ensures Without(items, pid) == items[..k] + items[k + 1..]
  {
    var before, after := items[..k], items[k + 1..];
    WithoutAbsent(before, pid);
    WithoutAbsent(after, pid);
    assert Without([items[k]], pid) == [] by {
      assert [items[k]][1..] == [];
    }
    SplitAt(items, k);
    WithoutAppend(before, [items[k]] + after, pid);
    WithoutAppend([items[k]], after, pid);
    assert [] + after == after;
  }

  /** In a cart without duplicate products, RemoveFromCart's single deletion
      is the same as filtering the product out. */
  lemma RemoveLineIsFilter(items: seq<CartItem>, pid: int)
    requires UniqueProducts(items)
    ensures RemoveLine(items, pid) == Without(items, pid)
  {
    match FindLine(items, pid)
    case None =>
      WithoutAbsent(items, pid);
    case Some(k) =>
      AbsentFromSlice(items, pid, 0, k);
      assert items[0..k] == items[..k];
      AbsentFromSlice(items, pid, k + 1, |items|);
      assert items[k + 1..|items|] == items[k + 1..];
      WithoutSingle(items, pid, k);
  }

  /** AddToCart keeps the product ids unique and the line ids distinct and
      below the counter, with the counter advanced for a new line. */
  lemma AddLinePreservesWellFormed(items: seq<CartItem>, p: Product, q: int, next: int)
    requires WellFormed(items, next)
    ensures WellFormed(AddLine(items, p, q, next), NextCounter(items, p.id, next))
  {
    var r := AddLine(items, p, q, next);
    if !HasProduct(items, p.id) {
      forall i | 0 <= i < |items| ensures r[i] == items[i] {
        assert r[..|items|][i] == r[i];
      }
    }
  }

  /** RemoveFromCart keeps the invariant; the counter does not move. */
  lemma RemoveLinePreservesWellFormed(items: seq<CartItem>, pid: int, next: int)
    requires WellFormed(items, next)
    ensures WellFormed(RemoveLine(items, pid), next)
  {
    match FindLine(items, pid)
    case None =>
    case Some(k) =>
      var r := items[..k] + items[k + 1..];
      assert RemoveLine(items, pid) == r;
      forall i | 0 <= i < |r| ensures 1 <= r[i].id < next {
        DeletedAt(items, k, i);
      }
      forall i, j | 0 <= i < j < |r|
        ensures r[i].productId != r[j].productId && r[i].id != r[j].id
      {
        DeletedAt(items, k, i);
        DeletedAt(items, k, j);
      }
  }

  /** UpdateQuantity keeps the invariant; the counter does not move. */
  lemma SetQuantityPreservesWellFormed(items: seq<CartItem>, pid: int, q: int, next: int)
    requires WellFormed(items, next)
    ensures WellFormed(SetQuantity(items, pid, q), next)
  {
    if q <= 0 {
      RemoveLinePreservesWellFormed(items, pid, next);
    }
  }

  /** Once callers add only positive amounts, as the cart's HTTP layer
      enforces, every line keeps a positive quantity across AddToCart. */
  lemma AddLineKeepsPositive(items: seq<CartItem>, p: Product, q: int, id: int)
    requires AllPositive(items) && q > 0
    ensures AllPositive(AddLine(items, p, q, id))
  {
    var r := AddLine(items, p, q, id);
    match FindLine(items, p.id)
    case Some(k) =>
      assert r == items[k := items[k].(quantity := items[k].quantity + q)];
    case None =>
      assert r == items + [CartItem(id, p.id, p.title, p.price, q, p.image)];
  }

  /** Removing a line keeps every remaining quantity positive. */
  lemma RemoveLineKeepsPositive(items: seq<CartItem>, pid: int)
    requires AllPositive(items)
    ensures AllPositive(RemoveLine(items, pid))
  {
    match FindLine(items, pid)
    case None =>
    case Some(k) =>
      var r := items[..k] + items[k + 1..];
      assert RemoveLine(items, pid) == r;
      forall i | 0 <= i < |r| ensures r[i].quantity > 0 {
        DeletedAt(items, k, i);
      }
  }

  /** UpdateQuantity never leaves a non-positive quantity, whatever its
      argument: at q <= 0 it removes the line instead of storing q. */
  lemma SetQuantityKeepsPositive(items: seq<CartItem>, pid: int, q: int)
    requires AllPositive(items)
    ensures AllPositive(SetQuantity(items, pid, q))
  {
    match FindLine(items, pid)
    case None =>
    case Some(k) =>
      if q <= 0 {
        RemoveLineKeepsPositive(items, pid);
      } else {
        assert SetQuantity(items, pid, q) == items[k := items[k].(quantity := q)];
      }
  }

  /** Adding q of a product already in the cart at k. */
  lemma AddExistingTotals(items: seq<CartItem>, p: Product, q: int, id: int, k: nat)
    requires FindLine(items, p.id) == Some(k)
    ensures TotalItems(AddLine(items, p, q, id)) == TotalItems(items) + q
    ensures TotalPrice(AddLine(items, p, q, id)) == TotalPrice(items) + Times(items[k].price, q)
    ensures UnitPrice(AddLine(items, p, q, id), p.id) == items[k].price
  {
    var line := items[k].(quantity := items[k].quantity + q);
    var r := items[k := line];
    assert AddLine(items, p, q, id) == r;
    TotalsReplaceAt(items, k, line);
    LineTotalAddQuantity(items[k], q);
    FindLineAt(r, p.id, k);
  }

  /** Adding q of a product not yet in the cart. */
  lemma AddNewTotals(items: seq<CartItem>, p: Product, q: int, id: int)
    requires FindLine(items, p.id) == None
    ensures TotalItems(AddLine(items, p, q, id)) == TotalItems(items) + q
    ensures TotalPrice(AddLine(items, p, q, id)) == TotalPrice(items) + Times(p.price, q)
    ensures UnitPrice(AddLine(items, p, q, id), p.id) == p.price
  {
    var line := CartItem(id, p.id, p.title, p.price, q, p.image);
    var r := items + [line];
    assert AddLine(items, p, q, id) == r;
    TotalsAppendLine(items, line);
    FindLineAt(r, p.id, |items|);
  }

  /** AddToCart(p, q) adds q to TotalItems and q times the line's captured
      price to TotalPrice. */
  lemma AddLineTotals(items: seq<CartItem>, p: Product, q: int, id: int)
    ensures TotalItems(AddLine(items, p, q, id)) == TotalItems(items) + q
    ensures TotalPrice(AddLine(items, p, q, id))
         == TotalPrice(items) + Times(UnitPrice(AddLine(items, p, q, id), p.id), q)
  {
    var r := AddLine(items, p, q, id);
    match FindLine(items, p.id)
    case Some(k) =>
      AddExistingTotals(items, p, q, id, k);
    case None =>
      AddNewTotals(items, p, q, id);
  }

  /** RemoveFromCart(pid) subtracts the removed line's quantity and line total. */
  lemma RemoveLineTotals(items: seq<CartItem>, pid: int)
    ensures TotalItems(RemoveLine(items, pid)) == TotalItems(items) - QuantityOf(items, pid)
    ensures TotalPrice(RemoveLine(items, pid))
         == TotalPrice(items) - Times(UnitPrice(items, pid), QuantityOf(items, pid))
  {
    match FindLine(items, pid)
    case Some(k) =>
      assert RemoveLine(items, pid) == items[..k] + items[k + 1..];
      assert Times(UnitPrice(items, pid), QuantityOf(items, pid)) == LineTotal(items[k]);
      TotalsRemoveAt(items, k);
    case None =>
  }

  /** UpdateQuantity(pid, q) with q > 0 swaps the line's old contribution for
      its new one at the same captured price. */
  lemma SetQuantityTotals(items: seq<CartItem>, pid: int, q: int)
    requires q > 0
    ensures TotalItems(SetQuantity(items, pid, q))
         == TotalItems(items) - QuantityOf(items, pid) + QuantityOf(SetQuantity(items, pid, q), pid)
    ensures UnitPrice(SetQuantity(items, pid, q), pid) == UnitPrice(items, pid)
    ensures TotalPrice(SetQuantity(items, pid, q))
         == TotalPrice(items) - Times(UnitPrice(items, pid), QuantityOf(items, pid))
            + Times(UnitPrice(items, pid), QuantityOf(SetQuantity(items, pid, q), pid))
  {
    match FindLine(items, pid)
    case Some(k) =>
      var r := items[k := items[k].(quantity := q)];
      TotalsReplaceAt(items, k, r[k]);
      FindLineAt(r, pid, k);
    case None =>
  }

  /** Adding a product not yet in the cart and then removing it restores the list. */
  lemma AddThenRemove(items: seq<CartItem>, p: Product, q: int, id: int)
    requires !HasProduct(items, p.id)
    ensures RemoveLine(AddLine(items, p, q, id), p.id) == items
  {
    var r := AddLine(items, p, q, id);
    assert r == items + [CartItem(id, p.id, p.title, p.price, q, p.image)];
    FindLineAt(r, p.id, |items|);
    assert r[..|items|] == items;
  }

  /** Removing a product after adding more of it leaves the same list as
      removing it straight away: its line goes, whatever its quantity. */
  lemma AddExistingThenRemove(items: seq<CartItem>, p: Product, q: int, id: int)
    requires HasProduct(items, p.id)
    ensures RemoveLine(AddLine(items, p, q, id), p.id) == RemoveLine(items, p.id)
  {
    var k := FindLine(items, p.id).value;
    var r := AddLine(items, p, q, id);
    assert r == items[k := items[k].(quantity := items[k].quantity + q)];
    FindLineAt(r, p.id, k);
    assert r[..k] == items[..k] && r[k + 1..] == items[k + 1..];
  }

  /** Sum of a list of integers. */
  function Sum(qs: seq<int>): int
  {
    if qs == [] then 0 else qs[0] + Sum(qs[1..])
  }

  /** The list after AddToCart(ps[i], qs[i]) for each i in turn, the counter
      advancing as the service's does. Each add carries its own Product value,
      as each request fetches the product anew. */
  function AddEach(items: seq<CartItem>, ps: seq<Product>, qs: seq<int>, next: int): seq<CartItem>
    requires |ps| == |qs|
    decreases |qs|
  {
    if qs == [] then items
    else AddEach(AddLine(items, ps[0], qs[0], next), ps[1..], qs[1..], NextCounter(items, ps[0].id, next))
  }

  /** An add keeps the price captured in the product's line, or captures the
      added product's price when it creates the line. */
  lemma AddLineUnitPrice(items: seq<CartItem>, p: Product, q: int, id: int)
    ensures UnitPrice(AddLine(items, p, q, id), p.id)
         == if HasProduct(items, p.id) then UnitPrice(items, p.id) else p.price
  {
    var r := AddLine(items, p, q, id);
    match FindLine(items, p.id)
    case Some(k) =>
      FindLineAt(r, p.id, k);
    case None =>
      FindLineAt(r, p.id, |items|);
  }

  /** Repeated adds of one product id accumulate, whatever title, price or
      image each fetched Product carries: its quantity grows by the sum of the
      amounts, at most one line is created for it, and that line keeps the
      price captured by the add that created it. */
  lemma {:induction false} AddEachSumsQuantities(items: seq<CartItem>, ps: seq<Product>, qs: seq<int>, next: int, pid: int)
    requires |ps| == |qs|
    requires forall i :: 0 <= i < |ps| ==> ps[i].id == pid
    ensures QuantityOf(AddEach(items, ps, qs, next), pid) == QuantityOf(items, pid) + Sum(qs)
    ensures |AddEach(items, ps, qs, next)|
         == if qs == [] || HasProduct(items, pid) then |items| else |items| + 1
    ensures qs != [] ==>
      UnitPrice(AddEach(items, ps, qs, next), pid)
        == if HasProduct(items, pid) then UnitPrice(items, pid) else ps[0].price
    decreases |qs|
  {
    if qs != [] {
      var r := AddLine(items, ps[0], qs[0], next);
      AddLineUnitPrice(items, ps[0], qs[0], next);
      AddEachSumsQuantities(r, ps[1..], qs[1..], NextCounter(items, pid, next), pid);
    }
  }

  /** The product used by the service's unit tests: id 1, price 50, and no
      primary image (the tests fill only the image list). */
  const TestProduct := Product(1, "Test Product", 50.0, "")

  /** Adding the test product once: one line, TotalItems 1, TotalPrice 50. */
  lemma ScenarioAddNew()
    ensures var items := AddLine([], TestProduct, 1, 1);
      |items| == 1 && items[0].productId == 1 && items[0].title == "Test Product"
      && TotalItems(items) == 1 && TotalPrice(items) == 50.0
  {
    var items := AddLine([], TestProduct, 1, 1);
    assert items == [] + [CartItem(1, 1, "Test Product", 50.0, 1, "")];
  }

  /** Adding the test product with 1 and then 2: one line of quantity 3,
      TotalItems 3, TotalPrice 150. */
  lemma ScenarioAddExisting()
    ensures var items := AddLine(AddLine([], TestProduct, 1, 1), TestProduct, 2, 2);
      |items| == 1 && items[0].quantity == 3 && TotalItems(items) == 3 && TotalPrice(items) == 150.0
  {
    var once := AddLine([], TestProduct, 1, 1);
    assert once == [] + [CartItem(1, 1, "Test Product", 50.0, 1, "")];
    FindLineAt(once, 1, 0);
    var twice := AddLine(once, TestProduct, 2, 2);
    assert twice == [CartItem(1, 1, "Test Product", 50.0, 3, "")];
  }

  /** Adding then removing the test product: empty list, zero totals. */
  lemma ScenarioAddRemove()
    ensures var items := RemoveLine(AddLine([], TestProduct, 1, 1), 1);
      items == [] && TotalItems(items) == 0 && TotalPrice(items) == 0.0
  {
    AddThenRemove([], TestProduct, 1, 1);
  }

  /** Updating the test product to 5: one line of quantity 5, TotalItems 5,
      TotalPrice 250; updating it to 0 empties the cart. */
  lemma ScenarioUpdate()
    ensures var items := SetQuantity(AddLine([], TestProduct, 1, 1), 1, 5);
      |items| == 1 && items[0].quantity == 5 && TotalItems(items) == 5 && TotalPrice(items) == 250.0
    ensures SetQuantity(AddLine([], TestProduct, 1, 1), 1, 0) == []
  {
    var once := AddLine([], TestProduct, 1, 1);
    assert once == [] + [CartItem(1, 1, "Test Product", 50.0, 1, "")];
    FindLineAt(once, 1, 0);
    assert SetQuantity(once, 1, 5) == [CartItem(1, 1, "Test Product", 50.0, 5, "")];
    AddThenRemove([], TestProduct, 1, 1);
  }
}
