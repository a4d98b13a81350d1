/** The in-memory cart service (BSCS/Services/CartService.cs): one cart
    summary whose line list it edits in place, and a counter that hands out
    line ids. Every method is specified by the list function of CartLines that
    it carries out, so the lemmas proved there apply to the service's state. */
module CartServices {
  import opened CartModel
  import opened CartSummaries
  import opened CartLines

  /** What GetCart hands back: the lines and both totals, as values. */
  datatype CartView = CartView(items: seq<CartItem>, totalPrice: real, totalItems: int)

  class CartService {
    const cart: CartSummary
    var nextCartItemId: int

    /** The service's invariant: no product twice, line ids distinct and
        drawn from the counter, and cached totals matching the lines. */
    ghost predicate Valid()
      reads this, cart
    {
      WellFormed(cart.items, nextCartItemId) && cart.TotalsCurrent()
    }

    /** A new service holds an empty cart, and its first line will get id 1. */
    constructor ()
      ensures Valid() && fresh(cart)
      ensures cart.items == [] && cart.totalItems == 0 && cart.totalPrice == 0.0
      ensures nextCartItemId == 1
    {
      cart := new CartSummary();
      nextCartItemId := 1;
    }

    /** Recomputes the totals and returns the cart; no line changes. */
    method GetCart() returns (view: CartView)
      requires Valid()
      modifies cart
      ensures Valid() && cart.items == old(cart.items)
      ensures view == CartView(cart.items, TotalPrice(cart.items), TotalItems(cart.items))
    {
      cart.RecalculateTotals();
      view := CartView(cart.items, cart.totalPrice, cart.totalItems);
    }

    /** Adds quantity of product to its line, or appends a new line for it
        that takes the next id; quantity is not checked here. */
    method AddToCart(product: Product, quantity: int := 1)
      requires Valid()
      modifies this, cart
      ensures Valid()
      ensures cart.items == AddLine(old(cart.items), product, quantity, old(nextCartItemId))
      ensures nextCartItemId == NextCounter(old(cart.items), product.id, old(nextCartItemId))
    {
      ghost var before, counter := cart.items, nextCartItemId;
      var existing := FindLine(cart.items, product.id);
      match existing {
        case Some(k) =>
          cart.items := cart.items[k := cart.items[k].(quantity := cart.items[k].quantity + quantity)];
        case None =>
          cart.items := cart.items
            + [CartItem(nextCartItemId, product.id, product.title, product.price, quantity, product.image)];
          nextCartItemId := nextCartItemId + 1;
      }
      assert cart.items == AddLine(before, product, quantity, counter)
          && nextCartItemId == NextCounter(before, product.id, counter);
      assert WellFormed(cart.items, nextCartItemId) by {
        AddLinePreservesWellFormed(before, product, quantity, counter);
      }
      cart.RecalculateTotals();
    }

    /** Deletes the line for productId; without one, nothing changes. */
    method RemoveFromCart(productId: int)
      requires Valid()
      modifies cart
      ensures Valid()
      ensures cart.items == RemoveLine(old(cart.items), productId)
      ensures !HasProduct(old(cart.items), productId) ==> unchanged(cart)
    {
      var item := FindLine(cart.items, productId);
      if item.Some? {
        RemoveLinePreservesWellFormed(cart.items, productId, nextCartItemId);
        var k := item.value;
        cart.items := cart.items[..k] + cart.items[k + 1..];
        cart.RecalculateTotals();
      }
    }

    /** Sets the quantity of productId's line, removing the line when
        quantity <= 0; without such a line, nothing changes. */
    method UpdateQuantity(productId: int, quantity: int)
      requires Valid()
      modifies cart
      ensures Valid()
      ensures cart.items == SetQuantity(old(cart.items), productId, quantity)
      ensures !HasProduct(old(cart.items), productId) ==> unchanged(cart)
    {
      var item := FindLine(cart.items, productId);
      if item.Some? {
        if quantity <= 0 {
          RemoveFromCart(productId);
        } else {
          SetQuantityPreservesWellFormed(cart.items, productId, quantity, nextCartItemId);
          var k := item.value;
          cart.items := cart.items[k := cart.items[k].(quantity := quantity)];
          cart.RecalculateTotals();
        }
      }
    }

    /** Deletes every line; the id counter keeps its value, so ids are not reused. */
    method ClearCart()
      requires Valid()
      modifies cart
      ensures Valid()
      ensures cart.items == [] && cart.totalItems == 0 && cart.totalPrice == 0.0
    {
      cart.items := [];
      cart.RecalculateTotals();
    }
  }

  /* The service's unit-test scenarios, followed through the method
     contracts alone: what any caller of the service can conclude. */

  /** One add of the test product: one line for product 1, one item, price 50. */
  method AddNewProductScenario() returns (view: CartView)
    ensures |view.items| == 1 && view.items[0].productId == 1 && view.items[0].title == "Test Product"
    ensures view.totalItems == 1 && view.totalPrice == 50.0
  {
    var service := new CartService();
    service.AddToCart(TestProduct, 1);
    view := service.GetCart();
    ScenarioAddNew();
  }

  /** Adds of 1 and then 2 merge into one line of quantity 3. */
  method AddExistingProductScenario() returns (view: CartView)
    ensures |view.items| == 1 && view.items[0].quantity == 3
    ensures view.totalItems == 3 && view.totalPrice == 150.0
  {
    var service := new CartService();
    service.AddToCart(TestProduct, 1);
    service.AddToCart(TestProduct, 2);
    view := service.GetCart();
    ScenarioAddExisting();
  }

  /** Removing the only product leaves an empty cart with zero totals. */
  method RemoveScenario() returns (view: CartView)
    ensures view.items == [] && view.totalItems == 0 && view.totalPrice == 0.0
  {
    var service := new CartService();
    service.AddToCart(TestProduct, 1);
    service.RemoveFromCart(1);
    view := service.GetCart();
    ScenarioAddRemove();
  }

  /** Updating the test product to 5 gives one line of quantity 5, price 250. */
  method UpdateScenario() returns (view: CartView)
    ensures |view.items| == 1 && view.items[0].quantity == 5
    ensures view.totalItems == 5 && view.totalPrice == 250.0
  {
    var service := new CartService();
    service.AddToCart(TestProduct, 1);
    service.UpdateQuantity(1, 5);
    view := service.GetCart();
    ScenarioUpdate();
  }

  /** Clearing empties the cart and zeroes the totals, but the next line id
      stays at 2: the id handed out before the clear is not reused. */
  method ClearScenario() returns (view: CartView, next: int)
    ensures view.items == [] && view.totalItems == 0 && view.totalPrice == 0.0
    ensures next == 2
  {
    var service := new CartService();
    service.AddToCart(TestProduct, 2);
    service.ClearCart();
    view := service.GetCart();
    next := service.nextCartItemId;
  }
}
