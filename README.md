# Shopping cart aggregate of BSCS, in Dafny

This project models the in-memory shopping cart of the BSCS shopping-cart API. The
cart service owns one `CartSummary`. The summary holds the cart lines in insertion
order and two cached totals. The service adds products, removes them, changes their
quantities and empties the cart. It draws each new line's id from a counter that
starts at 1 and is never reset.

Files and modules:

- `cart_model.dfy`, module `CartModel`: the `CartItem` line record, the fields of
  `Product` that the cart reads, and an `Option` type.
- `cart_summary.dfy`, module `CartSummaries`: the two totals as folds over the lines
  (`TotalItems`, `TotalPrice`), their additivity lemmas, and the class
  `CartSummary` with `RecalculateTotals`.
- `cart_lines.dfy`, module `CartLines`: the cart's line list as a value.
  - `FindLine` is the `FirstOrDefault` search.
  - `AddLine`, `RemoveLine` and `SetQuantity` are the list each service operation
    leaves behind.
  - `WellFormed` is the invariant: one line per product, distinct line ids, every id
    in `[1, counter)`.
  - The lemmas show what the operations preserve and how they change the totals.
- `cart_service.dfy`, module `CartServices`: the class `CartService`.
  - It has a `const cart: CartSummary` and the counter `nextCartItemId`.
  - Each method is proved to leave exactly the list given by its `CartLines`
    function, and to keep `Valid()`: `WellFormed` plus totals equal to the folds.
  - Five client methods follow the service's unit-test scenarios using only these
    contracts.

Prices are C# `decimal`, which is exact, so they are `real` here. Quantities, ids and
the counter are unbounded `int`. Price × quantity is `Times(price, n)`, the n-fold sum
of the price. `TimesIsProduct` proves that it equals `price * n`. The lemmas about
totals then need only linear arithmetic.

The service does not keep quantities positive. `AddToCart` adds any integer to a
line (BSCS/Services/CartService.cs:31). Only the HTTP layer rejects `quantity <= 0` on
add and `quantity < 0` on update (BSCS/Controllers/CartController.cs:58, 118). So the
service methods here take any quantity, as the code does. Positivity is proved as a
conditional property instead: it is kept when adds are positive
(`AddLineKeepsPositive`). Removal and update keep it for any argument
(`RemoveLineKeepsPositive`, `SetQuantityKeepsPositive`).

## Model

| member | source | states |
|---|---|---|
| CartSummaries.TotalItems | BSCS/Models/CartSummary.cs:28 | the fold `Items.Sum(x => x.Quantity)`: 0 for no lines, and at least the number of lines when every quantity is positive |
| CartSummaries.LineTotal | BSCS/Models/CartSummary.cs:29 | one line's `Price * Quantity`: 0 at quantity 0, never negative for a non-negative price and quantity |
| CartSummaries.TotalPrice | BSCS/Models/CartSummary.cs:29 | the fold `Items.Sum(x => x.Price * x.Quantity)`: 0 for no lines, never negative when no line has a negative price or quantity |
| CartSummaries.TimesIsProduct | BSCS/Models/CartSummary.cs:29 | the line cost used in the totals is exactly price times quantity, for every integer quantity |
| CartSummaries.TimesAdd | BSCS/Models/CartSummary.cs:29 | a cost at one price distributes over a sum of quantities |
| CartSummaries.LineTotalAddQuantity | BSCS/Services/CartService.cs:31 | raising a line's quantity by q raises its price × quantity by q times its captured price |
| CartSummaries.TotalsAppend | BSCS/Models/CartSummary.cs:28-29 | both totals of a concatenation are the sums of the parts' totals |
| CartSummaries.TotalsAppendLine | BSCS/Models/CartSummary.cs:28-29 | appending a line adds its quantity to TotalItems and its price × quantity to TotalPrice |
| CartSummaries.TotalsRemoveAt | BSCS/Models/CartSummary.cs:28-29 | deleting a line subtracts its quantity and its price × quantity |
| CartSummaries.TotalsReplaceAt | BSCS/Models/CartSummary.cs:28-29 | replacing a line swaps its contribution to both totals for the new line's |
| CartSummaries.CartSummary.constructor | BSCS/Models/CartSummary.cs:11-21 | a new summary has no lines, TotalItems 0 and TotalPrice 0, and its totals match its lines |
| CartSummaries.CartSummary.RecalculateTotals | BSCS/Models/CartSummary.cs:26-30 | lines untouched; TotalItems becomes the sum of quantities and TotalPrice the sum of price × quantity; both depend on the unchanged lines only, so a second call changes nothing |
| CartLines.FindLine | BSCS/Services/CartService.cs:27 | returns the index of the first line for the product, or None exactly when no line is for it |
| CartLines.FindLineUnique | BSCS/Services/CartService.cs:59 | in a cart with one line per product, the search finds that product's line wherever it stands |
| CartLines.NextCounter | BSCS/Services/CartService.cs:29-37 | the counter after an add: unchanged when the product already has a line, one higher exactly when `_nextCartItemId++` issues an id for a new line |
| CartLines.AddLine | BSCS/Services/CartService.cs:27-44 | an existing product keeps the line count and only quantities change; a new product appends exactly one line at the end with the next id, the product's id, title, price and image and the given quantity; lines of other products are unchanged; the product is then present and its quantity has grown by the argument |
| CartLines.RemoveLine | BSCS/Services/CartService.cs:59-63 | no change when the product is absent; otherwise one line fewer; with unique products the product is gone; no line is invented |
| CartLines.SetQuantity | BSCS/Services/CartService.cs:77-90 | no change when the product is absent; at quantity <= 0 exactly RemoveLine; otherwise same length, only quantities change, lines of other products unchanged, and the product's quantity becomes the argument |
| CartLines.WithoutSpec | BSCS/Services/CartService.cs:59-63 | the reference filter keeps exactly the lines of other products and none for the removed one |
| CartLines.RemoveLineIsFilter | BSCS/Services/CartService.cs:55-66 | with one line per product, removal equals filtering the product out, so the other lines keep their order |
| CartLines.AddLinePreservesWellFormed | BSCS/Services/CartService.cs:27-44 | adding keeps product ids unique and line ids distinct, each at least 1 and below the counter, where the counter advances by one exactly when a line is created |
| CartLines.RemoveLinePreservesWellFormed | BSCS/Services/CartService.cs:55-66 | removing keeps the same invariant with the counter unchanged |
| CartLines.SetQuantityPreservesWellFormed | BSCS/Services/CartService.cs:73-90 | updating keeps the same invariant with the counter unchanged |
| CartLines.AddLineKeepsPositive | BSCS/Controllers/CartController.cs:58 | when callers add only positive amounts, as the HTTP layer requires, every line keeps a positive quantity |
| CartLines.RemoveLineKeepsPositive | BSCS/Services/CartService.cs:59-63 | removal keeps every remaining quantity positive |
| CartLines.SetQuantityKeepsPositive | BSCS/Services/CartService.cs:80-87 | an update never stores a non-positive quantity: it removes the line instead |
| CartLines.AddExistingTotals | BSCS/Services/CartService.cs:27-32 | adding q to an existing line adds q to TotalItems and q times that line's captured price to TotalPrice, and keeps the line's price |
| CartLines.AddNewTotals | BSCS/Services/CartService.cs:35-43 | adding a new product adds q to TotalItems and q times the product's price to TotalPrice |
| CartLines.AddLineTotals | BSCS/Services/CartService.cs:27-46 | every add raises TotalItems by q and TotalPrice by q times the unit price held in the product's line |
| CartLines.RemoveLineTotals | BSCS/Services/CartService.cs:59-63 | removal lowers TotalItems by the line's quantity and TotalPrice by its price × quantity; an absent product changes neither |
| CartLines.SetQuantityTotals | BSCS/Services/CartService.cs:84-87 | a positive update swaps the line's old contribution for the new quantity at the same captured price |
| CartLines.AddThenRemove | BSCS/Services/CartService.cs:35-62 | adding a product not in the cart and then removing it gives back the original lines |
| CartLines.AddExistingThenRemove | BSCS/Services/CartService.cs:27-62 | removing a product after adding more of it gives the same lines as removing it straight away |
| CartLines.AddLineUnitPrice | BSCS/Services/CartService.cs:27-43 | an add keeps the price already captured in the product's line, and a new line captures the added product's price |
| CartLines.AddEachSumsQuantities | BSCS/Services/CartService.cs:27-44 | repeated adds with the same product id, each with its own fetched title, price and image, raise that product's quantity by the sum of the amounts, create at most one line, and leave the price captured by the add that created the line (later prices are ignored) |
| CartLines.ScenarioAddNew | BSCS.Test/Services/CartServiceTests.cs:37-46 | adding the test product once gives one line for product 1 titled "Test Product", TotalItems 1 and TotalPrice 50 |
| CartLines.ScenarioAddExisting | BSCS.Test/Services/CartServiceTests.cs:63-71 | adding 1 then 2 gives one line of quantity 3, TotalItems 3 and TotalPrice 150 |
| CartLines.ScenarioAddRemove | BSCS.Test/Services/CartServiceTests.cs:87-96 | add then remove gives no lines and zero totals |
| CartLines.ScenarioUpdate | BSCS.Test/Services/CartServiceTests.cs:112-122 | updating to 5 gives quantity 5, TotalItems 5 and TotalPrice 250; updating to 0 empties the cart |
| CartServices.CartService.constructor | BSCS/Services/CartService.cs:9-15 | a new service has an empty cart with zero totals, the counter at 1, and satisfies its invariant |
| CartServices.CartService.GetCart | BSCS/Services/CartService.cs:17-21 | no line changes, the invariant holds, and the returned totals are the sums over the current lines |
| CartServices.CartService.AddToCart | BSCS/Services/CartService.cs:23-53 | the lines become AddLine of the old lines with the old counter; the counter advances exactly when a line is created; the invariant holds |
| CartServices.CartService.RemoveFromCart | BSCS/Services/CartService.cs:55-71 | the lines become RemoveLine of the old lines; when the product is absent the cart object is untouched; the invariant holds |
| CartServices.CartService.UpdateQuantity | BSCS/Services/CartService.cs:73-96 | the lines become SetQuantity of the old lines, so quantity <= 0 removes; when the product is absent the cart object is untouched; the invariant holds |
| CartServices.AddNewProductScenario | BSCS.Test/Services/CartServiceTests.cs:24-46 | through the service's contracts alone: after one add of the test product the returned cart has one line for product 1 titled "Test Product", TotalItems 1 and TotalPrice 50 |
| CartServices.AddExistingProductScenario | BSCS.Test/Services/CartServiceTests.cs:50-71 | through the service's contracts: adds of 1 and 2 give one line of quantity 3, TotalItems 3 and TotalPrice 150 |
| CartServices.RemoveScenario | BSCS.Test/Services/CartServiceTests.cs:75-96 | through the service's contracts: add then remove returns no lines and zero totals |
| CartServices.UpdateScenario | BSCS.Test/Services/CartServiceTests.cs:100-122 | through the service's contracts: updating to 5 returns one line of quantity 5, TotalItems 5 and TotalPrice 250 |
| CartServices.ClearScenario | BSCS.Test/Services/CartServiceTests.cs:126-147 | through the service's contracts: add 2 then clear returns no lines and zero totals, and the counter still stands at 2 (BSCS/Services/CartService.cs:98-110 does not reset it) |
| CartServices.CartService.ClearCart | BSCS/Services/CartService.cs:98-110 | no lines and both totals 0; the counter is outside the method's frame, so ids are never reused |

## Left out

- Logging and the `try`/`catch` blocks that swallow exceptions in every service method. With unbounded integers and exact reals the modelled operations cannot fault.
- CartServices.CartService.AddToCart: does not model C# `int` overflow of `Quantity +=` or of the counter, because quantities and ids are unbounded here.
- CartSummaries.CartSummary.RecalculateTotals: does not model the overflow exception of `Sum` over `int`, nor the range and 28-digit precision limits of `decimal`.
- Concurrency. The cart is one shared instance with no locking (BSCS/Program.cs:22), so concurrent adds can lose an update. The model is sequential.
- Aliasing. `GetCart` returns the live `CartSummary`, so a caller could change it. `CartItem` is a mutable class changed in place. In the model `GetCart` returns a value copy (`CartView`), and each line is a value replaced at its index in the list.
- The HTTP controllers (`CartController`, `ProductsController`). Their quantity checks appear only as the hypothesis of `AddLineKeepsPositive`.
- The product catalog client and service (`ProductApiClient`, `ProductService`). They are network I/O, and query strings rely on `Uri.EscapeDataString` and culture-dependent formatting. The product an add uses is a parameter.
- Host startup and dependency wiring (`Program.cs`). The interfaces `ICartService`, `IProductService` and `IProductApiClient`, and the data-only models `Category` and the unused `Product` fields (slug, description, category, image list).
