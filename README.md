# Ecommerce: products, inventory list and shopping cart

A Dafny model of the core of `Ecommerce.cpp`, a small catalog-and-cart program:

- **Products** (`products.dfy`, module `Products`). A `Product` is a class with an immutable id, name and variant, and with price and stock that change in place.
  - The base stock update adds a signed amount and clamps the result at zero.
  - The electronics variant's override does the same and also raises a handling-fee notice when the amount is a removal. Virtual dispatch is a `match` on the product's `kind`.
  - `applyDiscount(rate)` takes `price * rate` off the price and returns that amount.
  - Equality compares ids only.
- **Inventory list** (`inventory.dfy`, module `Inventory`). An ordered list of non-owning product references that tolerates duplicates.
  - It supports append, erase-by-id (the erase-remove idiom), a first-match linear search and size.
  - The functions `WithoutId` and `FirstWithId` define what removal and lookup return, and the lemmas relate them to each other.
- **Shopping cart** (`cart.dfy`, module `Cart`). An inventory list plus a running total that is updated incrementally and never recomputed.
  - Adding a product that has stock appends it, adds its price to the total and takes one unit out through the virtual stock update. Adding one without stock changes nothing.
  - The cart discount walks the items in insertion order, discounts each in place and subtracts each returned amount from the total.
  - Products are class references, so a product added twice is held twice and discounted twice, the second time on the reduced price. `Walked` and `Removed` state exactly what the walk does in that case.
  - The lemmas show that with distinct references every price drops by the fraction `rate`, and a total that was the price sum stays the price sum.
- **Scenarios** (`scenarios.dfy`, module `Scenarios`). The demonstration run of `main` and a few small runs, as methods whose contracts fix the outcome.

Console messages that depend on the state are returned as a sequence of `Notice` values: the out-of-stock error and the electronics handling fee. Prices are exact `real` numbers.

Stock is meant never to be negative, but the constructor (`Ecommerce.cpp:27`) does not check the stock it is given. The model follows the code, so stock is not a class invariant. What is proved is that every stock update leaves a non-negative stock (`StockAfter`, `StockNeverNegative`).

## Model

| member | source | states |
|---|---|---|
| Products.StockAfter | Ecommerce.cpp:41-44 | the stock after an update is `max(0, stock + amount)`: never negative, at least the signed sum, and equal to that sum or to 0 |
| Products.StockNeverNegative | Ecommerce.cpp:41-44 | after any non-empty sequence of stock updates, whatever the starting stock, the stock is non-negative |
| Products.UnitRemovals | Ecommerce.cpp:41-44 | taking `k` units out one at a time (as the cart does) leaves the same stock as one update by `-k`: the clamp never loses a unit early |
| Products.Product.constructor | Ecommerce.cpp:27 | a base product holds the given id, name, price and stock unchecked |
| Products.Product.Electronics | Ecommerce.cpp:71 | an electronics product holds the given fields and its warranty |
| Products.Product.SetPrice | Ecommerce.cpp:38 | the price becomes the given value and nothing else changes |
| Products.Product.BaseUpdateStock | Ecommerce.cpp:41-44 | the base update sets the stock to `StockAfter(old stock, amount)` and touches nothing else |
| Products.Product.ElectronicsUpdateStock | Ecommerce.cpp:79-84 | the override leaves the same stock as the base update and raises a handling-fee notice exactly when the amount is negative |
| Products.Product.UpdateStock | Ecommerce.cpp:79-84 | the virtual update leaves the same stock for every variant; only electronics removals add the handling-fee notice |
| Products.Product.ApplyDiscount | Ecommerce.cpp:47-51 | returns `old price * rate` and lowers the price by exactly that amount |
| Products.DiscountsCompound | Ecommerce.cpp:47-51 | `n` discounts at rate `r` leave `price * (1-r)^n` |
| Products.TwoDiscounts | Ecommerce.cpp:47-51 | two discounts end at `p*(1-r)*(1-r)`, which equals one discount at `2r` iff the price or the rate is 0 |
| Products.Product.Equals | Ecommerce.cpp:54-56 | products are equal iff their ids are, whatever their name, price or stock |
| Inventory.WithoutId | Ecommerce.cpp:106-109 | the removal result holds only elements of the input with a different id, and holds every such element |
| Inventory.WithoutIdCount | Ecommerce.cpp:106-109 | removal keeps each element with a different id exactly as often as it occurred and drops all with the id |
| Inventory.WithoutIdAppend | Ecommerce.cpp:106-109 | removal commutes with concatenation, so the survivors keep their relative order |
| Inventory.WithoutIdUnchanged | Ecommerce.cpp:106-109 | removal leaves the list unchanged iff no element has the id |
| Inventory.RemoveIdempotent | Ecommerce.cpp:106-109 | removing the same id twice is the same as removing it once |
| Inventory.IndexOfId | Ecommerce.cpp:112-119 | the scan position is the first index whose element has the id, or the length when none has |
| Inventory.FirstWithId | Ecommerce.cpp:112-119 | the lookup result is null iff no element has the id, and otherwise an element of the list with that id |
| Inventory.RemoveThenFind | Ecommerce.cpp:106-119 | after removing an id, a lookup of that id finds nothing |
| Inventory.AddThenFind | Ecommerce.cpp:101-119 | after an append, a lookup returns the earlier match if there is one, else the appended element if its id matches, else null |
| Inventory.InventoryList.Add | Ecommerce.cpp:101-103 | the list becomes the old list with the item appended at the end |
| Inventory.InventoryList.Remove | Ecommerce.cpp:106-109 | the erase loop leaves exactly `WithoutId(old list, item's id)` |
| Inventory.InventoryList.Find | Ecommerce.cpp:112-119 | the scan returns the first element with the id, or null iff none has it |
| Inventory.InventoryList.Size | Ecommerce.cpp:134-136 | returns the number of elements |
| Cart.PriceSumAppend | Ecommerce.cpp:152-160 | appending a product adds its current price to the price sum, so an add keeps a total equal to the price sum |
| Cart.SumDiscounted | Ecommerce.cpp:174-181 | discounting every summand at one rate discounts the sum at that rate |
| Cart.RemovedDistinct | Ecommerce.cpp:174-181 | without repeated references the amounts a cart discount removes add up to `rate` times the price sum |
| Cart.WalkStep | Ecommerce.cpp:176-179 | one step of the discount loop discounts every position holding the current reference once more and leaves the rest alone |
| Cart.WalkedAll | Ecommerce.cpp:174-181 | after the loop every position has been discounted once per occurrence of its reference in the cart |
| Cart.DistinctDiscount | Ecommerce.cpp:174-181 | with distinct references every price becomes `Discounted(price, rate)`, the price sum is discounted at `rate`, and the total drops by `rate` times the old price sum |
| Cart.DistinctKeepsTotal | Ecommerce.cpp:174-181 | with distinct references a total equal to the price sum stays equal to the new price sum |
| Cart.ShoppingCart.constructor | Ecommerce.cpp:147 | a new cart has an empty list and a total of 0 |
| Cart.ShoppingCart.AddProduct | Ecommerce.cpp:152-160 | without stock: an out-of-stock notice and no change; otherwise the product is appended, its price added to the total, its stock lowered by exactly 1, and the variant's notice returned |
| Cart.ShoppingCart.AddAssign | Ecommerce.cpp:163-166 | behaves exactly as AddProduct and returns the cart itself |
| Cart.ShoppingCart.CalculateTotal | Ecommerce.cpp:169-171 | returns the tracked total, not a recomputed sum |
| Cart.ShoppingCart.ApplyCartDiscount | Ecommerce.cpp:174-181 | the list is unchanged; every price ends at its old price discounted once per occurrence of its reference (`Walked`); the total drops by the sum of the amounts removed in order (`Removed`); the frame lets only prices change, so stock is untouched |
| Scenarios.StockAndFill | Ecommerce.cpp:214-233 | the run's stock updates and adds give a total of 510, stocks 3 and 1, two handling-fee notices and the pen's rejection |
| Scenarios.Demonstration | Ecommerce.cpp:212-263 | the whole demonstration run ends with total 459, prices 9 and 450, the phone found by id 2, and only the book left in the inventory |
| Scenarios.InventoryRun | Ecommerce.cpp:245-255 | the inventory part of the run finds the phone by id 2 and keeps only the book after removing the phone |
| Scenarios.AddThenDiscount | Ecommerce.cpp:152-181 | adding an item priced 10 with 5 units gives total 10 and stock 4; a 10% discount gives 9 for the total and the price |
| Scenarios.OutOfStockRejected | Ecommerce.cpp:152-156 | adding an item with no stock returns the out-of-stock notice and leaves an empty cart, total 0 and stock 0 |
| Scenarios.ElectronicsClamp | Ecommerce.cpp:79-84 | an electronics item with 3 units goes to 2 and then clamps at 0, with a handling-fee notice each time |
| Scenarios.AddTwice | Ecommerce.cpp:101-103 | nothing stops the same product from being added twice: the cart holds it twice, the total is 20 and two units are gone |
| Scenarios.AliasedDiscount | Ecommerce.cpp:174-181 | a product held twice is discounted twice (10 to 8.1); the tracked total ends at 18.1 while the entries sum to 16.2 |
| Scenarios.SameItemTwice | Ecommerce.cpp:174-181 | the walk over a reference held twice compounds the discount and removes 1 and then 0.9 |
| Scenarios.TwoItemDiscount | Ecommerce.cpp:174-181 | the walk over two different items priced 10 and 500 gives 9 and 450 and removes 51 |

## Left out

- Console output is not modelled: the `print` methods, `printContents`, the discount-percentage echo of `applyCartDiscount` and the message of `main`'s equality check. These have no effect on state. The out-of-stock error and the handling-fee notice are returned as `Notice` values.
- `Order` (`Ecommerce.cpp:192-209`) is not modelled: it only stores an id, a date and a cart reference, and it prints them.
- `new`/`delete`, the destructors and the `Discountable` base class are not modelled. Memory is managed by Dafny, and the discount capability is the `ApplyDiscount` method of `Product`.
- The getters (`getId`, `getName`, `getPrice`, `getStock`, `getWarranty`, `getData`) are not separate members: the model reads the fields directly, and the warranty is read from `kind`.
- `InventoryList<T>` is modelled only for product references, the one instantiation the program uses.
- Prices, totals and rates are exact reals, so IEEE `double` rounding is not modelled.
- Stock is an unbounded integer, so the undefined behaviour of 32-bit overflow in `stock += amount` is not modelled.
- Cart.ShoppingCart.ApplyCartDiscount: the distinct-references consequences are proved about `Walked` and `Removed` in the lemmas `WalkedAll`, `DistinctDiscount` and `DistinctKeepsTotal`, not restated in the method's ensures. That stock is unchanged follows from the `modifies items.data`price` frame rather than from an ensures clause.
- Cart.ShoppingCart.AddProduct: the property that an add keeps a total equal to the price sum is the lemma `PriceSumAppend` combined with the method's ensures, not a clause of its own.
