/** Catalog entries: the base product, its electronics variant, the stock
    update with its clamp at zero and the percentage discount. */
module Products {

  /** Informational notices that the system writes to the console and whose
      triggering condition and content depend on the state. */
  datatype Notice = OutOfStock(id: int) | HandlingFee(id: int)

  /** The concrete variant of a product: the base one, or an electronics item
      that also carries its warranty in months. */
  datatype Kind = Plain | Electronics(warranty: int)

  /** Stock left by `updateStock(amount)`: the signed sum, clamped at zero. */
  function StockAfter(stock: int, amount: int): (r: int)
    ensures r >= 0 && r >= stock + amount
    ensures r == stock + amount || r == 0
  {
    if stock + amount < 0 then 0 else stock + amount
  }

  /** Stock left by a sequence of `updateStock` calls, first amount first. */
  function StockAfterAll(stock: int, amounts: seq<int>): int
    decreases |amounts|
  {
    if amounts == [] then stock else StockAfterAll(StockAfter(stock, amounts[0]), amounts[1..])
  }

  /** No sequence of stock updates leaves a negative stock behind. */
  lemma {:induction false} StockNeverNegative(stock: int, amounts: seq<int>)
    requires stock >= 0 || amounts != []
    ensures StockAfterAll(stock, amounts) >= 0
    decreases |amounts|
  {
    if amounts != [] {
      StockNeverNegative(StockAfter(stock, amounts[0]), amounts[1..]);
    }
  }

  /** `k` copies of `x`. */
  function Repeat(x: int, k: nat): (r: seq<int>)
    ensures |r| == k && forall i :: 0 <= i < k ==> r[i] == x
  {
    if k == 0 then [] else [x] + Repeat(x, k - 1)
  }

  /** Taking units out one at a time (as the cart does) leaves the same stock
      as taking them all out at once: the clamp never loses a unit early. */
  lemma {:induction false} UnitRemovals(stock: int, k: nat)
    requires stock >= 0 || k > 0
    ensures StockAfterAll(stock, Repeat(-1, k)) == StockAfter(stock, -(k as int))
    decreases k
  {
    if k > 0 {
      assert Repeat(-1, k)[1..] == Repeat(-1, k - 1);
      UnitRemovals(StockAfter(stock, -1), k - 1);
    }
  }

  /** Amount one `applyDiscount(rate)` takes off `price`. */
  function DiscountAmount(price: real, rate: real): real
  {
    price * rate
  }

  /** Price left by one `applyDiscount(rate)`. */
  function Discounted(price: real, rate: real): real
  {
    price - DiscountAmount(price, rate)
  }

  /** Price left by `n` successive discounts at the same rate. */
  function DiscountedN(price: real, rate: real, n: nat): real
  {
    if n == 0 then price else Discounted(DiscountedN(price, rate, n - 1), rate)
  }

  function Pow(x: real, n: nat): real
  {
    if n == 0 then 1.0 else x * Pow(x, n - 1)
  }

  /** Discounts compound: each one applies to the already reduced price. */
  lemma {:induction false} DiscountsCompound(price: real, rate: real, n: nat)
    ensures DiscountedN(price, rate, n) == price * Pow(1.0 - rate, n)
  {
    if n > 0 {
      DiscountsCompound(price, rate, n - 1);
      var q := Pow(1.0 - rate, n - 1);
      assert price * q * (1.0 - rate) == price * ((1.0 - rate) * q);
    }
  }

  /** Two discounts at rate `r` end at `p * (1-r) * (1-r)`, which differs from
      a single discount at `2r` unless the price or the rate is zero. */
  lemma TwoDiscounts(price: real, rate: real)
    ensures DiscountedN(price, rate, 2) == price * (1.0 - rate) * (1.0 - rate)
    ensures DiscountedN(price, rate, 2) == price * (1.0 - 2.0 * rate) <==> price == 0.0 || rate == 0.0
  {
    DiscountsCompound(price, rate, 2);
    assert Pow(1.0 - rate, 1) == (1.0 - rate) * Pow(1.0 - rate, 0) == 1.0 - rate;
    assert Pow(1.0 - rate, 2) == (1.0 - rate) * (1.0 - rate);
    assert price * ((1.0 - rate) * (1.0 - rate)) == price * (1.0 - rate) * (1.0 - rate);
    var gap := DiscountedN(price, rate, 2) - price * (1.0 - 2.0 * rate);
    assert gap == price * rate * rate;
    if price != 0.0 && rate != 0.0 {
      NonZeroProduct(price, rate);
      NonZeroProduct(price * rate, rate);
    }
  }

  lemma NonZeroProduct(x: real, y: real)
    requires x != 0.0 && y != 0.0
    ensures x * y != 0.0
  {
  }

  /** A catalog entry. Identity, name and variant are fixed at construction;
      price and stock change in place. The constructor does not check the
      stock it is given. */
  class Product {
    const id: int
    const name: string
    const kind: Kind
    var price: real
    var stock: int

    constructor (id: int, name: string, price: real, stock: int)
      ensures this.id == id && this.name == name && kind == Plain
      ensures this.price == price && this.stock == stock
    {
      this.id := id;
      this.name := name;
      this.kind := Plain;
      this.price := price;
      this.stock := stock;
    }

    /** The electronics variant's constructor. */
    constructor Electronics(id: int, name: string, price: real, stock: int, warranty: int)
      ensures this.id == id && this.name == name && kind == Kind.Electronics(warranty)
      ensures this.price == price && this.stock == stock
    {
      this.id := id;
      this.name := name;
      this.kind := Kind.Electronics(warranty);
      this.price := price;
      this.stock := stock;
    }

    method SetPrice(p: real)
      modifies this`price
      ensures price == p
    {
      price := p;
    }

    /** The base stock update: add the signed amount, then clamp at zero. */
    method BaseUpdateStock(amount: int)
      modifies this`stock
      ensures stock == StockAfter(old(stock), amount)
    {
      stock := stock + amount;
      if stock < 0 {
        stock := 0;
      }
    }

    /** The electronics override: the base update, plus a handling-fee notice
        whenever the amount is a removal. */
    method ElectronicsUpdateStock(amount: int) returns (notices: seq<Notice>)
      requires kind.Electronics?
      modifies this`stock
      ensures stock == StockAfter(old(stock), amount)
      ensures notices == if amount < 0 then [HandlingFee(id)] else []
    {
      BaseUpdateStock(amount);
      notices := [];
      if amount < 0 {
        notices := [HandlingFee(id)];
      }
    }

    /** The virtual stock update, dispatched on the product's variant. Every
        variant leaves the same stock. */
    method UpdateStock(amount: int) returns (notices: seq<Notice>)
      modifies this`stock
      ensures stock == StockAfter(old(stock), amount)
      ensures notices == if kind.Electronics? && amount < 0 then [HandlingFee(id)] else []
    {
      match kind
      case Plain =>
        BaseUpdateStock(amount);
        notices := [];
      case Electronics(_) =>
        notices := ElectronicsUpdateStock(amount);
    }

    /** Remove `price * rate` from the price and return the amount removed. */
    method ApplyDiscount(rate: real) returns (discount: real)
      modifies this`price
      ensures discount == DiscountAmount(old(price), rate) == old(price) * rate
      ensures price == old(price) - discount && price == Discounted(old(price), rate)
    {
      discount := price * rate;
      price := price - discount;
    }

    /** Products are equal exactly when their ids are. */
    method Equals(other: Product) returns (eq: bool)
      ensures eq <==> id == other.id
    {
      eq := id == other.id;
    }
  }
}
