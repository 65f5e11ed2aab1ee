/** The shopping cart: an inventory list of product references plus a
    running total that is maintained incrementally, never recomputed. */
module Cart {
  import opened Products
  import opened Inventory

  /** The current prices of the elements, position by position. */
  function Prices(s: seq<Product>): (r: seq<real>)
    reads s`price
    ensures |r| == |s|
    decreases |s|
  {
    if s == [] then [] else Prices(s[..|s| - 1]) + [s[|s| - 1].price]
  }

  /** Position `i` of the price list is the price of the element there. */
  lemma {:induction false} PricesAt(s: seq<Product>)
    ensures forall i :: 0 <= i < |s| ==> Prices(s)[i] == s[i].price
    decreases |s|
  {
    if s != [] {
      PricesAt(s[..|s| - 1]);
    }
  }

  function Sum(xs: seq<real>): real
    decreases |xs|
  {
    if xs == [] then 0.0 else Sum(xs[..|xs| - 1]) + xs[|xs| - 1]
  }

  /** Sum of the current prices of the elements, counted with multiplicity. */
  function PriceSum(s: seq<Product>): real
    reads s`price
  {
    Sum(Prices(s))
  }

  /** Discounting every summand discounts the sum at the same rate. */
  lemma {:induction false} SumDiscounted(xs: seq<real>, ys: seq<real>, rate: real)
    requires |xs| == |ys| && forall i :: 0 <= i < |xs| ==> ys[i] == Discounted(xs[i], rate)
    ensures Sum(ys) == Discounted(Sum(xs), rate)
    decreases |xs|
  {
    if xs != [] {
      var n := |xs| - 1;
      SumDiscounted(xs[..n], ys[..n], rate);
      var a := Sum(xs[..n]);
      assert Sum(xs) == a + xs[n];
      assert (a + xs[n]) * rate == a * rate + xs[n] * rate;
    }
  }

  /** Appending one product adds its price to the price sum. */
  lemma PriceSumAppend(s: seq<Product>, p: Product)
    ensures PriceSum(s + [p]) == PriceSum(s) + p.price
  {
    assert (s + [p])[..|s|] == s;
    PricesAt(s);
  }

  /** Sum of the amounts a cart discount at `rate` removes when it walks `s`
      in order, given the prices `ps` (position by position) before the walk.
      A reference met again has already been discounted once per earlier
      occurrence, so its amount is taken from the reduced price. */
  function Removed(s: seq<Product>, ps: seq<real>, rate: real): real
    requires |ps| == |s|
    decreases |s|
  {
    if s == [] then 0.0
    else
      var n := |s| - 1;
      Removed(s[..n], ps[..n], rate) + DiscountAmount(DiscountedN(ps[n], rate, multiset(s[..n])[s[n]]), rate)
  }

  /** No product reference occurs twice. */
  predicate Distinct(s: seq<Product>)
  {
    forall i, j :: 0 <= i < j < |s| ==> s[i] != s[j]
  }

  /** In a list without repeated references each one occurs exactly once. */
  lemma {:induction false} DistinctOnce(s: seq<Product>, q: Product)
    requires Distinct(s) && q in s
    ensures multiset(s)[q] == 1
    decreases |s|
  {
    var init, last := s[..|s| - 1], s[|s| - 1];
    assert s == init + [last];
    assert last !in init by {
      forall i | 0 <= i < |init| ensures init[i] != last {
        assert s[i] == init[i];
      }
    }
    if q != last {
      assert q in init;
      DistinctOnce(init, q);
    }
  }

  /** Without repeated references every discount applies to the undiscounted
      price, so the amounts removed add up to `rate` times the price sum. */
  lemma {:induction false} RemovedDistinct(s: seq<Product>, ps: seq<real>, rate: real)
    requires Distinct(s) && |ps| == |s|
    ensures Removed(s, ps, rate) == DiscountAmount(Sum(ps), rate)
    decreases |s|
  {
    if s != [] {
      var n := |s| - 1;
      assert s[n] !in s[..n] by {
        forall i | 0 <= i < n ensures s[..n][i] != s[n] {
          assert s[..n][i] == s[i];
        }
      }
      assert DiscountedN(ps[n], rate, multiset(s[..n])[s[n]]) == ps[n];
      RemovedDistinct(s[..n], ps[..n], rate);
      var a := Sum(ps[..n]);
      assert Sum(ps) == a + ps[n];
      assert rate * (a + ps[n]) == rate * a + ps[n] * rate;
    }
  }

  /** One more step of the walk adds the amount taken off the next element. */
  lemma RemovedStep(s: seq<Product>, ps: seq<real>, rate: real, i: nat)
    requires |ps| == |s| && i < |s|
    ensures Removed(s[..i + 1], ps[..i + 1], rate) ==
      Removed(s[..i], ps[..i], rate) + DiscountAmount(DiscountedN(ps[i], rate, multiset(s[..i])[s[i]]), rate)
  {
    assert s[..i + 1][..i] == s[..i];
    assert ps[..i + 1][..i] == ps[..i];
  }

  /** Prices after a cart discount has walked the first `i` elements of `s`,
      starting from the prices `before`: each element has been discounted once
      per occurrence of its reference among those `i`. */
  function Walked(s: seq<Product>, before: seq<real>, rate: real, i: nat): (r: seq<real>)
    requires |before| == |s| && i <= |s|
    ensures |r| == |s|
  {
    seq(|s|, k requires 0 <= k < |s| => DiscountedN(before[k], rate, multiset(s[..i])[s[k]]))
  }

  /** Before the walk nothing has been discounted. */
  lemma WalkedStart(s: seq<Product>, before: seq<real>, rate: real)
    requires |before| == |s|
    ensures Walked(s, before, rate, 0) == before
  {
    assert s[..0] == [];
  }

  /** One step of the walk discounts every position holding the reference at
      position `i` once more, and leaves the others alone. */
  lemma WalkStep(s: seq<Product>, before: seq<real>, rate: real, i: nat)
    requires |before| == |s| && i < |s|
    ensures forall k :: 0 <= k < |s| ==>
      Walked(s, before, rate, i + 1)[k] ==
        if s[k] == s[i] then Discounted(Walked(s, before, rate, i)[k], rate) else Walked(s, before, rate, i)[k]
    ensures Walked(s, before, rate, i)[i] == DiscountedN(before[i], rate, multiset(s[..i])[s[i]])
  {
    assert s[..i + 1] == s[..i] + [s[i]];
    assert multiset(s[..i + 1]) == multiset(s[..i]) + multiset{s[i]};
  }

  /** At the end of the walk every position has been discounted once per
      occurrence of its reference in the whole list. */
  lemma WalkedAll(s: seq<Product>, before: seq<real>, rate: real)
    requires |before| == |s|
    ensures forall k :: 0 <= k < |s| ==>
      Walked(s, before, rate, |s|)[k] == DiscountedN(before[k], rate, multiset(s)[s[k]])
  {
    assert s[..|s|] == s;
  }

  /** A cart discount over a list without repeated references: every price
      is discounted exactly once, so the price sum is too, and the amounts
      removed add up to `rate` times the old price sum. */
  lemma DistinctDiscount(s: seq<Product>, before: seq<real>, after: seq<real>, rate: real)
    requires Distinct(s) && |before| == |s| && |after| == |s|
    requires forall k :: 0 <= k < |s| ==> after[k] == DiscountedN(before[k], rate, multiset(s)[s[k]])
    ensures forall k :: 0 <= k < |s| ==> after[k] == Discounted(before[k], rate)
    ensures Removed(s, before, rate) == DiscountAmount(Sum(before), rate)
    ensures Sum(after) == Discounted(Sum(before), rate)
  {
    forall k | 0 <= k < |s| ensures after[k] == Discounted(before[k], rate) {
      DistinctOnce(s, s[k]);
      assert DiscountedN(before[k], rate, 1) == Discounted(DiscountedN(before[k], rate, 0), rate);
    }
    SumDiscounted(before, after, rate);
    RemovedDistinct(s, before, rate);
  }

  /** Without repeated references a cart discount keeps a total that was
      the price sum equal to the new price sum. */
  lemma DistinctKeepsTotal(s: seq<Product>, before: seq<real>, total: real, rate: real)
    requires Distinct(s) && |before| == |s| && total == Sum(before)
    ensures total - Removed(s, before, rate) == Sum(Walked(s, before, rate, |s|))
  {
    var after := Walked(s, before, rate, |s|);
    WalkedAll(s, before, rate);
    DistinctDiscount(s, before, after, rate);
  }

  class ShoppingCart {
    const items: InventoryList
    var total: real

    constructor ()
      ensures fresh(items) && items.data == [] && total == 0.0
    {
      items := new InventoryList();
      total := 0.0;
    }

    /** Add `p` if it has stock: append it, add its current price to the
        total and take one unit out of its stock through the virtual stock
        update. Otherwise report it out of stock and change nothing. */
    method AddProduct(p: Product) returns (notices: seq<Notice>)
      modifies this, items, p`stock
      ensures old(p.stock) <= 0 ==>
        notices == [OutOfStock(p.id)] && items.data == old(items.data) &&
        total == old(total) && p.stock == old(p.stock)
      ensures old(p.stock) > 0 ==>
        items.data == old(items.data) + [p] && total == old(total) + p.price &&
        p.stock == old(p.stock) - 1 &&
        notices == (if p.kind.Electronics? then [HandlingFee(p.id)] else [])
      ensures p.price == old(p.price)
    {
      if p.stock <= 0 {
        notices := [OutOfStock(p.id)];
        return;
      }
      items.Add(p);
      total := total + p.price;
      notices := p.UpdateStock(-1);
    }

    /** The `+=` shorthand: the same as AddProduct, returning the cart. */
    method AddAssign(p: Product) returns (self: ShoppingCart, notices: seq<Notice>)
      modifies this, items, p`stock
      ensures self == this
      ensures old(p.stock) <= 0 ==>
        notices == [OutOfStock(p.id)] && items.data == old(items.data) &&
        total == old(total) && p.stock == old(p.stock)
      ensures old(p.stock) > 0 ==>
        items.data == old(items.data) + [p] && total == old(total) + p.price &&
        p.stock == old(p.stock) - 1 &&
        notices == (if p.kind.Electronics? then [HandlingFee(p.id)] else [])
      ensures p.price == old(p.price)
    {
      notices := AddProduct(p);
      self := this;
    }

    /** The tracked total, as it stands; it is not recomputed from the items. */
    method CalculateTotal() returns (t: real)
      ensures t == total
    {
      t := total;
    }

    /** Discount every item in insertion order and take each amount removed
        off the total. Every position ends at its price before the call,
        discounted once per occurrence of its reference (a reference held
        twice is discounted twice, the second time on the reduced price),
        and the total drops by the sum of the amounts removed. */
    method ApplyCartDiscount(rate: real)
      modifies this, items.data`price
      ensures items.data == old(items.data)
      ensures Prices(items.data) == Walked(items.data, old(Prices(items.data)), rate, |items.data|)
      ensures total == old(total) - Removed(items.data, old(Prices(items.data)), rate)
    {
      var s := items.data;
      ghost var before := Prices(s);
      ghost var total0 := total;
      ghost var cur := before;
      PricesAt(s);
      WalkedStart(s, before, rate);
      var i := 0;
      while i < |s|
        invariant 0 <= i <= |s| && |cur| == |s|
        invariant forall k :: 0 <= k < |s| ==> s[k].price == cur[k]
        invariant cur == Walked(s, before, rate, i)
        invariant total == total0 - Removed(s[..i], before[..i], rate)
      {
        var x := s[i];
        ghost var next := seq(|s|, k requires 0 <= k < |s| => if s[k] == x then Discounted(cur[k], rate) else cur[k]);
        WalkStep(s, before, rate, i);
        var disc := x.ApplyDiscount(rate);
        total := total - disc;
        RemovedStep(s, before, rate, i);
        forall k | 0 <= k < |s| ensures s[k].price == next[k] {
          if s[k] == x {
            assert cur[k] == cur[i];
          }
        }
        cur := next;
        i := i + 1;
      }
      assert s[..i] == s && before[..i] == before;
      PricesAt(s);
    }

  }
}
