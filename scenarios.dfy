/** Runs of the system on concrete catalogs, with the outcome each one must
    have stated as the contract. */
module Scenarios {
  import opened Products
  import opened Inventory
  import opened Cart

  /** A 10% discount walking one item priced 10. */
  lemma OneItemDiscount(a: Product)
    ensures Walked([a], [10.0], 0.1, 1) == [9.0]
    ensures Removed([a], [10.0], 0.1) == 1.0
  {
    WalkedAll([a], [10.0], 0.1);
    assert DiscountedN(10.0, 0.1, 1) == Discounted(DiscountedN(10.0, 0.1, 0), 0.1);
    assert [a][..0] == [];
  }

  /** A 10% discount walking two different items priced 10 and 500. */
  lemma TwoItemDiscount(b: Product, c: Product)
    requires b != c
    ensures Walked([b, c], [10.0, 500.0], 0.1, 2) == [9.0, 450.0]
    ensures Removed([b, c], [10.0, 500.0], 0.1) == 51.0
  {
    var s := [b, c];
    WalkedAll(s, [10.0, 500.0], 0.1);
    assert multiset(s)[b] == 1 && multiset(s)[c] == 1;
    assert DiscountedN(10.0, 0.1, 1) == Discounted(DiscountedN(10.0, 0.1, 0), 0.1);
    assert DiscountedN(500.0, 0.1, 1) == Discounted(DiscountedN(500.0, 0.1, 0), 0.1);
    assert s[..1] == [b] && s[..0] == [];
    assert [10.0, 500.0][..1] == [10.0] && [10.0][..0] == [];
    assert Removed([b], [10.0], 0.1) == 1.0;
  }

  /** A 10% discount walking the same item, priced 10, held twice: the
      second discount applies to the reduced price. */
  lemma SameItemTwice(p: Product)
    ensures Walked([p, p], [10.0, 10.0], 0.1, 2) == [8.1, 8.1]
    ensures Removed([p, p], [10.0, 10.0], 0.1) == 1.9
    ensures Sum([8.1, 8.1]) == 16.2
  {
    var s := [p, p];
    WalkedAll(s, [10.0, 10.0], 0.1);
    assert multiset(s)[p] == 2;
    assert DiscountedN(10.0, 0.1, 1) == Discounted(DiscountedN(10.0, 0.1, 0), 0.1) == 9.0;
    assert DiscountedN(10.0, 0.1, 2) == Discounted(DiscountedN(10.0, 0.1, 1), 0.1) == 8.1;
    assert s[..1] == [p] && s[..0] == [];
    assert multiset(s[..1])[p] == 1;
    assert [10.0, 10.0][..1] == [10.0] && [10.0][..0] == [];
    assert Removed([p], [10.0], 0.1) == 1.0;
    assert [8.1, 8.1][..1] == [8.1];
  }

  /** First half of the demonstration run: a book with 5 units, an
      out-of-stock pen and a phone with 3 units; one unit of the book and of
      the phone taken out; book, phone and pen added to a new cart. */
  method StockAndFill() returns (book: Product, phone: Product, cart: ShoppingCart,
                                 notices: seq<Notice>, same: bool)
    ensures fresh(book) && fresh(phone) && fresh(cart) && fresh(cart.items) && book != phone
    ensures book.id == 1 && phone.id == 2 && phone.name == "Phone"
    ensures book.price == 10.0 && phone.price == 500.0 && book.stock == 3 && phone.stock == 1
    ensures cart.items.data == [book, phone] && cart.total == 510.0
    ensures notices == [HandlingFee(2), HandlingFee(2), OutOfStock(3)]
    ensures same
  {
    book := new Product(1, "Book", 10.0, 5);
    var pen := new Product(3, "Pen", 2.0, 0);
    phone := new Product.Electronics(2, "Phone", 500.0, 3, 12);

    var n1 := book.UpdateStock(-1);
    var n2 := phone.UpdateStock(-1);
    same := book.Equals(book);

    cart := new ShoppingCart();
    var _, n3 := cart.AddAssign(book);
    var _, n4 := cart.AddAssign(phone);
    var _, n5 := cart.AddAssign(pen);
    notices := n1 + n2 + n3 + n4 + n5;
  }

  /** The demonstration run: the first half, then a 10% cart discount, then
      a separate inventory holding the book and the phone, a lookup of id 2
      and the removal of the phone. */
  method Demonstration() returns (notices: seq<Notice>, same: bool, total: real,
                                  bookPrice: real, phonePrice: real, bookStock: int, phoneStock: int,
                                  found: Product?, left: seq<int>)
    ensures notices == [HandlingFee(2), HandlingFee(2), OutOfStock(3)]
    ensures same
    ensures total == 459.0 && bookPrice == 9.0 && phonePrice == 450.0
    ensures bookStock == 3 && phoneStock == 1
    ensures found != null && found.id == 2 && found.name == "Phone"
    ensures left == [1]
  {
    var book, phone, cart;
    book, phone, cart, notices, same := StockAndFill();

    var s := cart.items.data;
    assert Prices(s) == [10.0, 500.0] by { assert s[..1] == [book]; }
    cart.ApplyCartDiscount(0.1);
    TwoItemDiscount(book, phone);
    assert Prices(s) == [9.0, 450.0];
    assert Prices(s)[0] == book.price && Prices(s)[1] == phone.price by {
      assert s[..1] == [book] && s[..0] == [];
    }
    bookPrice, phonePrice := book.price, phone.price;
    total := cart.CalculateTotal();
    bookStock, phoneStock := book.stock, phone.stock;

    found, left := InventoryRun(book, phone);
  }

  /** Last part of the demonstration run: an inventory holding the book (id
      1) and then the phone (id 2); a lookup of id 2 finds the phone, and
      removing the phone leaves only the book. */
  method InventoryRun(book: Product, phone: Product) returns (found: Product?, left: seq<int>)
    requires book.id == 1 && phone.id == 2
    ensures found == phone
    ensures left == [1]
  {
    var inventory := new InventoryList();
    inventory.Add(book);
    inventory.Add(phone);
    found := inventory.Find(2);
    assert inventory.data[0].id == 1;
    inventory.Remove(phone);
    assert inventory.data == [book] by {
      assert [book, phone][..1] == [book];
    }
    left := [inventory.data[0].id];
  }

  /** An item with price 10 and 5 units: adding it to an empty cart gives a
      total of 10 and leaves 4 units; a 10% discount then gives 9 for both
      the total and the price. */
  method AddThenDiscount() returns (total: real, stock: int, discountedTotal: real, price: real)
    ensures total == 10.0 && stock == 4
    ensures discountedTotal == 9.0 && price == 9.0
  {
    var a := new Product(1, "A", 10.0, 5);
    var cart := new ShoppingCart();
    var _ := cart.AddProduct(a);
    total := cart.CalculateTotal();
    stock := a.stock;
    var s := cart.items.data;
    assert Prices(s) == [10.0];
    cart.ApplyCartDiscount(0.1);
    OneItemDiscount(a);
    assert Prices(s) == [9.0];
    assert Prices(s)[0] == a.price by { assert s[..0] == []; }
    discountedTotal := cart.CalculateTotal();
    price := a.price;
  }

  /** An item with no stock is rejected: the cart stays empty, the total at 0
      and the stock at 0. */
  method OutOfStockRejected() returns (notices: seq<Notice>, total: real, size: nat, stock: int)
    ensures notices == [OutOfStock(3)] && total == 0.0 && size == 0 && stock == 0
  {
    var b := new Product(3, "B", 2.0, 0);
    var cart := new ShoppingCart();
    notices := cart.AddProduct(b);
    total := cart.CalculateTotal();
    size := cart.items.Size();
    stock := b.stock;
  }

  /** An electronics item with 3 units: taking one out leaves 2 and a
      handling-fee notice; taking 10 out clamps the stock at 0 and again
      gives a notice. */
  method ElectronicsClamp() returns (first: seq<Notice>, afterOne: int, second: seq<Notice>, afterTen: int)
    ensures first == [HandlingFee(2)] && afterOne == 2
    ensures second == [HandlingFee(2)] && afterTen == 0
  {
    var e := new Product.Electronics(2, "E", 500.0, 3, 12);
    first := e.UpdateStock(-1);
    afterOne := e.stock;
    second := e.UpdateStock(-10);
    afterTen := e.stock;
  }

  /** The same product, priced 10 with 5 units, added twice to a new cart:
      the cart holds the reference twice, the total is 20 and two units are
      gone. */
  method AddTwice() returns (p: Product, cart: ShoppingCart)
    ensures fresh(p) && fresh(cart) && fresh(cart.items)
    ensures cart.items.data == [p, p] && cart.total == 20.0
    ensures p.price == 10.0 && p.stock == 3
  {
    p := new Product(1, "A", 10.0, 5);
    cart := new ShoppingCart();
    var _ := cart.AddProduct(p);
    var _ := cart.AddProduct(p);
  }

  /** A 10% cart discount on a cart holding the same product twice
      discounts it twice, compounding to 8.1, and takes 1 and 0.9 off the
      total, which ends at 18.1 while the two entries now sum to 16.2. */
  method AliasedDiscount() returns (total: real, price: real, stock: int, priceSum: real)
    ensures total == 18.1 && price == 8.1 && stock == 3 && priceSum == 16.2
  {
    var p, cart := AddTwice();
    var s := cart.items.data;
    assert Prices(s) == [10.0, 10.0] by { assert s[..1] == [p]; }
    cart.ApplyCartDiscount(0.1);
    SameItemTwice(p);
    assert Prices(s) == [8.1, 8.1];
    assert Prices(s)[1] == p.price by { assert s[..1] == [p]; }
    total := cart.CalculateTotal();
    price := p.price;
    stock := p.stock;
    priceSum := PriceSum(s);
  }
}
