/**
 * The webshop exercise: an immutable Product (name and decimal price) and an
 * OrderItem that pairs a product with a quantity and derives its subtotal.
 */
module Webshop {
  import opened Wrappers
  import opened Numerics

  // ---------------------------------------------------------------------------
  // C# `decimal`: an integer coefficient scaled by a power of ten.

  /** The scales a C# `decimal` can carry. */
  type Scale = s: nat | s <= 28

  /** The decimal units * 10^-scale; the scale is kept, so 201.10 and 201.1 differ. */
  datatype Decimal = Decimal(units: int, scale: Scale)

  function Pow10(n: nat): (r: nat)
    ensures r >= 1
  {
    if n == 0 then 1 else 10 * Pow10(n - 1)
  }

  /** The exact number a Decimal stands for. */
  function Value(d: Decimal): real
  {
    d.units as real / Pow10(d.scale) as real
  }

  /**
   * decimal * int: the int converts to a decimal of scale 0, and the product's
   * scale is the sum of the scales, hence the price's own scale.
   */
  function MulInt(d: Decimal, k: Int32): (r: Decimal)
    ensures Value(r) == Value(d) * k as real
    ensures r.scale == d.scale
  {
    var p := Pow10(d.scale) as real;
    var r := Decimal(d.units * k, d.scale);
    assert (d.units * k) as real == d.units as real * k as real;
    assert (d.units as real * k as real) / p == (d.units as real / p) * k as real;
    r
  }

  // ---------------------------------------------------------------------------
  // Product and OrderItem.

  /** A product: name and price are fixed by the constructor and only read afterwards. */
  class Product {
    const name: string
    const price: Decimal

    constructor (name: string, price: Decimal)
      ensures this.name == name && this.price == price
    {
      this.name := name;
      this.price := price;
    }
  }

  /** The exception the OrderItem constructor throws for a quantity that is not positive. */
  datatype ArgumentException = ArgumentException

  /**
   * An order line. The product is fixed at construction; the quantity has a
   * public setter that does not repeat the constructor's check.
   */
  class OrderItem {
    const product: Product
    var quantity: Int32

    /** What the constructor establishes; the setter can break it. */
    ghost predicate HasPositiveQuantity()
      reads this
    {
      quantity > 0
    }

    constructor (product: Product, quantity: Int32)
      requires quantity > 0
      ensures this.product == product && this.quantity == quantity
      ensures HasPositiveQuantity()
    {
      this.product := product;
      this.quantity := quantity;
    }

    /** Recomputed from the current quantity on every read. */
    function Subtotal(): (r: Decimal)
      reads this
      ensures Value(r) == Value(product.price) * quantity as real
      ensures r.scale == product.price.scale
    {
      MulInt(product.price, quantity)
    }

    /** The Quantity setter: stores any int, positive or not. */
    method SetQuantity(q: Int32)
      modifies this
      ensures quantity == q
      ensures HasPositiveQuantity() <==> q > 0
      ensures Value(Subtotal()) == Value(product.price) * q as real
    {
      quantity := q;
    }
  }

  /** `new OrderItem(product, quantity)`: throws for quantity <= 0, else stores both arguments. */
  method NewOrderItem(product: Product, quantity: Int32) returns (r: Result<OrderItem, ArgumentException>)
    ensures r.Failure? <==> quantity <= 0
    ensures r.Success? ==> fresh(r.value) && r.value.HasPositiveQuantity()
    ensures r.Success? ==> r.value.product == product && r.value.quantity == quantity
  {
    if quantity <= 0 {
      return Failure(ArgumentException);
    }
    var item := new OrderItem(product, quantity);
    r := Success(item);
  }

  // ---------------------------------------------------------------------------
  // The facts of WebshopTests.

  /**
   * TestCreateOrderItem: 100.55 * 2 is 201.10 and 20.4 * 10 is 204.0. The second
   * price arrives as the decimal 20.4 (scale 1), which is why its subtotal shows one decimal.
   */
  method TestCreateOrderItem() returns (book: Decimal, laptop: Decimal)
    ensures book == Decimal(20110, 2) && Value(book) == 201.10
    ensures laptop == Decimal(2040, 1) && Value(laptop) == 204.0
  {
    var bookProduct := new Product("Book", Decimal(10055, 2));
    var r := NewOrderItem(bookProduct, 2);
    book := r.value.Subtotal();
    var laptopProduct := new Product("Laptop", Decimal(204, 1));
    r := NewOrderItem(laptopProduct, 10);
    laptop := r.value.Subtotal();
  }

  /** TestCreateOrderItemNegativeQuantityThrowsException and TestCreateOrderItemZeroQuantityThrowsException. */
  method TestCreateOrderItemNonPositiveQuantityThrows() returns (negative: bool, zero: bool)
    ensures negative && zero
  {
    var tea := new Product("Tea", Decimal(12322, 2));
    var r := NewOrderItem(tea, -1);
    negative := r.Failure?;
    r := NewOrderItem(tea, 0);
    zero := r.Failure?;
  }
}
