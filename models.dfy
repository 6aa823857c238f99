/**
 * The persisted entities of the CRM store: customers, products, orders with
 * their items, and addresses.  Money is exact (`real`), the 32-bit integer
 * columns (stock, quantity) are an `Int32` subset type, and a point in time is
 * an opaque number that callers supply in place of the clock.
 */
module Models {

  const MinInt32: int := -0x8000_0000
  const MaxInt32: int := 0x7fff_ffff
  const TwoTo32: int := 0x1_0000_0000

  /** A C# `int`. */
  type Int32 = x: int | MinInt32 <= x <= MaxInt32

  /** A C# `decimal` amount, kept exact. */
  type Money = real

  /** A UTC instant; the model receives it as a parameter instead of reading the clock. */
  type DateTime = int

  /**
   * Two's-complement truncation to 32 bits: what unchecked C# `int`
   * arithmetic does with a result that does not fit.
   */
  function Wrap32(x: int): (r: Int32)
    ensures MinInt32 <= x <= MaxInt32 ==> r == x
    ensures (x - r) % TwoTo32 == 0
  {
    (x - MinInt32) % TwoTo32 + MinInt32
  }

  /** Two integers that differ by a multiple of 2^32 truncate to the same `int`. */
  lemma Wrap32Congruent(a: int, b: int)
    requires (a - b) % TwoTo32 == 0
    ensures Wrap32(a) == Wrap32(b)
  {
    var k := (a - b) / TwoTo32;
    assert a - b == k * TwoTo32;
    var wa, wb := Wrap32(a), Wrap32(b);
    var ka, kb := (a - wa) / TwoTo32, (b - wb) / TwoTo32;
    assert a - wa == ka * TwoTo32;
    assert b - wb == kb * TwoTo32;
    assert wa - wb == (k - ka + kb) * TwoTo32;
  }

  /** Adding to an already truncated value and truncating again is one truncation of the exact sum. */
  lemma Wrap32Add(x: int, y: int)
    ensures Wrap32(Wrap32(x) + y) == Wrap32(x + y)
  {
    Wrap32Congruent(Wrap32(x) + y, x + y);
  }

  datatype Customer = Customer(
    id: int,
    name: string,
    email: string,
    phone: string,
    createdAt: DateTime)

  datatype Product = Product(
    id: int,
    name: string,
    sku: string,
    unitPrice: Money,
    currentStock: Int32,
    createdAt: DateTime)

  datatype Address = Address(
    id: int,
    customerId: int,
    street: string,
    suburb: string,
    postcode: string,
    state: string)

  datatype OrderStatus = New | Completed | Cancelled

  /** One line of an order: the product, how many, and the price captured when the order was placed. */
  datatype OrderItem = OrderItem(
    id: int,
    orderId: int,
    productId: int,
    quantity: Int32,
    unitPrice: Money,
    lineTotal: Money)

  /** An order owns its items, kept in the order they were added. */
  datatype Order = Order(
    id: int,
    customerId: int,
    status: OrderStatus,
    totalAmount: Money,
    createdAt: DateTime,
    items: seq<OrderItem>)

  /** The name `OrderStatus.ToString()` gives a status. */
  function StatusName(s: OrderStatus): string
  {
    match s
    case New => "New"
    case Completed => "Completed"
    case Cancelled => "Cancelled"
  }

  /** Distinct statuses are shown under distinct names, so a client can tell them apart. */
  lemma StatusNamesDistinct(a: OrderStatus, b: OrderStatus)
    ensures StatusName(a) == StatusName(b) <==> a == b
  {
  }
}
