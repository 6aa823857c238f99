/**
 * Order creation and cancellation.
 *
 * Creating an order walks the requested items in the order given: each item's
 * product must exist and have enough stock; its stock is decremented, its
 * current unit price is captured, and the line total is added to the order
 * total.  The whole operation runs in one transaction, so any failure leaves
 * the store exactly as it was.  Cancelling puts each item's quantity back on
 * its product's stock and marks the order Cancelled.
 */
module Orders {
  import opened Wrappers
  import opened Models
  import opened Dtos
  import opened CrmDb

  /** The exceptions order creation raises, by the message they carry. */
  datatype OrderError =
    | CustomerNotFound
    | ProductNotFound(productId: int)
    | InsufficientStock(productName: string)
    | ArithmeticOverflow

  // ---------------------------------------------------------------------
  // Deducting one item's quantity from its product's stock
  // ---------------------------------------------------------------------

  /**
   * The deduction as the source writes it: an unchecked 32-bit subtraction
   * once the stock check has passed.  A negative quantity can push the
   * result past the largest `int`, and it then wraps to a negative stock.
   */
  function DeductStockAsWritten(p: Product, quantity: Int32): (r: Product)
    requires quantity <= p.currentStock
    ensures r == p.(currentStock := r.currentStock)
    ensures (p.currentStock - quantity - r.currentStock) % TwoTo32 == 0
  {
    p.(currentStock := Wrap32(p.currentStock - quantity))
  }

  /** A product with 5 in stock passes the check for quantity int.MinValue and ends with stock -2147483643. */
  lemma AsWrittenStockCanGoNegative()
    ensures var p := Product(1, "Widget", "W-1", 1.0, 5, 0);
            && MinInt32 <= p.currentStock
            && DeductStockAsWritten(p, MinInt32).currentStock == -2147483643
  {
  }

  /**
   * The deduction with checked arithmetic: it refuses a quantity above the
   * stock, and it refuses a result that does not fit in an `int` instead of
   * wrapping.  The stock it leaves is never negative.
   */
  function DeductStock(p: Product, quantity: Int32): (r: Result<Product, OrderError>)
    ensures r.Ok? <==> quantity <= p.currentStock && p.currentStock - quantity <= MaxInt32
    ensures r.Ok? ==> r.value == p.(currentStock := p.currentStock - quantity) && r.value.currentStock >= 0
    ensures p.currentStock < quantity ==> r == Err(InsufficientStock(p.name))
  {
    if p.currentStock < quantity then Err(InsufficientStock(p.name))
    else if p.currentStock - quantity > MaxInt32 then Err(ArithmeticOverflow)
    else Ok(p.(currentStock := p.currentStock - quantity))
  }

  /**
   * Once the stock check has passed, the checked deduction refuses exactly
   * the inputs on which the source's deduction leaves a negative stock, and
   * agrees with it everywhere else.
   */
  lemma CheckedDeductionRefusesExactlyTheWraps(p: Product, quantity: Int32)
    requires quantity <= p.currentStock
    ensures DeductStock(p, quantity).Err? <==> DeductStockAsWritten(p, quantity).currentStock < 0
    ensures DeductStock(p, quantity).Ok? ==> DeductStock(p, quantity).value == DeductStockAsWritten(p, quantity)
  {
    var x := p.currentStock - quantity;
    if x > MaxInt32 {
      assert x - TwoTo32 == Wrap32(x) by {
        assert (x - MinInt32) % TwoTo32 == x - MinInt32 - TwoTo32;
      }
    }
  }

  // ---------------------------------------------------------------------
  // Placing the requested items, one after another
  // ---------------------------------------------------------------------

  /** The running state of the item loop: current stock, the items added so far, the running total. */
  datatype Placement = Placement(products: map<int, Product>, items: seq<OrderItem>, total: Money)

  /** Only stock levels differ between the two product tables. */
  predicate SameExceptStock(before: map<int, Product>, after: map<int, Product>)
  {
    && before.Keys == after.Keys
    && forall k :: k in before ==> after[k] == before[k].(currentStock := after[k].currentStock)
  }

  /** `item` is the order item created for request `req` with id `id` in order `orderId`. */
  predicate ItemFor(item: OrderItem, req: OrderItemCreateDto, orderId: int, id: int)
  {
    item.id == id && item.orderId == orderId && item.productId == req.productId && item.quantity == req.quantity
  }

  /** A line's total: unit price times quantity. */
  function LineTotal(unitPrice: Money, quantity: Int32): Money
  {
    unitPrice * quantity as real
  }

  /** One pass of the item loop. */
  function PlaceItem(pl: Placement, req: OrderItemCreateDto, orderId: int, firstItemId: int): Result<Placement, OrderError>
  {
    if req.productId !in pl.products then Err(ProductNotFound(req.productId))
    else
      var product := pl.products[req.productId];
      match DeductStock(product, req.quantity)
      case Err(e) => Err(e)
      case Ok(updated) =>
        var lineTotal := LineTotal(product.unitPrice, req.quantity);
        var item := OrderItem(firstItemId + |pl.items|, orderId, req.productId, req.quantity, product.unitPrice, lineTotal);
        Ok(Placement(pl.products[req.productId := updated], pl.items + [item], pl.total + lineTotal))
  }

  /**
   * A pass succeeds exactly when its product exists and its deduction
   * succeeds; it then takes the deducted stock, appends one item priced at
   * the product's current unit price, and adds the line total.
   */
  lemma PlaceItemSucceeds(pl: Placement, req: OrderItemCreateDto, orderId: int, firstItemId: int)
    ensures (PlaceItem(pl, req, orderId, firstItemId).Ok?
             <==> req.productId in pl.products && DeductStock(pl.products[req.productId], req.quantity).Ok?)
    ensures PlaceItem(pl, req, orderId, firstItemId).Ok? ==>
              var product := pl.products[req.productId];
              PlaceItem(pl, req, orderId, firstItemId).value == Placement(
                pl.products[req.productId := product.(currentStock := product.currentStock - req.quantity)],
                pl.items + [OrderItem(firstItemId + |pl.items|, orderId, req.productId, req.quantity,
                                      product.unitPrice, LineTotal(product.unitPrice, req.quantity))],
                pl.total + LineTotal(product.unitPrice, req.quantity))
  {
  }
  /**
   * What one pass does, stated as properties: it fails when the product is
   * missing or the deduction is refused; otherwise only the requested
   * product's stock changes, by exactly the quantity, and one item for the
   * request, priced at the product's current unit price, is appended, its
   * line total added to the running total.
   */
  lemma PlaceItemEffect(pl: Placement, req: OrderItemCreateDto, orderId: int, firstItemId: int)
    ensures req.productId !in pl.products ==> PlaceItem(pl, req, orderId, firstItemId) == Err(ProductNotFound(req.productId))
    ensures req.productId in pl.products && pl.products[req.productId].currentStock < req.quantity ==>
              PlaceItem(pl, req, orderId, firstItemId) == Err(InsufficientStock(pl.products[req.productId].name))
    ensures var r := PlaceItem(pl, req, orderId, firstItemId);
            r.Ok? ==>
              && SameExceptStock(pl.products, r.value.products)
              && r.value.products[req.productId].currentStock == pl.products[req.productId].currentStock - req.quantity
              && (forall k :: k in pl.products && k != req.productId ==> r.value.products[k] == pl.products[k])
              && |r.value.items| == |pl.items| + 1 && r.value.items[..|pl.items|] == pl.items
              && ItemFor(r.value.items[|pl.items|], req, orderId, firstItemId + |pl.items|)
              && r.value.items[|pl.items|].unitPrice == pl.products[req.productId].unitPrice
              && r.value.total == pl.total + r.value.items[|pl.items|].lineTotal
  {
    PlaceItemSucceeds(pl, req, orderId, firstItemId);
  }


  /**
   * The item loop over `reqs`, starting from `products`, an empty item list
   * and a zero total; the first failing item ends it with that item's error.
   */
  function PlaceItems(products: map<int, Product>, reqs: seq<OrderItemCreateDto>, orderId: int, firstItemId: int)
    : (r: Result<Placement, OrderError>)
    decreases |reqs|
    ensures r.Ok? ==> SameExceptStock(products, r.value.products)
    ensures r.Ok? ==> forall i :: 0 <= i < |reqs| ==> reqs[i].productId in products
    ensures r.Ok? ==> |r.value.items| == |reqs|
    ensures r.Ok? ==> forall i :: 0 <= i < |reqs| ==> ItemFor(r.value.items[i], reqs[i], orderId, firstItemId + i)
  {
    if reqs == [] then Ok(Placement(products, [], 0.0))
    else
      match PlaceItems(products, reqs[..|reqs| - 1], orderId, firstItemId)
      case Err(e) => Err(e)
      case Ok(pl) => PlaceItem(pl, reqs[|reqs| - 1], orderId, firstItemId)
  }

  /** Once some prefix of the requests fails, the whole request fails with the same error. */
  lemma {:induction false} PrefixFailureIsFinal(
    products: map<int, Product>, reqs: seq<OrderItemCreateDto>, k: nat, orderId: int, firstItemId: int)
    requires k <= |reqs|
    requires PlaceItems(products, reqs[..k], orderId, firstItemId).Err?
    ensures PlaceItems(products, reqs, orderId, firstItemId) == PlaceItems(products, reqs[..k], orderId, firstItemId)
    decreases |reqs| - k
  {
    if k == |reqs| {
      assert reqs[..k] == reqs;
    } else {
      var prefix := reqs[..|reqs| - 1];
      assert prefix[..k] == reqs[..k];
      PrefixFailureIsFinal(products, prefix, k, orderId, firstItemId);
    }
  }

  /** Placing one request more extends the placement of the requests before it. */
  lemma PlaceItemsNext(products: map<int, Product>, reqs: seq<OrderItemCreateDto>, i: nat, orderId: int, firstItemId: int)
    requires i < |reqs|
    ensures PlaceItems(products, reqs[..i + 1], orderId, firstItemId)
              == match PlaceItems(products, reqs[..i], orderId, firstItemId)
                 case Err(e) => Err(e)
                 case Ok(pl) => PlaceItem(pl, reqs[i], orderId, firstItemId)
  {
    assert reqs[..i + 1][..i] == reqs[..i];
  }

  /** When the pass for request `i` fails, the whole request fails with that pass's error. */
  lemma PlacementStops(products: map<int, Product>, reqs: seq<OrderItemCreateDto>, i: nat, orderId: int, firstItemId: int)
    requires i < |reqs|
    requires PlaceItems(products, reqs[..i], orderId, firstItemId).Ok?
    ensures var pl := PlaceItems(products, reqs[..i], orderId, firstItemId).value;
            PlaceItem(pl, reqs[i], orderId, firstItemId).Err? ==>
              PlaceItems(products, reqs, orderId, firstItemId) == PlaceItem(pl, reqs[i], orderId, firstItemId)
  {
    var pl := PlaceItems(products, reqs[..i], orderId, firstItemId).value;
    if PlaceItem(pl, reqs[i], orderId, firstItemId).Err? {
      PlaceItemsNext(products, reqs, i, orderId, firstItemId);
      PrefixFailureIsFinal(products, reqs, i + 1, orderId, firstItemId);
    }
  }

  /**
   * When the pass for request `i` succeeds, the placement of the first i + 1
   * requests has the deducted stock, one more item (numbered after the
   * earlier ones) and the line total added.
   */
  lemma PlacementAdvances(products: map<int, Product>, reqs: seq<OrderItemCreateDto>, i: nat, orderId: int, firstItemId: int)
    requires i < |reqs|
    requires PlaceItems(products, reqs[..i], orderId, firstItemId).Ok?
    ensures var pl := PlaceItems(products, reqs[..i], orderId, firstItemId).value;
            var req := reqs[i];
            req.productId in pl.products && DeductStock(pl.products[req.productId], req.quantity).Ok? ==>
              var product := pl.products[req.productId];
              PlaceItems(products, reqs[..i + 1], orderId, firstItemId) == Ok(Placement(
                pl.products[req.productId := product.(currentStock := product.currentStock - req.quantity)],
                pl.items + [OrderItem(firstItemId + i, orderId, req.productId, req.quantity,
                                      product.unitPrice, LineTotal(product.unitPrice, req.quantity))],
                pl.total + LineTotal(product.unitPrice, req.quantity)))
  {
    var pl := PlaceItems(products, reqs[..i], orderId, firstItemId).value;
    PlaceItemsNext(products, reqs, i, orderId, firstItemId);
    PlaceItemSucceeds(pl, reqs[i], orderId, firstItemId);
  }

  /** The total quantity requested for product `pid`. */
  function RequestedQuantity(reqs: seq<OrderItemCreateDto>, pid: int): int
  {
    if reqs == [] then 0
    else
      var last := reqs[|reqs| - 1];
      RequestedQuantity(reqs[..|reqs| - 1], pid) + (if last.productId == pid then last.quantity else 0)
  }

  /** Some request names product `pid`. */
  predicate Requested(reqs: seq<OrderItemCreateDto>, pid: int)
  {
    exists i :: 0 <= i < |reqs| && reqs[i].productId == pid
  }

  /** On success every product's stock falls by exactly the quantity requested for it. */
  lemma {:induction false} PlacedStockAccounting(
    products: map<int, Product>, reqs: seq<OrderItemCreateDto>, orderId: int, firstItemId: int)
    requires PlaceItems(products, reqs, orderId, firstItemId).Ok?
    ensures var after := PlaceItems(products, reqs, orderId, firstItemId).value.products;
            forall pid :: pid in products ==>
              after[pid].currentStock == products[pid].currentStock - RequestedQuantity(reqs, pid)
  {
    if reqs != [] {
      PlacedStockAccounting(products, reqs[..|reqs| - 1], orderId, firstItemId);
    }
  }

  /** On success every requested product is left with a stock of zero or more. */
  lemma {:induction false} PlacedStockNonNegative(
    products: map<int, Product>, reqs: seq<OrderItemCreateDto>, orderId: int, firstItemId: int)
    requires PlaceItems(products, reqs, orderId, firstItemId).Ok?
    ensures var after := PlaceItems(products, reqs, orderId, firstItemId).value.products;
            forall pid :: Requested(reqs, pid) ==> pid in after && after[pid].currentStock >= 0
  {
    if reqs != [] {
      var prefix := reqs[..|reqs| - 1];
      var last := reqs[|reqs| - 1];
      PlacedStockNonNegative(products, prefix, orderId, firstItemId);
      forall pid | Requested(reqs, pid) && pid != last.productId
        ensures Requested(prefix, pid)
      {
        var i :| 0 <= i < |reqs| && reqs[i].productId == pid;
        assert i < |prefix| && prefix[i] == reqs[i];
      }
    }
  }

  /**
   * On success no product is overdrawn, even when several requests name it:
   * the quantities requested for a product add up to at most its stock.
   */
  lemma PlacementNeverOverdraws(
    products: map<int, Product>, reqs: seq<OrderItemCreateDto>, orderId: int, firstItemId: int)
    requires PlaceItems(products, reqs, orderId, firstItemId).Ok?
    ensures forall pid :: Requested(reqs, pid) ==>
              pid in products && RequestedQuantity(reqs, pid) <= products[pid].currentStock
  {
    PlacedStockAccounting(products, reqs, orderId, firstItemId);
    PlacedStockNonNegative(products, reqs, orderId, firstItemId);
  }

  /** The sum of the items' line totals. */
  function SumLineTotals(items: seq<OrderItem>): Money
  {
    if items == [] then 0.0 else SumLineTotals(items[..|items| - 1]) + items[|items| - 1].lineTotal
  }

  /** An item's line total is its unit price times its quantity. */
  predicate LineTotalIsPriceTimesQuantity(item: OrderItem)
  {
    item.lineTotal == LineTotal(item.unitPrice, item.quantity)
  }

  /** A non-empty request list is its prefix's placement followed by one more pass. */
  lemma PlaceItemsStep(products: map<int, Product>, reqs: seq<OrderItemCreateDto>, orderId: int, firstItemId: int)
    requires reqs != []
    requires PlaceItems(products, reqs, orderId, firstItemId).Ok?
    ensures PlaceItems(products, reqs[..|reqs| - 1], orderId, firstItemId).Ok?
    ensures PlaceItems(products, reqs, orderId, firstItemId)
              == PlaceItem(PlaceItems(products, reqs[..|reqs| - 1], orderId, firstItemId).value, reqs[|reqs| - 1], orderId, firstItemId)
  {
  }

  /**
   * On success each item carries the unit price its product had when the
   * order was placed and the line total unit price × quantity.
   */
  lemma {:induction false} PlacedLinesPriced(
    products: map<int, Product>, reqs: seq<OrderItemCreateDto>, orderId: int, firstItemId: int)
    requires PlaceItems(products, reqs, orderId, firstItemId).Ok?
    ensures var items := PlaceItems(products, reqs, orderId, firstItemId).value.items;
            forall i :: 0 <= i < |items| ==>
              items[i].unitPrice == products[reqs[i].productId].unitPrice && LineTotalIsPriceTimesQuantity(items[i])
  {
    if reqs != [] {
      var prefix, last := reqs[..|reqs| - 1], reqs[|reqs| - 1];
      PlaceItemsStep(products, reqs, orderId, firstItemId);
      PlacedLinesPriced(products, prefix, orderId, firstItemId);
      var before := PlaceItems(products, prefix, orderId, firstItemId).value;
      PlaceItemSucceeds(before, last, orderId, firstItemId);
      var items := PlaceItems(products, reqs, orderId, firstItemId).value.items;
      forall i | 0 <= i < |items|
        ensures items[i].unitPrice == products[reqs[i].productId].unitPrice
        ensures LineTotalIsPriceTimesQuantity(items[i])
      {
        if i < |before.items| {
          assert items[i] == before.items[i] && reqs[i] == prefix[i];
        }
      }
    }
  }

  /** On success the accumulated total is the sum of the line totals. */
  lemma {:induction false} PlacedTotalIsSum(
    products: map<int, Product>, reqs: seq<OrderItemCreateDto>, orderId: int, firstItemId: int)
    requires PlaceItems(products, reqs, orderId, firstItemId).Ok?
    ensures var pl := PlaceItems(products, reqs, orderId, firstItemId).value;
            pl.total == SumLineTotals(pl.items)
  {
    if reqs != [] {
      var prefix, last := reqs[..|reqs| - 1], reqs[|reqs| - 1];
      PlaceItemsStep(products, reqs, orderId, firstItemId);
      PlacedTotalIsSum(products, prefix, orderId, firstItemId);
      var before := PlaceItems(products, prefix, orderId, firstItemId).value;
      PlaceItemSucceeds(before, last, orderId, firstItemId);
      var items := PlaceItems(products, reqs, orderId, firstItemId).value.items;
      assert items[..|items| - 1] == before.items;
    }
  }

  // ---------------------------------------------------------------------
  // Putting stock back on cancellation
  // ---------------------------------------------------------------------

  /**
   * The restore loop of cancellation: each item's quantity is added back to
   * its product (unchecked 32-bit addition, as in the source); an item whose
   * product no longer exists is skipped.
   */
  function RestoreStock(products: map<int, Product>, items: seq<OrderItem>): (r: map<int, Product>)
    ensures SameExceptStock(products, r)
  {
    if items == [] then products
    else
      var prev := RestoreStock(products, items[..|items| - 1]);
      var item := items[|items| - 1];
      if item.productId in prev then
        prev[item.productId := prev[item.productId].(currentStock := Wrap32(prev[item.productId].currentStock + item.quantity))]
      else prev
  }

  /** The total quantity the items hold of product `pid`. */
  function ItemQuantity(items: seq<OrderItem>, pid: int): int
  {
    if items == [] then 0
    else
      var last := items[|items| - 1];
      ItemQuantity(items[..|items| - 1], pid) + (if last.productId == pid then last.quantity else 0)
  }

  /** Restoring raises each product's stock by the quantity its items hold, modulo 2^32. */
  lemma {:induction false} RestoredStockAccounting(products: map<int, Product>, items: seq<OrderItem>)
    ensures forall pid :: pid in products ==>
              RestoreStock(products, items)[pid].currentStock
                == Wrap32(products[pid].currentStock + ItemQuantity(items, pid))
  {
    if items != [] {
      var prefix := items[..|items| - 1];
      var item := items[|items| - 1];
      RestoredStockAccounting(products, prefix);
      forall pid | pid in products && pid == item.productId
        ensures RestoreStock(products, items)[pid].currentStock
                  == Wrap32(products[pid].currentStock + ItemQuantity(items, pid))
      {
        Wrap32Add(products[pid].currentStock + ItemQuantity(prefix, pid), item.quantity);
      }
    }
  }

  /** The items created for the requests hold, product by product, the quantities requested. */
  lemma {:induction false} PlacedItemsCarryRequests(
    products: map<int, Product>, reqs: seq<OrderItemCreateDto>, orderId: int, firstItemId: int)
    requires PlaceItems(products, reqs, orderId, firstItemId).Ok?
    ensures var items := PlaceItems(products, reqs, orderId, firstItemId).value.items;
            forall pid :: ItemQuantity(items, pid) == RequestedQuantity(reqs, pid)
  {
    if reqs != [] {
      var prefix := reqs[..|reqs| - 1];
      PlacedItemsCarryRequests(products, prefix, orderId, firstItemId);
      var items := PlaceItems(products, reqs, orderId, firstItemId).value.items;
      assert items[..|items| - 1] == PlaceItems(products, prefix, orderId, firstItemId).value.items;
    }
  }

  /** Cancelling the items an order placement created gives back exactly the stock it started from. */
  lemma CancelUndoesPlacement(
    products: map<int, Product>, reqs: seq<OrderItemCreateDto>, orderId: int, firstItemId: int)
    requires PlaceItems(products, reqs, orderId, firstItemId).Ok?
    ensures var pl := PlaceItems(products, reqs, orderId, firstItemId).value;
            RestoreStock(pl.products, pl.items) == products
  {
    var pl := PlaceItems(products, reqs, orderId, firstItemId).value;
    PlacedStockAccounting(products, reqs, orderId, firstItemId);
    PlacedItemsCarryRequests(products, reqs, orderId, firstItemId);
    RestoredStockAccounting(pl.products, pl.items);
    var restored := RestoreStock(pl.products, pl.items);
    forall pid | pid in products
      ensures restored[pid] == products[pid]
    {
      assert restored[pid].currentStock == Wrap32(products[pid].currentStock);
    }
  }

  // ---------------------------------------------------------------------
  // Reading orders back
  // ---------------------------------------------------------------------

  /** An item as the API shows it, with its product's name resolved ("" when the product is gone). */
  function ItemView(products: map<int, Product>, item: OrderItem): (r: OrderItemResponseDto)
    ensures r.id == item.id && r.productId == item.productId && r.quantity == item.quantity
    ensures r.unitPrice == item.unitPrice && r.lineTotal == item.lineTotal
    ensures r.productName == (if item.productId in products then products[item.productId].name else "")
  {
    OrderItemResponseDto(item.id, item.productId,
      if item.productId in products then products[item.productId].name else "",
      item.quantity, item.unitPrice, item.lineTotal)
  }

  /** An order as the API shows it, with customer and product names resolved. */
  function OrderView(customers: map<int, Customer>, products: map<int, Product>, o: Order): (r: OrderResponseDto)
    ensures r.id == o.id && r.customerId == o.customerId && r.status == StatusName(o.status)
    ensures r.totalAmount == o.totalAmount && r.createdAt == o.createdAt
    ensures o.customerId in customers ==> r.customerName == customers[o.customerId].name
    ensures |r.items| == |o.items|
    ensures forall i :: 0 <= i < |o.items| ==> r.items[i] == ItemView(products, o.items[i])
  {
    OrderResponseDto(o.id, o.customerId,
      if o.customerId in customers then customers[o.customerId].name else "",
      StatusName(o.status), o.totalAmount, o.createdAt,
      seq(|o.items|, i requires 0 <= i < |o.items| => ItemView(products, o.items[i])))
  }

  class OrderService {
    const context: CrmDbContext

    constructor (context: CrmDbContext)
      ensures this.context == context
    {
      this.context := context;
    }

    /** Every order, in id order. */
    function GetAll(): (r: seq<OrderResponseDto>)
      reads context
      requires OrdersKeyed(context.orders, context.nextOrderId)
      ensures forall i :: 0 <= i < |r| ==>
                r[i].id in context.orders && r[i] == OrderView(context.customers, context.products, context.orders[r[i].id])
      ensures forall i, j :: 0 <= i < j < |r| ==> r[i].id < r[j].id
      ensures forall k :: k in context.orders ==> exists i :: 0 <= i < |r| && r[i].id == k
    {
      var customers, products, orders := context.customers, context.products, context.orders;
      var ks := KeysFrom(orders, 1, context.nextOrderId);
      var r := seq(|ks|, i requires 0 <= i < |ks| => OrderView(customers, products, orders[ks[i]]));
      assert forall i :: 0 <= i < |ks| ==> r[i].id == ks[i];
      assert forall k :: k in orders ==> k in ks;
      r
    }

    /** The order with id `id`, or None when there is none. */
    function GetById(id: int): (r: Option<OrderResponseDto>)
      reads context
      ensures r.Some? <==> id in context.orders
      ensures r.Some? ==> r.value == OrderView(context.customers, context.products, context.orders[id])
    {
      if id in context.orders then Some(OrderView(context.customers, context.products, context.orders[id]))
      else None
    }

    /**
     * Creates an order for `dto.customerId` from `dto.items`, stamped `now`,
     * in one transaction: any error rolls the store back to its state before
     * the call and is passed on.
     */
    method Create(dto: OrderCreateDto, now: DateTime) returns (r: Result<OrderResponseDto, OrderError>)
      requires context.Valid()
      modifies context
      ensures context.Valid()
      ensures r.Err? ==> context.State() == old(context.State())
      ensures dto.customerId !in old(context.customers) ==> r == Err(CustomerNotFound)
      ensures dto.customerId in old(context.customers) ==>
                var orderId := old(context.nextOrderId);
                var placed := PlaceItems(old(context.products), dto.items, orderId, old(context.nextOrderItemId));
                && (placed.Err? ==> r == Err(placed.error))
                && (placed.Ok? ==>
                      var order := Order(orderId, dto.customerId, New, placed.value.total, now, placed.value.items);
                      && context.State() == old(context.State()).(
                           products := placed.value.products,
                           orders := old(context.orders)[orderId := order],
                           nextOrderId := orderId + 1,
                           nextOrderItemId := old(context.nextOrderItemId) + |dto.items|)
                      && r.Ok? && GetById(orderId) == Some(r.value))
    {
      var saved := context.State();
      var total := PlaceOrder(dto, now);
      if total.Err? {
        context.Rollback(saved);
        return Err(total.error);
      }
      ghost var placed := PlaceItems(saved.products, dto.items, saved.nextOrderId, saved.nextOrderItemId).value;
      var view := SetTotal(saved.nextOrderId, total.value, saved.orders,
                           Order(saved.nextOrderId, dto.customerId, New, 0.0, now, placed.items));
      ValidAfterPlacement(saved, dto, now, saved.nextOrderId);
      r := Ok(view);
    }

    /**
     * The work inside Create's transaction up to the commit: check the
     * customer, add the order, then place the items one by one, deducting
     * stock and adding up the total, which is the result.  On an error the
     * store is left part-way; Create rolls it back.
     */
    method PlaceOrder(dto: OrderCreateDto, now: DateTime) returns (r: Result<Money, OrderError>)
      modifies context
      ensures dto.customerId !in old(context.customers) ==> r == Err(CustomerNotFound)
      ensures dto.customerId in old(context.customers) ==>
                var orderId := old(context.nextOrderId);
                var placed := PlaceItems(old(context.products), dto.items, orderId, old(context.nextOrderItemId));
                && (placed.Err? ==> r == Err(placed.error))
                && (placed.Ok? ==>
                      && r == Ok(placed.value.total)
                      && context.products == placed.value.products
                      && context.orders == old(context.orders)[orderId := Order(orderId, dto.customerId, New, 0.0, now, placed.value.items)]
                      && context.nextOrderId == orderId + 1
                      && context.nextOrderItemId == old(context.nextOrderItemId) + |dto.items|
                      && context.customers == old(context.customers) && context.addresses == old(context.addresses)
                      && context.nextCustomerId == old(context.nextCustomerId)
                      && context.nextProductId == old(context.nextProductId)
                      && context.nextAddressId == old(context.nextAddressId))
    {
      if dto.customerId !in context.customers {
        return Err(CustomerNotFound);
      }

      var orderId := context.nextOrderId;
      var firstItemId := context.nextOrderItemId;
      var order := Order(orderId, dto.customerId, New, 0.0, now, []);
      ghost var others := context.orders;
      context.orders := context.orders[orderId := order];
      context.nextOrderId := orderId + 1;

      r := AddItems(orderId, firstItemId, dto.items, others, order);
    }

    /**
     * The end of Create's transaction: record the order total, then read the
     * order back as GetById shows it.
     */
    method SetTotal(orderId: int, totalAmount: Money, ghost others: map<int, Order>, ghost order: Order)
      returns (r: OrderResponseDto)
      requires context.orders == others[orderId := order]
      modifies context
      ensures context.orders == others[orderId := order.(totalAmount := totalAmount)]
      ensures context.customers == old(context.customers) && context.products == old(context.products)
      ensures context.addresses == old(context.addresses)
      ensures context.nextCustomerId == old(context.nextCustomerId) && context.nextProductId == old(context.nextProductId)
      ensures context.nextOrderId == old(context.nextOrderId) && context.nextOrderItemId == old(context.nextOrderItemId)
      ensures context.nextAddressId == old(context.nextAddressId)
      ensures GetById(orderId) == Some(r) && r.totalAmount == totalAmount
    {
      var current := context.orders[orderId];
      context.orders := context.orders[orderId := current.(totalAmount := totalAmount)];
      var view := GetById(orderId);
      r := view.value;
    }

    /**
     * Create's item loop for the new order `orderId`: the passes run in
     * request order and the first failing one ends the loop with its error;
     * the result is the order total.
     */
    method AddItems(orderId: int, firstItemId: int, reqs: seq<OrderItemCreateDto>, ghost others: map<int, Order>, ghost order: Order)
      returns (r: Result<Money, OrderError>)
      requires context.orders == others[orderId := order] && order.items == []
      requires context.nextOrderItemId == firstItemId
      modifies context
      ensures var placed := PlaceItems(old(context.products), reqs, orderId, firstItemId);
              && (placed.Err? ==> r == Err(placed.error))
              && (placed.Ok? ==>
                    && r == Ok(placed.value.total)
                    && context.products == placed.value.products
                    && context.orders == others[orderId := order.(items := placed.value.items)]
                    && context.nextOrderItemId == firstItemId + |reqs|
                    && context.customers == old(context.customers) && context.addresses == old(context.addresses)
                    && context.nextCustomerId == old(context.nextCustomerId)
                    && context.nextProductId == old(context.nextProductId)
                    && context.nextOrderId == old(context.nextOrderId)
                    && context.nextAddressId == old(context.nextAddressId))
    {
      ghost var products := context.products;
      ghost var items: seq<OrderItem> := [];
      var totalAmount: Money := 0.0;
      var i := 0;
      assert reqs[..0] == [];
      while i < |reqs|
        invariant 0 <= i <= |reqs|
        invariant PlaceItems(products, reqs[..i], orderId, firstItemId) == Ok(Placement(context.products, items, totalAmount))
        invariant context.orders == others[orderId := order.(items := items)]
        invariant context.nextOrderItemId == firstItemId + i
        invariant context.customers == old(context.customers) && context.addresses == old(context.addresses)
        invariant context.nextCustomerId == old(context.nextCustomerId) && context.nextProductId == old(context.nextProductId)
        invariant context.nextOrderId == old(context.nextOrderId) && context.nextAddressId == old(context.nextAddressId)
      {
        ghost var pl := Placement(context.products, items, totalAmount);
        PlaceItemsNext(products, reqs, i, orderId, firstItemId);
        var step := AddItem(orderId, firstItemId, reqs[i], totalAmount, others, order.(items := items));
        if step.Err? {
          PrefixFailureIsFinal(products, reqs, i + 1, orderId, firstItemId);
          return Err(step.error);
        }
        items := PlaceItem(pl, reqs[i], orderId, firstItemId).value.items;
        totalAmount := step.value;
        i := i + 1;
      }
      assert reqs[..i] == reqs;
      r := Ok(totalAmount);
    }

    /**
     * One pass of Create's item loop for order `orderId`: find the product,
     * check and deduct its stock, and add an item priced at the product's
     * current unit price; the result is the new running total.
     */
    method AddItem(orderId: int, firstItemId: int, itemDto: OrderItemCreateDto, totalAmount: Money,
                   ghost others: map<int, Order>, ghost order: Order)
      returns (r: Result<Money, OrderError>)
      requires context.orders == others[orderId := order]
      requires context.nextOrderItemId == firstItemId + |order.items|
      modifies context
      ensures var step := PlaceItem(Placement(old(context.products), order.items, totalAmount), itemDto, orderId, firstItemId);
              && (step.Err? ==> r == Err(step.error))
              && (step.Ok? ==>
                    && r == Ok(step.value.total)
                    && context.products == step.value.products
                    && context.orders == others[orderId := order.(items := step.value.items)]
                    && context.nextOrderItemId == old(context.nextOrderItemId) + 1
                    && context.customers == old(context.customers) && context.addresses == old(context.addresses)
                    && context.nextCustomerId == old(context.nextCustomerId)
                    && context.nextProductId == old(context.nextProductId)
                    && context.nextOrderId == old(context.nextOrderId)
                    && context.nextAddressId == old(context.nextAddressId))
    {
      PlaceItemSucceeds(Placement(context.products, order.items, totalAmount), itemDto, orderId, firstItemId);
      if itemDto.productId !in context.products {
        return Err(ProductNotFound(itemDto.productId));
      }
      var product := context.products[itemDto.productId];
      if product.currentStock < itemDto.quantity {
        return Err(InsufficientStock(product.name));
      }
      if product.currentStock - itemDto.quantity > MaxInt32 {
        return Err(ArithmeticOverflow);
      }
      context.products := context.products[itemDto.productId := product.(currentStock := product.currentStock - itemDto.quantity)];

      var lineTotal := LineTotal(product.unitPrice, itemDto.quantity);
      var item := OrderItem(context.nextOrderItemId, orderId, itemDto.productId, itemDto.quantity, product.unitPrice, lineTotal);
      var current := context.orders[orderId];
      context.orders := context.orders[orderId := current.(items := current.items + [item])];
      context.nextOrderItemId := context.nextOrderItemId + 1;
      r := Ok(totalAmount + lineTotal);
    }

    /**
     * Cancels order `id`: false when there is no such order or it is
     * already Cancelled (nothing changes); otherwise each item's quantity
     * goes back to its product's stock and the order becomes Cancelled.
     */
    method Cancel(id: int) returns (r: bool)
      requires context.Valid()
      modifies context
      ensures context.Valid()
      ensures r <==> id in old(context.orders) && old(context.orders)[id].status != Cancelled
      ensures !r ==> context.State() == old(context.State())
      ensures r ==>
                var order := old(context.orders)[id];
                context.State() == old(context.State()).(
                  products := RestoreStock(old(context.products), order.items),
                  orders := old(context.orders)[id := order.(status := Cancelled)])
    {
      if id !in context.orders {
        return false;
      }
      var order := context.orders[id];
      if order.status == Cancelled {
        return false;
      }

      RestoreItems(order.items);
      context.orders := context.orders[id := order.(status := Cancelled)];
      ValidAfterCancel(old(context.State()), id);
      r := true;
    }

    /**
     * Cancel's loop: each item's quantity goes back to its product's stock,
     * with the unchecked `int` addition; items whose product is gone are
     * skipped.  Nothing but stock levels changes.
     */
    method RestoreItems(items: seq<OrderItem>)
      modifies context
      ensures context.products == RestoreStock(old(context.products), items)
      ensures context.customers == old(context.customers) && context.orders == old(context.orders)
      ensures context.addresses == old(context.addresses)
      ensures context.nextCustomerId == old(context.nextCustomerId) && context.nextProductId == old(context.nextProductId)
      ensures context.nextOrderId == old(context.nextOrderId) && context.nextOrderItemId == old(context.nextOrderItemId)
      ensures context.nextAddressId == old(context.nextAddressId)
    {
      var i := 0;
      while i < |items|
        invariant 0 <= i <= |items|
        invariant context.products == RestoreStock(old(context.products), items[..i])
        invariant context.customers == old(context.customers) && context.orders == old(context.orders)
        invariant context.addresses == old(context.addresses)
        invariant context.nextCustomerId == old(context.nextCustomerId) && context.nextProductId == old(context.nextProductId)
        invariant context.nextOrderId == old(context.nextOrderId) && context.nextOrderItemId == old(context.nextOrderItemId)
        invariant context.nextAddressId == old(context.nextAddressId)
      {
        var item := items[i];
        assert items[..i + 1][..i] == items[..i];
        if item.productId in context.products {
          var product := context.products[item.productId];
          context.products := context.products[item.productId := product.(currentStock := Wrap32(product.currentStock + item.quantity))];
        }
        i := i + 1;
      }
      assert items[..i] == items;
    }
  }

  /** The new order's items have fresh ids, belong to it, and refer to existing products. */
  lemma PlacedOrderFits(saved: Tables, dto: OrderCreateDto, now: DateTime, orderId: int)
    requires Consistent(saved)
    requires orderId == saved.nextOrderId
    requires PlaceItems(saved.products, dto.items, orderId, saved.nextOrderItemId).Ok?
    ensures var placed := PlaceItems(saved.products, dto.items, orderId, saved.nextOrderItemId).value;
            var orders := saved.orders[orderId := Order(orderId, dto.customerId, New, placed.total, now, placed.items)];
            && ItemIdsBelow(orders, saved.nextOrderItemId + |dto.items|)
            && ItemsBelongToOrders(orders)
            && ItemsReferenceProducts(placed.products, orders)
  {
  }

  /** A successful placement, committed as a new order, keeps the store consistent. */
  lemma ValidAfterPlacement(saved: Tables, dto: OrderCreateDto, now: DateTime, orderId: int)
    requires Consistent(saved)
    requires dto.customerId in saved.customers
    requires orderId == saved.nextOrderId
    requires PlaceItems(saved.products, dto.items, orderId, saved.nextOrderItemId).Ok?
    ensures var placed := PlaceItems(saved.products, dto.items, orderId, saved.nextOrderItemId).value;
            var order := Order(orderId, dto.customerId, New, placed.total, now, placed.items);
            Consistent(saved.(
              products := placed.products,
              orders := saved.orders[orderId := order],
              nextOrderId := orderId + 1,
              nextOrderItemId := saved.nextOrderItemId + |dto.items|))
  {
    PlacedOrderFits(saved, dto, now, orderId);
  }

  /** Cancelling an order keeps the store consistent. */
  lemma ValidAfterCancel(t: Tables, id: int)
    requires Consistent(t)
    requires id in t.orders
    ensures Consistent(t.(
              products := RestoreStock(t.products, t.orders[id].items),
              orders := t.orders[id := t.orders[id].(status := Cancelled)]))
  {
  }
}
