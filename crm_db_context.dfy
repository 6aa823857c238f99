/**
 * The store and the integrity rules its schema declares: key columns, field
 * length limits, and what deleting a row does to the rows that refer to it
 * (Order -> Customer and OrderItem -> Product are restricted; OrderItems
 * cascade with their Order, Addresses with their Customer).
 */
module CrmDb {
  import opened Models

  // ---------------------------------------------------------------------
  // Field length limits.  The schema declares them; the SQLite provider
  // does not enforce them, so they are conditions on rows, not invariants.
  // ---------------------------------------------------------------------

  const CustomerNameMax: nat := 100
  const CustomerEmailMax: nat := 100
  const CustomerPhoneMax: nat := 20
  const ProductNameMax: nat := 100
  const ProductSkuMax: nat := 50
  const AddressStreetMax: nat := 200
  const AddressSuburbMax: nat := 100
  const AddressPostcodeMax: nat := 20
  const AddressStateMax: nat := 50

  predicate CustomerWithinLimits(c: Customer)
  {
    |c.name| <= CustomerNameMax && |c.email| <= CustomerEmailMax && |c.phone| <= CustomerPhoneMax
  }

  predicate ProductWithinLimits(p: Product)
  {
    |p.name| <= ProductNameMax && |p.sku| <= ProductSkuMax
  }

  predicate AddressWithinLimits(a: Address)
  {
    && |a.street| <= AddressStreetMax
    && |a.suburb| <= AddressSuburbMax
    && |a.postcode| <= AddressPostcodeMax
    && |a.state| <= AddressStateMax
  }

  // ---------------------------------------------------------------------
  // Relationships
  // ---------------------------------------------------------------------

  /** Order.CustomerId is a foreign key to Customers. */
  predicate OrdersReferenceCustomers(customers: map<int, Customer>, orders: map<int, Order>)
  {
    forall k :: k in orders ==> orders[k].customerId in customers
  }

  /** OrderItem.ProductId is a foreign key to Products. */
  predicate ItemsReferenceProducts(products: map<int, Product>, orders: map<int, Order>)
  {
    forall k, i :: k in orders && 0 <= i < |orders[k].items| ==> orders[k].items[i].productId in products
  }

  /** Address.CustomerId is a foreign key to Customers. */
  predicate AddressesReferenceCustomers(customers: map<int, Customer>, addresses: map<int, Address>)
  {
    forall k :: k in addresses ==> addresses[k].customerId in customers
  }

  /** Every OrderItem's OrderId names the order that holds it. */
  predicate ItemsBelongToOrders(orders: map<int, Order>)
  {
    forall k, i :: k in orders && 0 <= i < |orders[k].items| ==> orders[k].items[i].orderId == k
  }

  /** Some order refers to customer `cid`: the condition under which deleting it is restricted. */
  predicate CustomerReferenced(orders: map<int, Order>, cid: int)
  {
    exists k :: k in orders && orders[k].customerId == cid
  }

  /** Some order item refers to product `pid`: the condition under which deleting it is restricted. */
  predicate ProductReferenced(orders: map<int, Order>, pid: int)
  {
    exists k, i :: k in orders && 0 <= i < |orders[k].items| && orders[k].items[i].productId == pid
  }

  /** The addresses that survive deleting customer `cid`: its own addresses go with it (cascade). */
  function CascadeAddresses(addresses: map<int, Address>, cid: int): (r: map<int, Address>)
    ensures forall k :: k in r <==> k in addresses && addresses[k].customerId != cid
    ensures forall k :: k in r ==> r[k] == addresses[k]
  {
    map k | k in addresses && addresses[k].customerId != cid :: addresses[k]
  }

  /** Deleting order `id`: its items are stored with it and go with it (cascade). */
  function RemoveOrder(orders: map<int, Order>, id: int): (r: map<int, Order>)
    requires ItemsBelongToOrders(orders)
    ensures r.Keys == orders.Keys - {id}
    ensures forall k :: k in r ==> r[k] == orders[k]
    ensures forall k, i :: k in r && 0 <= i < |r[k].items| ==> r[k].items[i].orderId != id
  {
    orders - {id}
  }

  /** The Order -> Customer restriction is exactly what keeps the foreign key intact. */
  lemma CustomerRestrictKeepsOrders(customers: map<int, Customer>, orders: map<int, Order>, cid: int)
    requires OrdersReferenceCustomers(customers, orders)
    ensures OrdersReferenceCustomers(customers - {cid}, orders) <==> !CustomerReferenced(orders, cid)
  {
    if CustomerReferenced(orders, cid) {
      var k :| k in orders && orders[k].customerId == cid;
      assert orders[k].customerId !in customers - {cid};
    }
  }

  /** The OrderItem -> Product restriction is exactly what keeps the foreign key intact. */
  lemma ProductRestrictKeepsItems(products: map<int, Product>, orders: map<int, Order>, pid: int)
    requires ItemsReferenceProducts(products, orders)
    ensures ItemsReferenceProducts(products - {pid}, orders) <==> !ProductReferenced(orders, pid)
  {
    if ProductReferenced(orders, pid) {
      var k, i :| k in orders && 0 <= i < |orders[k].items| && orders[k].items[i].productId == pid;
      assert orders[k].items[i].productId !in products - {pid};
    }
  }

  /** Cascading a customer's addresses leaves no address pointing at the deleted customer. */
  lemma AddressCascadeKeepsAddresses(customers: map<int, Customer>, addresses: map<int, Address>, cid: int)
    requires AddressesReferenceCustomers(customers, addresses)
    ensures AddressesReferenceCustomers(customers - {cid}, CascadeAddresses(addresses, cid))
  {
  }

  // ---------------------------------------------------------------------
  // The store
  // ---------------------------------------------------------------------

  /** A snapshot of every table and of the id each table hands out next. */
  datatype Tables = Tables(
    customers: map<int, Customer>,
    products: map<int, Product>,
    orders: map<int, Order>,
    addresses: map<int, Address>,
    nextCustomerId: int,
    nextProductId: int,
    nextOrderId: int,
    nextOrderItemId: int,
    nextAddressId: int)

  /** Rows are stored under their own positive id, below the table's next id. */
  predicate CustomersKeyed(m: map<int, Customer>, next: int)
  {
    forall k :: k in m ==> 0 < k < next && m[k].id == k
  }

  predicate ProductsKeyed(m: map<int, Product>, next: int)
  {
    forall k :: k in m ==> 0 < k < next && m[k].id == k
  }

  predicate OrdersKeyed(m: map<int, Order>, next: int)
  {
    forall k :: k in m ==> 0 < k < next && m[k].id == k
  }

  predicate AddressesKeyed(m: map<int, Address>, next: int)
  {
    forall k :: k in m ==> 0 < k < next && m[k].id == k
  }

  predicate ItemIdsBelow(orders: map<int, Order>, next: int)
  {
    forall k, i :: k in orders && 0 <= i < |orders[k].items| ==> 0 < orders[k].items[i].id < next
  }

  /** The integrity of the whole store: keys, ownership and every foreign key. */
  predicate Consistent(t: Tables)
  {
    && 0 < t.nextCustomerId && 0 < t.nextProductId && 0 < t.nextOrderId
    && 0 < t.nextOrderItemId && 0 < t.nextAddressId
    && CustomersKeyed(t.customers, t.nextCustomerId)
    && ProductsKeyed(t.products, t.nextProductId)
    && OrdersKeyed(t.orders, t.nextOrderId)
    && AddressesKeyed(t.addresses, t.nextAddressId)
    && ItemIdsBelow(t.orders, t.nextOrderItemId)
    && ItemsBelongToOrders(t.orders)
    && OrdersReferenceCustomers(t.customers, t.orders)
    && ItemsReferenceProducts(t.products, t.orders)
    && AddressesReferenceCustomers(t.customers, t.addresses)
  }

  /** Deleting an order together with its items keeps the store consistent. */
  lemma OrderCascadeKeepsConsistent(t: Tables, id: int)
    requires Consistent(t)
    ensures Consistent(t.(orders := RemoveOrder(t.orders, id)))
  {
  }

  /**
   * The keys of `m` in [lo, hi), in ascending order: the order in which a
   * table scan returns rows.
   */
  function KeysFrom<T>(m: map<int, T>, lo: int, hi: int): (ks: seq<int>)
    decreases hi - lo
    ensures forall k :: k in ks <==> k in m && lo <= k < hi
    ensures forall i, j :: 0 <= i < j < |ks| ==> ks[i] < ks[j]
  {
    if lo >= hi then []
    else
      var rest := KeysFrom(m, lo + 1, hi);
      assert forall j :: 0 <= j < |rest| ==> rest[j] in rest;
      if lo in m then [lo] + rest else rest
  }

  /** The database: one map per table and one id counter per table. */
  class CrmDbContext {
    var customers: map<int, Customer>
    var products: map<int, Product>
    var orders: map<int, Order>
    var addresses: map<int, Address>
    var nextCustomerId: int
    var nextProductId: int
    var nextOrderId: int
    var nextOrderItemId: int
    var nextAddressId: int

    function State(): Tables
      reads this
    {
      Tables(customers, products, orders, addresses,
             nextCustomerId, nextProductId, nextOrderId, nextOrderItemId, nextAddressId)
    }

    ghost predicate Valid()
      reads this
    {
      Consistent(State())
    }

    /** An empty database. */
    constructor ()
      ensures Valid()
      ensures customers == map[] && products == map[] && orders == map[] && addresses == map[]
    {
      customers, products, orders, addresses := map[], map[], map[], map[];
      nextCustomerId, nextProductId, nextOrderId, nextOrderItemId, nextAddressId := 1, 1, 1, 1, 1;
    }

    /** Rolling back a transaction: every table and counter returns to the snapshot taken when it began. */
    method Rollback(saved: Tables)
      modifies this
      ensures State() == saved
    {
      customers, products, orders, addresses := saved.customers, saved.products, saved.orders, saved.addresses;
      nextCustomerId, nextProductId := saved.nextCustomerId, saved.nextProductId;
      nextOrderId, nextOrderItemId, nextAddressId := saved.nextOrderId, saved.nextOrderItemId, saved.nextAddressId;
    }
  }
}
