/**
 * Customers: look-up, creation, overwrite (a missing phone is stored as the
 * empty string), and deletion guarded by the Order -> Customer restriction;
 * a deleted customer's addresses go with it.
 */
module Customers {
  import opened Wrappers
  import opened Models
  import opened Dtos
  import opened CrmDb

  /** The exception Delete raises for a customer that some order still refers to. */
  datatype CustomerError = CustomerHasOrders(customerId: int)

  /** A phone number as stored: a missing one becomes the empty string. */
  function StoredPhone(phone: Option<string>): (r: string)
    ensures phone.Some? ==> r == phone.value
    ensures phone.None? ==> r == ""
  {
    match phone
    case None => ""
    case Some(p) => p
  }

  /** A customer as the API shows it. */
  function CustomerView(c: Customer): (r: CustomerResponseDto)
    ensures r.id == c.id && r.name == c.name && r.email == c.email && r.phone == c.phone && r.createdAt == c.createdAt
  {
    CustomerResponseDto(c.id, c.name, c.email, c.phone, c.createdAt)
  }

  /** The customer Create stores under `id`: the request's fields, stamped `now`. */
  function NewCustomer(id: int, dto: CustomerCreateDto, now: DateTime): Customer
  {
    Customer(id, dto.name, dto.email, StoredPhone(dto.phone), now)
  }

  /** Update overwrites name, email and phone and keeps the id and the creation time. */
  function UpdatedCustomer(c: Customer, dto: CustomerUpdateDto): Customer
  {
    c.(name := dto.name, email := dto.email, phone := StoredPhone(dto.phone))
  }

  /**
   * Update is creating anew with the customer's own id and creation time;
   * sending no phone clears the stored one; and the stored customer is within
   * the schema's length limits exactly when the request's fields are.
   */
  lemma UpdateKeepsIdentity(c: Customer, dto: CustomerUpdateDto)
    ensures UpdatedCustomer(c, dto) == NewCustomer(c.id, dto, c.createdAt)
    ensures dto.phone.None? ==> UpdatedCustomer(c, dto).phone == ""
    ensures (CustomerWithinLimits(UpdatedCustomer(c, dto))
             <==> |dto.name| <= CustomerNameMax && |dto.email| <= CustomerEmailMax
                  && (dto.phone.Some? ==> |dto.phone.value| <= CustomerPhoneMax))
  {
  }

  class CustomerService {
    const context: CrmDbContext

    constructor (context: CrmDbContext)
      ensures this.context == context
    {
      this.context := context;
    }

    /** Every customer, in id order. */
    function GetAll(): (r: seq<CustomerResponseDto>)
      reads context
      requires CustomersKeyed(context.customers, context.nextCustomerId)
      ensures forall i :: 0 <= i < |r| ==> r[i].id in context.customers && r[i] == CustomerView(context.customers[r[i].id])
      ensures forall i, j :: 0 <= i < j < |r| ==> r[i].id < r[j].id
      ensures forall k :: k in context.customers ==> exists i :: 0 <= i < |r| && r[i].id == k
    {
      var customers := context.customers;
      var ks := KeysFrom(customers, 1, context.nextCustomerId);
      var r := seq(|ks|, i requires 0 <= i < |ks| => CustomerView(customers[ks[i]]));
      assert forall i :: 0 <= i < |ks| ==> r[i].id == ks[i];
      assert forall k :: k in customers ==> k in ks;
      r
    }

    /** The customer with id `id`, or None when there is none. */
    function GetById(id: int): (r: Option<CustomerResponseDto>)
      reads context
      ensures r.None? <==> id !in context.customers
      ensures r.Some? ==> r.value == CustomerView(context.customers[id])
    {
      if id in context.customers then Some(CustomerView(context.customers[id])) else None
    }

    /** Adds a customer built from `dto`, stamped `now`, under the next free id. */
    method Create(dto: CustomerCreateDto, now: DateTime) returns (r: CustomerResponseDto)
      requires context.Valid()
      modifies context
      ensures context.Valid()
      ensures r.id == old(context.nextCustomerId) && r.id !in old(context.customers)
      ensures context.State() == old(context.State()).(
                customers := old(context.customers)[r.id := NewCustomer(r.id, dto, now)],
                nextCustomerId := r.id + 1)
      ensures r == CustomerView(NewCustomer(r.id, dto, now)) && GetById(r.id) == Some(r)
    {
      var id := context.nextCustomerId;
      var customer := NewCustomer(id, dto, now);
      context.customers := context.customers[id := customer];
      context.nextCustomerId := id + 1;
      r := CustomerView(customer);
    }

    /** Overwrites customer `id` from `dto`; None, and no change, when there is no such customer. */
    method Update(id: int, dto: CustomerUpdateDto) returns (r: Option<CustomerResponseDto>)
      requires context.Valid()
      modifies context
      ensures context.Valid()
      ensures r.None? <==> id !in old(context.customers)
      ensures r.None? ==> context.State() == old(context.State())
      ensures r.Some? ==>
                && context.State() == old(context.State()).(
                     customers := old(context.customers)[id := UpdatedCustomer(old(context.customers)[id], dto)])
                && r == GetById(id)
    {
      if id !in context.customers {
        return None;
      }
      var customer := context.customers[id];
      customer := UpdatedCustomer(customer, dto);
      context.customers := context.customers[id := customer];
      r := Some(CustomerView(customer));
    }

    /**
     * Removes customer `id` together with its addresses: false when there is
     * no such customer, the CustomerHasOrders error, and no change, while an
     * order refers to it.
     */
    method Delete(id: int) returns (r: Result<bool, CustomerError>)
      requires context.Valid()
      modifies context
      ensures context.Valid()
      ensures id !in old(context.customers) ==> r == Ok(false)
      ensures id in old(context.customers) && CustomerReferenced(old(context.orders), id) ==> r == Err(CustomerHasOrders(id))
      ensures r != Ok(true) ==> context.State() == old(context.State())
      ensures r == Ok(true) <==> id in old(context.customers) && !CustomerReferenced(old(context.orders), id)
      ensures r == Ok(true) ==>
                context.State() == old(context.State()).(
                  customers := old(context.customers) - {id},
                  addresses := CascadeAddresses(old(context.addresses), id))
    {
      if id !in context.customers {
        return Ok(false);
      }
      if CustomerReferenced(context.orders, id) {
        return Err(CustomerHasOrders(id));
      }
      CustomerRestrictKeepsOrders(context.customers, context.orders, id);
      AddressCascadeKeepsAddresses(context.customers, context.addresses, id);
      context.customers := context.customers - {id};
      context.addresses := CascadeAddresses(context.addresses, id);
      r := Ok(true);
    }
  }
}
