/**
 * Customer addresses: look-up (all, by id, by owning customer), creation
 * guarded by the owner's existence, overwrite of the address lines, and
 * deletion.  Every address is shown with its owner's name.
 */
module Addresses {
  import opened Wrappers
  import opened Models
  import opened Dtos
  import opened CrmDb

  /** The exception Create raises when the owning customer does not exist. */
  datatype AddressError = CustomerNotFound(customerId: int)

  /** An address as the API shows it, joined with its owner's name ("" when the owner is gone). */
  function AddressView(customers: map<int, Customer>, a: Address): (r: AddressDto)
    ensures r.id == a.id && r.customerId == a.customerId
    ensures r.street == a.street && r.suburb == a.suburb && r.postcode == a.postcode && r.state == a.state
    ensures a.customerId in customers ==> r.customerName == customers[a.customerId].name
  {
    AddressDto(a.id, a.customerId,
      if a.customerId in customers then customers[a.customerId].name else "",
      a.street, a.suburb, a.postcode, a.state)
  }

  /** The keys in `ks`, in their order, whose address belongs to customer `cid`. */
  function OwnedKeys(addresses: map<int, Address>, ks: seq<int>, cid: int): (r: seq<int>)
    ensures forall k :: k in r <==> k in ks && k in addresses && addresses[k].customerId == cid
    ensures (forall i, j :: 0 <= i < j < |ks| ==> ks[i] < ks[j]) ==> forall i, j :: 0 <= i < j < |r| ==> r[i] < r[j]
  {
    if ks == [] then []
    else
      var rest := OwnedKeys(addresses, ks[1..], cid);
      assert forall j :: 0 <= j < |rest| ==> rest[j] in rest;
      if ks[0] in addresses && addresses[ks[0]].customerId == cid then [ks[0]] + rest else rest
  }

  /** The address Create stores under `id`. */
  function NewAddress(id: int, dto: AddressCreateDto): Address
  {
    Address(id, dto.customerId, dto.street, dto.suburb, dto.postcode, dto.state)
  }

  /** Update overwrites the four address lines and keeps the id and the owner. */
  function UpdatedAddress(a: Address, dto: AddressUpdateDto): Address
  {
    a.(street := dto.street, suburb := dto.suburb, postcode := dto.postcode, state := dto.state)
  }

  /**
   * Update can never move an address to another customer, and the result is
   * within the schema's length limits exactly when the request's lines are.
   */
  lemma UpdateKeepsOwner(a: Address, dto: AddressUpdateDto)
    ensures UpdatedAddress(a, dto).id == a.id && UpdatedAddress(a, dto).customerId == a.customerId
    ensures UpdatedAddress(a, dto) == NewAddress(a.id, AddressCreateDto(a.customerId, dto.street, dto.suburb, dto.postcode, dto.state))
    ensures (AddressWithinLimits(UpdatedAddress(a, dto))
             <==> |dto.street| <= AddressStreetMax && |dto.suburb| <= AddressSuburbMax
                  && |dto.postcode| <= AddressPostcodeMax && |dto.state| <= AddressStateMax)
  {
  }

  class AddressService {
    const context: CrmDbContext

    constructor (context: CrmDbContext)
      ensures this.context == context
    {
      this.context := context;
    }

    /** Every address, in id order. */
    function GetAll(): (r: seq<AddressDto>)
      reads context
      requires AddressesKeyed(context.addresses, context.nextAddressId)
      ensures forall i :: 0 <= i < |r| ==>
                r[i].id in context.addresses && r[i] == AddressView(context.customers, context.addresses[r[i].id])
      ensures forall i, j :: 0 <= i < j < |r| ==> r[i].id < r[j].id
      ensures forall k :: k in context.addresses ==> exists i :: 0 <= i < |r| && r[i].id == k
    {
      var customers, addresses := context.customers, context.addresses;
      var ks := KeysFrom(addresses, 1, context.nextAddressId);
      var r := seq(|ks|, i requires 0 <= i < |ks| => AddressView(customers, addresses[ks[i]]));
      assert forall i :: 0 <= i < |ks| ==> r[i].id == ks[i];
      assert forall k :: k in addresses ==> k in ks;
      r
    }

    /** The address with id `id`, or None when there is none. */
    function GetById(id: int): (r: Option<AddressDto>)
      reads context
      ensures r.None? <==> id !in context.addresses
      ensures r.Some? ==> r.value == AddressView(context.customers, context.addresses[id])
    {
      if id in context.addresses then Some(AddressView(context.customers, context.addresses[id])) else None
    }

    /** The addresses of customer `customerId`, exactly those, in id order. */
    function GetByCustomerId(customerId: int): (r: seq<AddressDto>)
      reads context
      requires AddressesKeyed(context.addresses, context.nextAddressId)
      ensures forall i :: 0 <= i < |r| ==>
                && r[i].id in context.addresses
                && r[i].customerId == customerId
                && r[i] == AddressView(context.customers, context.addresses[r[i].id])
      ensures forall i, j :: 0 <= i < j < |r| ==> r[i].id < r[j].id
      ensures forall k :: k in context.addresses && context.addresses[k].customerId == customerId ==>
                exists i :: 0 <= i < |r| && r[i].id == k
    {
      var customers, addresses := context.customers, context.addresses;
      var all := KeysFrom(addresses, 1, context.nextAddressId);
      assert forall k :: k in addresses ==> k in all;
      var ks := OwnedKeys(addresses, all, customerId);
      var r := seq(|ks|, i requires 0 <= i < |ks| => AddressView(customers, addresses[ks[i]]));
      assert forall i :: 0 <= i < |ks| ==> r[i].id == ks[i] && ks[i] in ks;
      r
    }

    /**
     * Adds an address for `dto.customerId` under the next free id; the
     * CustomerNotFound error, and no change, when there is no such customer.
     */
    method Create(dto: AddressCreateDto) returns (r: Result<AddressDto, AddressError>)
      requires context.Valid()
      modifies context
      ensures context.Valid()
      ensures r.Err? <==> dto.customerId !in old(context.customers)
      ensures r.Err? ==> r.error == CustomerNotFound(dto.customerId) && context.State() == old(context.State())
      ensures r.Ok? ==>
                && r.value.id == old(context.nextAddressId) && r.value.id !in old(context.addresses)
                && context.State() == old(context.State()).(
                     addresses := old(context.addresses)[r.value.id := NewAddress(r.value.id, dto)],
                     nextAddressId := r.value.id + 1)
                && r.value.customerName == context.customers[dto.customerId].name
                && GetById(r.value.id) == Some(r.value)
    {
      if dto.customerId !in context.customers {
        return Err(CustomerNotFound(dto.customerId));
      }
      var customer := context.customers[dto.customerId];
      var id := context.nextAddressId;
      var address := NewAddress(id, dto);
      context.addresses := context.addresses[id := address];
      context.nextAddressId := id + 1;
      r := Ok(AddressDto(id, address.customerId, customer.name, address.street, address.suburb, address.postcode, address.state));
    }

    /** Overwrites the lines of address `id`; None, and no change, when there is no such address. */
    method Update(id: int, dto: AddressUpdateDto) returns (r: Option<AddressDto>)
      requires context.Valid()
      modifies context
      ensures context.Valid()
      ensures r.None? <==> id !in old(context.addresses)
      ensures r.None? ==> context.State() == old(context.State())
      ensures r.Some? ==>
                && context.State() == old(context.State()).(
                     addresses := old(context.addresses)[id := UpdatedAddress(old(context.addresses)[id], dto)])
                && r == GetById(id)
    {
      if id !in context.addresses {
        return None;
      }
      var address := context.addresses[id];
      address := UpdatedAddress(address, dto);
      context.addresses := context.addresses[id := address];
      r := Some(AddressView(context.customers, address));
    }

    /** Removes address `id`: false, and no change, when there is no such address. */
    method Delete(id: int) returns (r: bool)
      requires context.Valid()
      modifies context
      ensures context.Valid()
      ensures r <==> id in old(context.addresses)
      ensures !r ==> context.State() == old(context.State())
      ensures r ==> context.State() == old(context.State()).(addresses := old(context.addresses) - {id})
    {
      if id !in context.addresses {
        return false;
      }
      context.addresses := context.addresses - {id};
      r := true;
    }
  }
}
