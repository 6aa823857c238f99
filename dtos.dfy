/** Request and response records of the services. */
module Dtos {
  import opened Wrappers
  import opened Models

  // Products

  datatype ProductCreateDto = ProductCreateDto(name: string, sku: string, unitPrice: Money, currentStock: Int32)

  /** The update request carries the same four fields as the create request. */
  type ProductUpdateDto = ProductCreateDto

  datatype ProductResponseDto = ProductResponseDto(
    id: int, name: string, sku: string, unitPrice: Money, currentStock: Int32, createdAt: DateTime)

  // Customers

  /** `phone` is nullable in the request. */
  datatype CustomerCreateDto = CustomerCreateDto(name: string, email: string, phone: Option<string>)

  type CustomerUpdateDto = CustomerCreateDto

  datatype CustomerResponseDto = CustomerResponseDto(
    id: int, name: string, email: string, phone: string, createdAt: DateTime)

  // Addresses

  datatype AddressCreateDto = AddressCreateDto(
    customerId: int, street: string, suburb: string, postcode: string, state: string)

  datatype AddressUpdateDto = AddressUpdateDto(street: string, suburb: string, postcode: string, state: string)

  datatype AddressDto = AddressDto(
    id: int, customerId: int, customerName: string,
    street: string, suburb: string, postcode: string, state: string)

  // Orders

  datatype OrderItemCreateDto = OrderItemCreateDto(productId: int, quantity: Int32)

  datatype OrderCreateDto = OrderCreateDto(customerId: int, items: seq<OrderItemCreateDto>)

  datatype OrderItemResponseDto = OrderItemResponseDto(
    id: int, productId: int, productName: string, quantity: Int32, unitPrice: Money, lineTotal: Money)

  datatype OrderResponseDto = OrderResponseDto(
    id: int, customerId: int, customerName: string, status: string,
    totalAmount: Money, createdAt: DateTime, items: seq<OrderItemResponseDto>)
}
