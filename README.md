# MiniCRM backend core in Dafny

This project models the domain logic of the MiniCRM backend: a small
customer-relationship store of customers, products, orders (each with its
order items) and customer addresses, and the four services that work on it.

- `wrappers.dfy`: `Option` and `Result`. They stand for the services' nullable results and for the exceptions they throw.
- `models.dfy`: the entities. Money (`decimal`) is an exact `real`. The 32-bit `int` columns (stock, quantity) are an `Int32` subset type. `Wrap32` is C#'s unchecked 32-bit arithmetic.
- `dtos.dfy`: the request and response records.
- `crm_db_context.dfy`: the store (`CrmDbContext`) as a class with one map per table and one id counter per table. It also holds the schema's rules:
  - the length limits;
  - the foreign keys;
  - the cascade and restrict delete behaviours;
  - `Consistent`, the integrity invariant every service operation preserves.
- `order_service.dfy`: order creation and cancellation.
  - Create is all-or-nothing: a snapshot of the store is taken first and restored on any error. The work inside the transaction is `PlaceOrder`. Its item loop is `AddItems`, and one pass of that loop is `AddItem`. Recording the total and reading the order back is `SetTotal`. Cancel's restore loop is `RestoreItems`.
  - Each method is proved against the pure function `PlaceItems` (or `RestoreStock` for cancellation). The properties of those functions are proved as lemmas: stock accounting, non-negative stock, unit-price snapshot, line totals, total = Σ line totals, and cancel undoing create.
  - Read-back projections: `OrderView`, `GetAll`, `GetById`.
- `product_service.dfy`, `customer_service.dfy`, `address_service.dfy`: the CRUD services, with their absent-key results and their referential guards.

The clock (`DateTime.UtcNow`) is a `now` parameter. The database is the
`CrmDbContext` object that every service holds.

## Model

| member | source | states |
|---|---|---|
| Models.Wrap32 | backend/MiniCRM/Services/OrderService.cs:157 | the unchecked `int` addition result: unchanged when it fits, otherwise congruent to the exact sum modulo 2^32 |
| Models.StatusName | backend/MiniCRM/Services/OrderService.cs:59 | the name `ToString()` gives each order status (definition) |
| Models.StatusNamesDistinct | backend/MiniCRM/Services/OrderService.cs:59 | two statuses have the same name if and only if they are the same status |
| CrmDb.CascadeAddresses | backend/MiniCRM/Data/CrmDbContext.cs:73-76 | deleting a customer removes exactly the addresses that belong to it and keeps every other address unchanged |
| CrmDb.CustomerWithinLimits | backend/MiniCRM/Data/CrmDbContext.cs:24-26 | a customer fits the schema when name ≤ 100, email ≤ 100 and phone ≤ 20 characters (definition) |
| CrmDb.ProductWithinLimits | backend/MiniCRM/Data/CrmDbContext.cs:33-34 | a product fits the schema when name ≤ 100 and SKU ≤ 50 characters (definition) |
| CrmDb.AddressWithinLimits | backend/MiniCRM/Data/CrmDbContext.cs:69-72 | an address fits the schema when street ≤ 200, suburb ≤ 100, postcode ≤ 20 and state ≤ 50 characters (definition) |
| CrmDb.OrdersReferenceCustomers | backend/MiniCRM/Data/CrmDbContext.cs:43-45 | every order's customer id names an existing customer (definition of the foreign key) |
| CrmDb.ItemsReferenceProducts | backend/MiniCRM/Data/CrmDbContext.cs:59-61 | every order item's product id names an existing product (definition of the foreign key) |
| CrmDb.AddressesReferenceCustomers | backend/MiniCRM/Data/CrmDbContext.cs:73-75 | every address's customer id names an existing customer (definition of the foreign key) |
| CrmDb.ItemsBelongToOrders | backend/MiniCRM/Data/CrmDbContext.cs:55-57 | every item's order id names the order that holds it (definition of the foreign key) |
| CrmDb.CustomerReferenced | backend/MiniCRM/Data/CrmDbContext.cs:43-46 | some order refers to the customer: the condition that restricts its deletion (definition) |
| CrmDb.ProductReferenced | backend/MiniCRM/Data/CrmDbContext.cs:59-62 | some order item refers to the product: the condition that restricts its deletion (definition) |
| CrmDb.Consistent | backend/MiniCRM/Data/CrmDbContext.cs:20-77 | the store's integrity: every row is stored under its own positive id below its table's next id, item ids are below the next item id, and all four foreign keys hold (definition) |
| CrmDb.RemoveOrder | backend/MiniCRM/Data/CrmDbContext.cs:55-58 | deleting an order removes that order and nothing else, and no remaining item belongs to it (its items go with it) |
| CrmDb.CustomerRestrictKeepsOrders | backend/MiniCRM/Data/CrmDbContext.cs:43-46 | removing a customer keeps every order's customer reference valid if and only if no order refers to that customer |
| CrmDb.ProductRestrictKeepsItems | backend/MiniCRM/Data/CrmDbContext.cs:59-62 | removing a product keeps every order item's product reference valid if and only if no item refers to that product |
| CrmDb.AddressCascadeKeepsAddresses | backend/MiniCRM/Data/CrmDbContext.cs:73-76 | after the address cascade, every remaining address still refers to an existing customer |
| CrmDb.OrderCascadeKeepsConsistent | backend/MiniCRM/Data/CrmDbContext.cs:55-58 | deleting an order together with its items keeps the whole store consistent |
| CrmDb.CrmDbContext.Rollback | backend/MiniCRM/Services/OrderService.cs:132-136 | rolling back returns every table and id counter to the snapshot taken when the transaction began |
| Orders.DeductStockAsWritten | backend/MiniCRM/Services/OrderService.cs:104-108 | the source's deduction: once the stock check passes, the new stock is the 32-bit truncation of stock − quantity, and nothing else changes |
| Orders.AsWrittenStockCanGoNegative | backend/MiniCRM/Services/OrderService.cs:104-108 | with stock 5 and quantity int.MinValue the check passes, and the stock as written becomes −2147483643 |
| Orders.DeductStock | backend/MiniCRM/Services/OrderService.cs:104-108 | the deduction succeeds if and only if quantity ≤ stock and the difference fits in an `int`; it then lowers the stock by exactly the quantity and leaves it ≥ 0; an insufficient stock fails with the product's name |
| Orders.CheckedDeductionRefusesExactlyTheWraps | backend/MiniCRM/Services/OrderService.cs:104-108 | after the stock check, the checked deduction fails exactly when the source's deduction would leave a negative stock, and agrees with it otherwise |
| Orders.PlaceItem | backend/MiniCRM/Services/OrderService.cs:100-122 | one pass of the item loop: a missing product fails with its id; a refused deduction fails with that error; otherwise the stock is deducted, one item is appended priced at the product's current price, and the line total is added (its exact unfolding, for proofs, is the helper `PlaceItemSucceeds`) |
| Orders.PlaceItemEffect | backend/MiniCRM/Services/OrderService.cs:100-122 | a missing product fails with ProductNotFound; too little stock fails with InsufficientStock naming the product; on success only that product's stock changes, by exactly the quantity, and one item for the request is appended with the product's current unit price, its line total added to the running total |
| Orders.PlaceItems | backend/MiniCRM/Services/OrderService.cs:98-123 | on success only stock levels change, every requested product exists, and there is one item per request, in request order, with consecutive ids, the order's id, and the requested product and quantity (the helpers `PlaceItemsNext` and `PlaceItemsStep` unfold one step of this fold for the loop proof) |
| Orders.PrefixFailureIsFinal | backend/MiniCRM/Services/OrderService.cs:98-102 | once an earlier request fails, the whole creation fails with that same error |
| Orders.PlacementStops | backend/MiniCRM/Services/OrderService.cs:100-105 | when the pass for request i fails, the whole creation fails with that pass's error |
| Orders.PlacementAdvances | backend/MiniCRM/Services/OrderService.cs:107-122 | when the pass for request i succeeds, the first i + 1 requests yield the deducted stock, one more item numbered after the others, and the line total added |
| Orders.PlacedStockAccounting | backend/MiniCRM/Services/OrderService.cs:98-108 | on success, every product's stock falls by exactly the sum of the quantities requested for it |
| Orders.PlacedStockNonNegative | backend/MiniCRM/Services/OrderService.cs:104-108 | on success, every requested product is left with a stock ≥ 0 |
| Orders.PlacementNeverOverdraws | backend/MiniCRM/Services/OrderService.cs:98-108 | on success, the quantities requested for a product, summed over repeated lines, do not exceed its stock |
| Orders.PlacedLinesPriced | backend/MiniCRM/Services/OrderService.cs:110-120 | every created item carries its product's unit price at creation time, and line total = unit price × quantity |
| Orders.PlacedTotalIsSum | backend/MiniCRM/Services/OrderService.cs:95-124 | the order total is the sum of its items' line totals |
| Orders.RestoreStock | backend/MiniCRM/Services/OrderService.cs:152-159 | putting stock back changes nothing but stock levels |
| Orders.RestoredStockAccounting | backend/MiniCRM/Services/OrderService.cs:152-159 | restoring raises each product's stock by the total quantity its items hold, with 32-bit wrap-around |
| Orders.PlacedItemsCarryRequests | backend/MiniCRM/Services/OrderService.cs:113-122 | for every product, the created items hold exactly the quantities requested for it |
| Orders.CancelUndoesPlacement | backend/MiniCRM/Services/OrderService.cs:152-159 | cancelling the items a successful creation made gives back exactly the product table the creation started from |
| Orders.OrderView | backend/MiniCRM/Services/OrderService.cs:54-71 | the projection keeps id, customer, status name, total and time, resolves the customer's name, and shows each item, in order, with its product's name |
| Orders.ItemView | backend/MiniCRM/Services/OrderService.cs:62-70 | an item's projection keeps id, product id, quantity, unit price and line total, and shows the product's name, or "" when the product is gone |
| Orders.OrderService.GetAll | backend/MiniCRM/Services/OrderService.cs:17-42 | every order appears, each exactly as GetById shows it, in increasing id order |
| Orders.OrderService.GetById | backend/MiniCRM/Services/OrderService.cs:44-72 | None if and only if the id is absent; otherwise the order's projection |
| Orders.OrderService.Create | backend/MiniCRM/Services/OrderService.cs:74-137 | an unknown customer, an unknown product, too little stock or an overflow fails with that error and leaves the store exactly as it was; on success exactly one New order is added, with the placed items and total and the deducted stock; the result is what GetById returns; consistency is preserved |
| Orders.OrderService.PlaceOrder | backend/MiniCRM/Services/OrderService.cs:76-123 | the work inside the transaction before the total is recorded: the customer check first, then the order added and the item loop run; the result and the new tables follow PlaceItems, and customers, addresses and the other counters are unchanged |
| Orders.OrderService.SetTotal | backend/MiniCRM/Services/OrderService.cs:125-130 | records the order total, changes nothing else, and returns the order as GetById shows it |
| Orders.OrderService.AddItems | backend/MiniCRM/Services/OrderService.cs:98-123 | the item loop: its result and the new stock and items are those of PlaceItems over the requests |
| Orders.OrderService.AddItem | backend/MiniCRM/Services/OrderService.cs:100-122 | one loop pass: its result and the new state are those of PlaceItem |
| Orders.OrderService.Cancel | backend/MiniCRM/Services/OrderService.cs:139-172 | returns false, changing nothing, if and only if the order is absent or already Cancelled; otherwise restores each item's quantity to its product (skipping absent products), sets the status to Cancelled, keeps the total, and preserves consistency |
| Orders.OrderService.RestoreItems | backend/MiniCRM/Services/OrderService.cs:152-159 | the restore loop: the product table becomes RestoreStock of the items, and nothing else changes |
| Orders.ValidAfterPlacement | backend/MiniCRM/Services/OrderService.cs:84-126 | committing a successful placement as a new order keeps the store consistent |
| Orders.PlacedOrderFits | backend/MiniCRM/Services/OrderService.cs:113-122 | the new order's items have fresh ids below the next item id, name the new order, and refer to existing products |
| Orders.ValidAfterCancel | backend/MiniCRM/Services/OrderService.cs:152-165 | cancelling an order keeps the store consistent |
| Products.ProductView | backend/MiniCRM/Services/ProductService.cs:37-45 | the response carries every stored field of the product |
| Products.UpdateKeepsIdentity | backend/MiniCRM/Services/ProductService.cs:78-81 | an update is a fresh product with the old id and creation time; updating with the product's own fields changes nothing; the result is within the length limits if and only if the request is |
| Products.UpdateLastWins | backend/MiniCRM/Services/ProductService.cs:78-81 | two updates in a row equal the second one alone |
| Products.ProductService.GetAll | backend/MiniCRM/Services/ProductService.cs:17-30 | every product appears, as stored, in increasing id order |
| Products.ProductService.GetById | backend/MiniCRM/Services/ProductService.cs:32-46 | None if and only if the id is absent; otherwise the stored product |
| Products.ProductService.Create | backend/MiniCRM/Services/ProductService.cs:48-71 | stores exactly the given name, SKU, price and stock, with a fresh id and the given time, and changes nothing else; GetById then returns the result |
| Products.ProductService.Update | backend/MiniCRM/Services/ProductService.cs:73-94 | None, with no change, if and only if the id is absent; otherwise overwrites name, SKU, price and stock and keeps the id and creation time |
| Products.ProductService.Delete | backend/MiniCRM/Services/ProductService.cs:96-111 | false for an absent id; the in-use error, with the product kept, while an order item refers to it; otherwise removes exactly that product |
| Customers.StoredPhone | backend/MiniCRM/Services/CustomerService.cs:52 | a missing phone is stored as the empty string, and a given one as is |
| Customers.CustomerView | backend/MiniCRM/Services/CustomerService.cs:36-43 | the response carries every stored field of the customer |
| Customers.UpdateKeepsIdentity | backend/MiniCRM/Services/CustomerService.cs:74-76 | an update is a fresh customer with the old id and creation time; a missing phone clears the stored one; the result is within the length limits if and only if the request is |
| Customers.CustomerService.GetAll | backend/MiniCRM/Services/CustomerService.cs:17-29 | every customer appears, as stored, in increasing id order |
| Customers.CustomerService.GetById | backend/MiniCRM/Services/CustomerService.cs:31-44 | None if and only if the id is absent; otherwise the stored customer |
| Customers.CustomerService.Create | backend/MiniCRM/Services/CustomerService.cs:46-67 | stores the given name and email, with the phone or "" when missing, under a fresh id with the given time; GetById then returns the result |
| Customers.CustomerService.Update | backend/MiniCRM/Services/CustomerService.cs:69-88 | None, with no change, if and only if the id is absent; otherwise overwrites name, email and phone (missing → "") and keeps the id and creation time |
| Customers.CustomerService.Delete | backend/MiniCRM/Services/CustomerService.cs:90-105 | false for an absent id; the has-orders error, with the customer kept, while an order refers to it; otherwise removes the customer and, by the cascade, its addresses |
| Addresses.AddressView | backend/MiniCRM/Services/AddressService.cs:52-61 | the response carries the address's fields and its owner's name |
| Addresses.OwnedKeys | backend/MiniCRM/Services/AddressService.cs:69-71 | keeps exactly the keys whose address belongs to the customer, in the original order |
| Addresses.UpdateKeepsOwner | backend/MiniCRM/Services/AddressService.cs:131-134 | an update never changes the id or the owner; the result is within the length limits if and only if the request's lines are |
| Addresses.AddressService.GetAll | backend/MiniCRM/Services/AddressService.cs:23-38 | every address appears, with its owner's name, in increasing id order |
| Addresses.AddressService.GetById | backend/MiniCRM/Services/AddressService.cs:43-62 | None if and only if the id is absent; otherwise the address with its owner's name |
| Addresses.AddressService.GetByCustomerId | backend/MiniCRM/Services/AddressService.cs:67-83 | exactly the addresses whose customer is the argument, each with its owner's name, in increasing id order |
| Addresses.AddressService.Create | backend/MiniCRM/Services/AddressService.cs:88-117 | fails with customer-not-found, adding nothing, if and only if the customer is absent; otherwise stores the given fields under a fresh id and returns them with the owner's name |
| Addresses.AddressService.Update | backend/MiniCRM/Services/AddressService.cs:122-148 | None, with no change, if and only if the id is absent; otherwise changes only street, suburb, postcode and state |
| Addresses.AddressService.Delete | backend/MiniCRM/Services/AddressService.cs:153-162 | false, with no change, if and only if the id is absent; otherwise removes exactly that address |

## Left out

- Money is exact. The `decimal` precision (18, 2) the schema declares is not modelled, nor `decimal` overflow on a line total or the order total.
- Ids are unbounded integers handed out by per-table counters. Counters never go back except on rollback. The database's 32-bit keys are not modelled. Nor is reuse of the largest id after it is deleted.
- `async`/`await`, EF change tracking, transaction isolation and concurrent requests are not modelled. Each service call is one atomic step on the store object. Create's transaction is a snapshot plus `Rollback`.
- Cancel's transaction has no failure path, because nothing in the model throws there.
- The clock is the `now` parameter.
- `OrderService.CompleteAsync` is declared in the interface, but no implementation exists, so there is nothing to model.
- `Order.AddressId` is never set by order creation, so it is not a field of the model.
- The field length limits are predicates and lemmas, not guards or invariants. The SQLite store does not enforce `HasMaxLength`, and the services do not check lengths.
- `IsRequired` is implicit: strings are never null in the model.
- CrmDb.CustomerWithinLimits, CrmDb.ProductWithinLimits, CrmDb.AddressWithinLimits: lengths count Unicode scalar values (a Dafny `string`), whereas `HasMaxLength` counts UTF-16 code units, so the two differ on characters outside the Basic Multilingual Plane.
- List results come back in increasing id order. The source's queries have no `ORDER BY`, so the model fixes one order where the database leaves it open.
- An order's items are kept in the order they were added.
- The exceptions' messages are modelled as error values carrying the data the message names (customer, product id or product name). The message text is not modelled.
- `Models.Customer` and `Models.OrderItem` are modelled, but their source classes (`backend/MiniCRM/Models/Customer.cs` and the `OrderItem` class) are not part of this model. Their shapes are inferred from `CustomerDtos.cs`, `OrderDtos.cs`, the context configuration and how the services use them. In particular `Customer.Phone` is taken to be a non-null string, since the services always store `dto.Phone ?? string.Empty`.
- The stock ledger over sequences of creates and cancels is not stated as one theorem. That ledger says stock equals initial stock minus the quantities of all orders not cancelled. It fails exactly in the source because quantities may be negative and the restore at `OrderService.cs:157` is unchecked. For example: stock 10; order A takes 10; order B takes −2147483647, which raises the stock to 2147483647; cancelling A then wraps the stock to a negative number. The ledger would hold only modulo 2^32, or exactly if quantities were assumed positive. Its per-order parts are proved: `PlacedStockAccounting`, `RestoredStockAccounting` and `CancelUndoesPlacement`.
- Orders.OrderService.Cancel: restoring stock uses the source's unchecked `+=`. A restore that overflows wraps, as in the source; the model does not refuse it.
- Controllers, HTTP status mapping, dependency-injection wiring (`AddressService` is not registered there), seed data and the frontend are not modelled.

## Findings

| source | as written | input that shows it | evidently intended | confidence | as-written member | corrected member |
|---|---|---|---|---|---|---|
| backend/MiniCRM/Services/OrderService.cs:104-108 | the stock check passes whenever stock ≥ quantity, and `CurrentStock -= Quantity` is unchecked 32-bit arithmetic, so a negative quantity can push stock past `int.MaxValue`, where it wraps to a negative number | product with stock 5 and an order line with quantity −2147483648 (`int.MinValue`): the check passes and the stock becomes −2147483643 | order creation never leaves a product with negative stock | not executed | Orders.DeductStockAsWritten, Orders.AsWrittenStockCanGoNegative | Orders.DeductStock, Orders.CheckedDeductionRefusesExactlyTheWraps, Orders.PlacedStockNonNegative |
