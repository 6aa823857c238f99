/**
 * The product catalogue: look-up, creation, overwrite, and deletion guarded
 * by the OrderItem -> Product restriction.
 */
module Products {
  import opened Wrappers
  import opened Models
  import opened Dtos
  import opened CrmDb

  /** The exception Delete raises for a product that some order item still refers to. */
  datatype ProductError = ProductInUse(productId: int)

  /** A product as the API shows it. */
  function ProductView(p: Product): (r: ProductResponseDto)
    ensures r.id == p.id && r.name == p.name && r.sku == p.sku
    ensures r.unitPrice == p.unitPrice && r.currentStock == p.currentStock && r.createdAt == p.createdAt
  {
    ProductResponseDto(p.id, p.name, p.sku, p.unitPrice, p.currentStock, p.createdAt)
  }

  /** The product Create stores under `id`: the request's fields, stamped `now`. */
  function NewProduct(id: int, dto: ProductCreateDto, now: DateTime): Product
  {
    Product(id, dto.name, dto.sku, dto.unitPrice, dto.currentStock, now)
  }

  /** Update overwrites the four editable fields and keeps the id and the creation time. */
  function UpdatedProduct(p: Product, dto: ProductUpdateDto): Product
  {
    p.(name := dto.name, sku := dto.sku, unitPrice := dto.unitPrice, currentStock := dto.currentStock)
  }

  /**
   * Update is the same as creating anew from the request, except that the
   * product keeps its id and its creation time; so an update with the
   * product's own fields changes nothing.
   */
  lemma UpdateKeepsIdentity(p: Product, dto: ProductUpdateDto)
    ensures UpdatedProduct(p, dto) == NewProduct(p.id, dto, p.createdAt)
    ensures UpdatedProduct(p, ProductCreateDto(p.name, p.sku, p.unitPrice, p.currentStock)) == p
    ensures ProductWithinLimits(UpdatedProduct(p, dto)) <==> |dto.name| <= ProductNameMax && |dto.sku| <= ProductSkuMax
  {
  }

  /** Updating twice is the same as applying the second update alone. */
  lemma UpdateLastWins(p: Product, first: ProductUpdateDto, second: ProductUpdateDto)
    ensures UpdatedProduct(UpdatedProduct(p, first), second) == UpdatedProduct(p, second)
  {
  }

  class ProductService {
    const context: CrmDbContext

    constructor (context: CrmDbContext)
      ensures this.context == context
    {
      this.context := context;
    }

    /** Every product, in id order. */
    function GetAll(): (r: seq<ProductResponseDto>)
      reads context
      requires ProductsKeyed(context.products, context.nextProductId)
      ensures forall i :: 0 <= i < |r| ==> r[i].id in context.products && r[i] == ProductView(context.products[r[i].id])
      ensures forall i, j :: 0 <= i < j < |r| ==> r[i].id < r[j].id
      ensures forall k :: k in context.products ==> exists i :: 0 <= i < |r| && r[i].id == k
    {
      var products := context.products;
      var ks := KeysFrom(products, 1, context.nextProductId);
      var r := seq(|ks|, i requires 0 <= i < |ks| => ProductView(products[ks[i]]));
      assert forall i :: 0 <= i < |ks| ==> r[i].id == ks[i];
      assert forall k :: k in products ==> k in ks;
      r
    }

    /** The product with id `id`, or None when there is none. */
    function GetById(id: int): (r: Option<ProductResponseDto>)
      reads context
      ensures r.None? <==> id !in context.products
      ensures r.Some? ==> r.value == ProductView(context.products[id])
    {
      if id in context.products then Some(ProductView(context.products[id])) else None
    }

    /** Adds a product built from `dto`, stamped `now`, under the next free id. */
    method Create(dto: ProductCreateDto, now: DateTime) returns (r: ProductResponseDto)
      requires context.Valid()
      modifies context
      ensures context.Valid()
      ensures r.id == old(context.nextProductId) && r.id !in old(context.products)
      ensures context.State() == old(context.State()).(
                products := old(context.products)[r.id := NewProduct(r.id, dto, now)],
                nextProductId := r.id + 1)
      ensures r == ProductView(NewProduct(r.id, dto, now)) && GetById(r.id) == Some(r)
    {
      var id := context.nextProductId;
      var product := NewProduct(id, dto, now);
      context.products := context.products[id := product];
      context.nextProductId := id + 1;
      r := ProductView(product);
    }

    /** Overwrites product `id` from `dto`; None, and no change, when there is no such product. */
    method Update(id: int, dto: ProductUpdateDto) returns (r: Option<ProductResponseDto>)
      requires context.Valid()
      modifies context
      ensures context.Valid()
      ensures r.None? <==> id !in old(context.products)
      ensures r.None? ==> context.State() == old(context.State())
      ensures r.Some? ==>
                && context.State() == old(context.State()).(
                     products := old(context.products)[id := UpdatedProduct(old(context.products)[id], dto)])
                && r == GetById(id)
    {
      if id !in context.products {
        return None;
      }
      var product := context.products[id];
      product := UpdatedProduct(product, dto);
      context.products := context.products[id := product];
      r := Some(ProductView(product));
    }

    /**
     * Removes product `id`: false when there is no such product, the
     * ProductInUse error, and no change, while an order item refers to it.
     */
    method Delete(id: int) returns (r: Result<bool, ProductError>)
      requires context.Valid()
      modifies context
      ensures context.Valid()
      ensures id !in old(context.products) ==> r == Ok(false)
      ensures id in old(context.products) && ProductReferenced(old(context.orders), id) ==> r == Err(ProductInUse(id))
      ensures r != Ok(true) ==> context.State() == old(context.State())
      ensures r == Ok(true) <==> id in old(context.products) && !ProductReferenced(old(context.orders), id)
      ensures r == Ok(true) ==> context.State() == old(context.State()).(products := old(context.products) - {id})
    {
      if id !in context.products {
        return Ok(false);
      }
      if ProductReferenced(context.orders, id) {
        return Err(ProductInUse(id));
      }
      ProductRestrictKeepsItems(context.products, context.orders, id);
      context.products := context.products - {id};
      r := Ok(true);
    }
  }
}
