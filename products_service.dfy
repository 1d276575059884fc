/** The products service (src/products/products.service.ts): owner-checked CRUD over the
    products table. The product schema file is not part of this model; the product's
    properties are those the service and its controller use. */
module Products {
  import opened Common

  const OnlySellerCreates: string := "Only the seller can create products"
  const ProductNotFound: string := "Product not found"
  const OnlyOwnerUpdates: string := "Only the product owner can update it"
  const OnlyOwnerDeletes: string := "Only the product owner can delete it"

  datatype Product = Product(
    sellerId: Id,
    name: string,
    description: string,
    price: int,
    stock: int,
    imageUrl: Option<string>)

  /** An update body: each property the body carries overwrites the stored one
      (`sellerId` included, so an owner can hand a product to another seller). */
  datatype ProductPatch = ProductPatch(
    sellerId: Option<Id>,
    name: Option<string>,
    description: Option<string>,
    price: Option<int>,
    stock: Option<int>,
    imageUrl: Option<string>)

  /** The body `{ stock }` that order creation sends. */
  function StockPatch(stock: int): (p: ProductPatch) {
    ProductPatch(None, None, None, None, Some(stock), None)
  }

  function ApplyPatch(p: Product, patch: ProductPatch): (r: Product)
    ensures patch.sellerId.Some? ==> r.sellerId == patch.sellerId.value
    ensures patch.sellerId.None? ==> r.sellerId == p.sellerId
    ensures patch.stock.Some? ==> r.stock == patch.stock.value
    ensures patch.stock.None? ==> r.stock == p.stock
    ensures patch.price.Some? ==> r.price == patch.price.value
    ensures patch.price.None? ==> r.price == p.price
    ensures patch.name.Some? ==> r.name == patch.name.value
    ensures patch.name.None? ==> r.name == p.name
    ensures patch.description.Some? ==> r.description == patch.description.value
    ensures patch.description.None? ==> r.description == p.description
    ensures patch.imageUrl.Some? ==> r.imageUrl == patch.imageUrl
    ensures patch.imageUrl.None? ==> r.imageUrl == p.imageUrl
  {
    Product(
      patch.sellerId.GetOr(p.sellerId),
      patch.name.GetOr(p.name),
      patch.description.GetOr(p.description),
      patch.price.GetOr(p.price),
      patch.stock.GetOr(p.stock),
      if patch.imageUrl.Some? then patch.imageUrl else p.imageUrl)
  }

  /** A stock-only body changes the stock and nothing else. */
  lemma StockPatchChangesOnlyStock(p: Product, stock: int)
    ensures ApplyPatch(p, StockPatch(stock)) == p.(stock := stock)
  {
  }

  class ProductsService {
    var products: map<Id, Product>

    constructor ()
      ensures products == map[]
    {
      products := map[];
    }

    /** `findOne`: the product with that id, or NotFound. */
    function FindOne(id: Id): (r: Result<Product>)
      reads this
      ensures r.Ok? <==> id in products
      ensures r.Ok? ==> r.value == products[id]
      ensures r.Err? ==> r.error == NotFound(ProductNotFound)
    {
      if id in products then Ok(products[id]) else Err(NotFound(ProductNotFound))
    }

    /** `findBySeller`: exactly the products whose `sellerId` matches. */
    function FindBySeller(sellerId: Id): (r: map<Id, Product>)
      reads this
      ensures forall id :: id in r <==> id in products && products[id].sellerId == sellerId
      ensures forall id :: id in r ==> r[id] == products[id]
    {
      Select(products, (p: Product) => p.sellerId == sellerId)
    }

    /** `create`: only a caller who names themself as the seller may add a product. */
    method Create(dto: Product, userId: Id) returns (r: Result<Doc<Product>>)
      modifies this
      ensures dto.sellerId != userId ==>
        r == Err(Unauthorized(OnlySellerCreates)) && products == old(products)
      ensures dto.sellerId == userId ==>
        && r.Ok? && r.value.body == dto
        && r.value.id !in old(products)
        && products == old(products)[r.value.id := dto]
        && FindOne(r.value.id) == Ok(dto)
    {
      if dto.sellerId != userId {
        return Err(Unauthorized(OnlySellerCreates));
      }
      var id := FreshId(products.Keys);
      products := products[id := dto];
      r := Ok(Doc(id, dto));
    }

    /** `update`: NotFound, then the owner check, then the overwrite. */
    method Update(id: Id, patch: ProductPatch, userId: Id) returns (r: Result<Product>)
      modifies this
      ensures id !in old(products) ==>
        r == Err(NotFound(ProductNotFound)) && products == old(products)
      ensures id in old(products) && old(products)[id].sellerId != userId ==>
        r == Err(Unauthorized(OnlyOwnerUpdates)) && products == old(products)
      ensures id in old(products) && old(products)[id].sellerId == userId ==>
        && r == Ok(ApplyPatch(old(products)[id], patch))
        && products == old(products)[id := r.value]
        && FindOne(id) == r
    {
      var found := FindOne(id);
      if found.Err? {
        return Err(found.error);
      }
      var product := found.value;
      if product.sellerId != userId {
        return Err(Unauthorized(OnlyOwnerUpdates));
      }
      var updated := ApplyPatch(product, patch);
      products := products[id := updated];
      r := Ok(updated);
    }

    /** `remove`: the same two checks, then the delete; afterwards `findOne` gives NotFound. */
    method Remove(id: Id, userId: Id) returns (r: Result<()>)
      modifies this
      ensures id !in old(products) ==>
        r == Err(NotFound(ProductNotFound)) && products == old(products)
      ensures id in old(products) && old(products)[id].sellerId != userId ==>
        r == Err(Unauthorized(OnlyOwnerDeletes)) && products == old(products)
      ensures id in old(products) && old(products)[id].sellerId == userId ==>
        && r == Ok(())
        && products == old(products) - {id}
        && FindOne(id) == Err(NotFound(ProductNotFound))
    {
      var found := FindOne(id);
      if found.Err? {
        return Err(found.error);
      }
      if found.value.sellerId != userId {
        return Err(Unauthorized(OnlyOwnerDeletes));
      }
      products := products - {id};
      r := Ok(());
    }
  }
}
