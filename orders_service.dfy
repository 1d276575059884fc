/** The orders service (src/orders/orders.service.ts): order creation across the products
    and orders tables, the seller-checked update, and the order queries. */
module Orders {
  import opened Common
  import opened OrderSchema
  import opened Products

  const OnlyBuyerCreates: string := "Only the buyer can create an order"
  const ExceedsStock: string := "Requested quantity exceeds available stock"
  const OrderNotFound: string := "Order not found"
  const OnlySellerUpdates: string := "Only the seller can update order status"

  /** The body of an order-creation request. `status` and `trackingNumber` may be sent;
      `amount` and `sellerId` are always computed by the service. */
  datatype CreateOrderDto = CreateOrderDto(
    productId: Id,
    buyerId: Id,
    quantity: int,
    escrowId: Id,
    status: Option<string>,
    trackingNumber: Option<string>)

  /** What one call of `create` returns, and the two tables after it. */
  datatype OrderOutcome = OrderOutcome(
    result: Result<Doc<Order>>,
    products: map<Id, Product>,
    orders: map<Id, Order>)

  /** `create` as a function of the two tables. The checks come in the source's order, all
      before the first write; on success the product's stock drops by exactly the ordered
      quantity and exactly one order is added. */
  function PlaceOrder(products: map<Id, Product>, orders: map<Id, Order>, dto: CreateOrderDto, userId: Id)
    : (o: OrderOutcome)
    // the three failures, in order of precedence
    ensures o.result == Err(NotFound(ProductNotFound)) <==> dto.productId !in products
    ensures o.result == Err(Unauthorized(OnlyBuyerCreates)) <==>
      dto.productId in products && dto.buyerId != userId
    ensures o.result == Err(BadRequest(ExceedsStock)) <==>
      dto.productId in products && dto.buyerId == userId && dto.quantity > products[dto.productId].stock
    ensures o.result.Ok? <==>
      dto.productId in products && dto.buyerId == userId && dto.quantity <= products[dto.productId].stock
    // a failure writes nothing
    ensures o.result.Err? ==> o.products == products && o.orders == orders
    // the stored order
    ensures o.result.Ok? ==>
      var product := products[dto.productId];
      var order := o.result.value.body;
      && order.amount == product.price * dto.quantity
      && order.sellerId == product.sellerId
      && order.productId == dto.productId
      && order.buyerId == userId
      && order.quantity == dto.quantity
      && order.escrowId == dto.escrowId
      && (dto.status.None? ==> order.status == "pending")
      && (dto.status.Some? ==> order.status == dto.status.value)
      && order.trackingNumber == dto.trackingNumber
    // the two writes: one product's stock, one new order
    ensures o.result.Ok? ==>
      var product := products[dto.productId];
      && o.products == products[dto.productId := product.(stock := product.stock - dto.quantity)]
      && o.result.value.id !in orders
      && o.orders == orders[o.result.value.id := o.result.value.body]
      && |o.orders| == |orders| + 1
  {
    if dto.productId !in products then
      OrderOutcome(Err(NotFound(ProductNotFound)), products, orders)
    else
      var product := products[dto.productId];
      if dto.buyerId != userId then
        OrderOutcome(Err(Unauthorized(OnlyBuyerCreates)), products, orders)
      else if dto.quantity > product.stock then
        OrderOutcome(Err(BadRequest(ExceedsStock)), products, orders)
      else
        var amount := product.price * dto.quantity;
        var order := Order(dto.productId, dto.buyerId, product.sellerId, amount, dto.quantity,
                           dto.escrowId, dto.status.GetOr(DefaultStatus), dto.trackingNumber);
        var id := FreshId(orders.Keys);
        var restocked := products[dto.productId := Products.ApplyPatch(product, StockPatch(product.stock - dto.quantity))];
        StockPatchChangesOnlyStock(product, product.stock - dto.quantity);
        OrderOutcome(Ok(Doc(id, order)), restocked, orders[id := order])
  }

  /** Ordering exactly the remaining stock is accepted and empties the product. */
  lemma OrderingAllStockEmptiesProduct(products: map<Id, Product>, orders: map<Id, Order>, dto: CreateOrderDto, userId: Id)
    requires dto.productId in products && dto.buyerId == userId
    requires dto.quantity == products[dto.productId].stock
    ensures PlaceOrder(products, orders, dto, userId).result.Ok?
    ensures PlaceOrder(products, orders, dto, userId).products[dto.productId].stock == 0
  {
  }

  /** The tables after `n` identical `create` calls, and how many of them succeeded. */
  datatype Run = Run(placed: nat, products: map<Id, Product>, orders: map<Id, Order>)

  function RepeatOrder(products: map<Id, Product>, orders: map<Id, Order>, dto: CreateOrderDto, userId: Id, n: nat)
    : (r: Run)
    decreases n
  {
    if n == 0 then Run(0, products, orders)
    else
      var step := PlaceOrder(products, orders, dto, userId);
      var rest := RepeatOrder(step.products, step.orders, dto, userId, n - 1);
      Run(rest.placed + (if step.result.Ok? then 1 else 0), rest.products, rest.orders)
  }

  /** Called one after another, `n` single-unit orders by the buyer against a product with
      stock `s` succeed exactly `min(n, s)` times and leave `s - min(n, s)` in stock: a
      sequence of creates never oversells. */
  lemma {:induction false} SingleUnitOrdersNeverOversell(
    products: map<Id, Product>, orders: map<Id, Order>, dto: CreateOrderDto, userId: Id, n: nat)
    requires dto.productId in products
    requires dto.buyerId == userId && dto.quantity == 1
    requires products[dto.productId].stock >= 0
    ensures
      var s := products[dto.productId].stock;
      var sold := if n <= s then n else s;
      var run := RepeatOrder(products, orders, dto, userId, n);
      && run.placed == sold
      && run.products == products[dto.productId := products[dto.productId].(stock := s - sold)]
      && |run.orders| == |orders| + sold
    decreases n
  {
    if n > 0 {
      var pid := dto.productId;
      var p := products[pid];
      var step := PlaceOrder(products, orders, dto, userId);
      var rest := RepeatOrder(step.products, step.orders, dto, userId, n - 1);
      assert RepeatOrder(products, orders, dto, userId, n)
          == Run(rest.placed + (if step.result.Ok? then 1 else 0), rest.products, rest.orders);
      SingleUnitStep(products, orders, dto, userId);
      SingleUnitOrdersNeverOversell(step.products, step.orders, dto, userId, n - 1);
      if p.stock > 0 {
        var later := if n - 1 <= p.stock - 1 then n - 1 else p.stock - 1;
        assert step.products[pid := step.products[pid].(stock := p.stock - 1 - later)]
            == products[pid := p.(stock := p.stock - 1 - later)];
      }
    }
  }

  /** One single-unit order by the buyer: it succeeds exactly when stock is left, and then
      takes one unit and adds one order. */
  lemma SingleUnitStep(products: map<Id, Product>, orders: map<Id, Order>, dto: CreateOrderDto, userId: Id)
    requires dto.productId in products
    requires dto.buyerId == userId && dto.quantity == 1
    ensures
      var p := products[dto.productId];
      var o := PlaceOrder(products, orders, dto, userId);
      && (o.result.Ok? <==> p.stock > 0)
      && (p.stock > 0 ==> o.products == products[dto.productId := p.(stock := p.stock - 1)] && |o.orders| == |orders| + 1)
      && (p.stock <= 0 ==> o.products == products && o.orders == orders)
  {
  }

  /** One `create` request: its body and the caller. */
  datatype OrderRequest = OrderRequest(dto: CreateOrderDto, userId: Id)

  function RunOrders(products: map<Id, Product>, orders: map<Id, Order>, requests: seq<OrderRequest>)
    : (r: (map<Id, Product>, map<Id, Order>))
    decreases |requests|
  {
    if requests == [] then (products, orders)
    else
      var step := PlaceOrder(products, orders, requests[0].dto, requests[0].userId);
      RunOrders(step.products, step.orders, requests[1..])
  }

  /** Whatever the requests, the quantities and the callers, a sequence of creates keeps
      every stock non-negative and neither adds nor removes products. */
  lemma {:induction false} OrdersKeepStockNonNegative(
    products: map<Id, Product>, orders: map<Id, Order>, requests: seq<OrderRequest>)
    requires forall id :: id in products ==> products[id].stock >= 0
    ensures RunOrders(products, orders, requests).0.Keys == products.Keys
    ensures forall id :: id in RunOrders(products, orders, requests).0 ==> RunOrders(products, orders, requests).0[id].stock >= 0
    decreases |requests|
  {
    if requests != [] {
      var step := PlaceOrder(products, orders, requests[0].dto, requests[0].userId);
      assert step.products.Keys == products.Keys;
      assert forall id :: id in step.products ==> step.products[id].stock >= 0;
      OrdersKeepStockNonNegative(step.products, step.orders, requests[1..]);
    }
  }

  class OrdersService {
    var orders: map<Id, Order>
    const productsService: ProductsService

    constructor (productsService: ProductsService)
      ensures orders == map[] && this.productsService == productsService
    {
      orders := map[];
      this.productsService := productsService;
    }

    /** `create`: look the product up, check the caller, check the stock, then write the
        stock through the products service and insert the order. */
    method Create(dto: CreateOrderDto, userId: Id) returns (r: Result<Doc<Order>>)
      modifies this, productsService
      ensures
        var o := PlaceOrder(old(productsService.products), old(orders), dto, userId);
        r == o.result && productsService.products == o.products && orders == o.orders
      ensures r.Ok? ==> r.value.id in FindByBuyer(userId)
    {
      var found := productsService.FindOne(dto.productId);
      if found.Err? {
        return Err(found.error);
      }
      var product := found.value;
      if dto.buyerId != userId {
        return Err(Unauthorized(OnlyBuyerCreates));
      }
      if dto.quantity > product.stock {
        return Err(BadRequest(ExceedsStock));
      }
      var amount := product.price * dto.quantity;
      var order := Order(dto.productId, dto.buyerId, product.sellerId, amount, dto.quantity,
                         dto.escrowId, dto.status.GetOr(DefaultStatus), dto.trackingNumber);
      var written := productsService.Update(dto.productId, StockPatch(product.stock - dto.quantity), product.sellerId);
      // the products service's owner check passes: the caller given is the product's own seller
      assert written.Ok?;
      var id := FreshId(orders.Keys);
      orders := orders[id := order];
      r := Ok(Doc(id, order));
    }

    /** `findOne`: the order with that id, or NotFound. */
    function FindOne(id: Id): (r: Result<Order>)
      reads this
      ensures r.Ok? <==> id in orders
      ensures r.Ok? ==> r.value == orders[id]
      ensures r.Err? ==> r.error == NotFound(OrderNotFound)
    {
      if id in orders then Ok(orders[id]) else Err(NotFound(OrderNotFound))
    }

    /** `findByBuyer`: exactly the orders whose `buyerId` matches. */
    function FindByBuyer(buyerId: Id): (r: map<Id, Order>)
      reads this
      ensures forall id :: id in r <==> id in orders && orders[id].buyerId == buyerId
      ensures forall id :: id in r ==> r[id] == orders[id]
    {
      Select(orders, (o: Order) => o.buyerId == buyerId)
    }

    /** `findBySeller`: exactly the orders whose `sellerId` matches. */
    function FindBySeller(sellerId: Id): (r: map<Id, Order>)
      reads this
      ensures forall id :: id in r <==> id in orders && orders[id].sellerId == sellerId
      ensures forall id :: id in r ==> r[id] == orders[id]
    {
      Select(orders, (o: Order) => o.sellerId == sellerId)
    }

    /** `update`: NotFound, then the seller check, then an unchecked overwrite of the supplied
        properties; no status transition is checked. */
    method Update(id: Id, patch: OrderPatch, userId: Id) returns (r: Result<Order>)
      modifies this
      ensures id !in old(orders) ==>
        r == Err(NotFound(OrderNotFound)) && orders == old(orders)
      ensures id in old(orders) && old(orders)[id].sellerId != userId ==>
        r == Err(Unauthorized(OnlySellerUpdates)) && orders == old(orders)
      ensures id in old(orders) && old(orders)[id].sellerId == userId ==>
        && r == Ok(OrderSchema.ApplyPatch(old(orders)[id], patch))
        && orders == old(orders)[id := r.value]
      ensures unchanged(productsService)
    {
      var found := FindOne(id);
      if found.Err? {
        return Err(found.error);
      }
      if found.value.sellerId != userId {
        return Err(Unauthorized(OnlySellerUpdates));
      }
      // `findByIdAndUpdate` finds the order just read, so "Order not found after update"
      // cannot be raised in a sequential run
      var updated := OrderSchema.ApplyPatch(found.value, patch);
      orders := orders[id := updated];
      r := Ok(updated);
    }
  }
}
