/** The stored order (src/orders/schemas/order.schema.ts). */
module OrderSchema {
  import opened Common

  /** `status` has no enum: it is a free string whose default is "pending". */
  const DefaultStatus: string := "pending"

  /** `productId`, `buyerId`, `sellerId`, `amount`, `quantity` and `escrowId` are required;
      `trackingNumber` is optional and independent of `status`. */
  datatype Order = Order(
    productId: Id,
    buyerId: Id,
    sellerId: Id,
    amount: int,
    quantity: int,
    escrowId: Id,
    status: string,
    trackingNumber: Option<string>)

  /** An update body: each property the body carries overwrites the stored one. */
  datatype OrderPatch = OrderPatch(
    productId: Option<Id>,
    buyerId: Option<Id>,
    sellerId: Option<Id>,
    amount: Option<int>,
    quantity: Option<int>,
    escrowId: Option<Id>,
    status: Option<string>,
    trackingNumber: Option<string>)

  /** `findByIdAndUpdate` with `{ new: true }`: supplied properties win, the others are kept;
      nothing is validated, so any status string and any amount can be written. */
  function ApplyPatch(o: Order, patch: OrderPatch): (r: Order)
    ensures patch.status.Some? ==> r.status == patch.status.value
    ensures patch.status.None? ==> r.status == o.status
    ensures patch.trackingNumber.Some? ==> r.trackingNumber == patch.trackingNumber
    ensures patch.trackingNumber.None? ==> r.trackingNumber == o.trackingNumber
    ensures patch.amount.Some? ==> r.amount == patch.amount.value
    ensures patch.amount.None? ==> r.amount == o.amount
    ensures patch.quantity.Some? ==> r.quantity == patch.quantity.value
    ensures patch.quantity.None? ==> r.quantity == o.quantity
    ensures patch.sellerId.Some? ==> r.sellerId == patch.sellerId.value
    ensures patch.sellerId.None? ==> r.sellerId == o.sellerId
    ensures patch.buyerId.Some? ==> r.buyerId == patch.buyerId.value
    ensures patch.buyerId.None? ==> r.buyerId == o.buyerId
    ensures patch.productId.Some? ==> r.productId == patch.productId.value
    ensures patch.productId.None? ==> r.productId == o.productId
    ensures patch.escrowId.Some? ==> r.escrowId == patch.escrowId.value
    ensures patch.escrowId.None? ==> r.escrowId == o.escrowId
  {
    Order(
      patch.productId.GetOr(o.productId),
      patch.buyerId.GetOr(o.buyerId),
      patch.sellerId.GetOr(o.sellerId),
      patch.amount.GetOr(o.amount),
      patch.quantity.GetOr(o.quantity),
      patch.escrowId.GetOr(o.escrowId),
      patch.status.GetOr(o.status),
      if patch.trackingNumber.Some? then patch.trackingNumber else o.trackingNumber)
  }
}
