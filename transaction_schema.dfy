/** The stored transaction (src/transactions/schemas/transactions.schema.ts). */
module TransactionSchema {
  import opened Common

  /** The `enum` of `status`, which is required and has no default. */
  predicate IsTransactionStatus(s: string) {
    s in {"pending", "completed", "disputed", "cancelled"}
  }

  /** `buyer_id`, `seller_id`, `amount`, `status` and `product` are required; `escrow_id`
      and `tracking_number` are optional. */
  datatype Transaction = Transaction(
    buyer_id: Id,
    seller_id: Id,
    amount: int,
    status: string,
    product: string,
    escrow_id: Option<Id>,
    tracking_number: Option<string>)

  /** A document as `create` receives it, before the schema has checked it. */
  datatype TransactionDraft = TransactionDraft(
    buyer_id: Id,
    seller_id: Id,
    amount: int,
    status: Option<string>,
    product: string,
    escrow_id: Option<Id>,
    tracking_number: Option<string>)

  /** Validation on `save`: a missing status or one outside the enum is rejected on the
      `status` path; otherwise the document is stored exactly as supplied. */
  function Validate(draft: TransactionDraft): (r: Result<Transaction>)
    ensures r.Ok? <==> draft.status.Some? && IsTransactionStatus(draft.status.value)
    ensures r.Ok? ==> IsTransactionStatus(r.value.status)
    ensures r.Ok? ==>
      && r.value.status == draft.status.value
      && r.value.buyer_id == draft.buyer_id
      && r.value.seller_id == draft.seller_id
      && r.value.amount == draft.amount
      && r.value.product == draft.product
      && r.value.escrow_id == draft.escrow_id
      && r.value.tracking_number == draft.tracking_number
    ensures r.Err? ==> r.error == ValidationError("status")
  {
    match draft.status
    case None => Err(ValidationError("status"))
    case Some(s) =>
      if IsTransactionStatus(s) then
        Ok(Transaction(draft.buyer_id, draft.seller_id, draft.amount, s, draft.product, draft.escrow_id, draft.tracking_number))
      else Err(ValidationError("status"))
  }

  /** An update body: each property the body carries overwrites the stored one. */
  datatype TransactionPatch = TransactionPatch(
    buyer_id: Option<Id>,
    seller_id: Option<Id>,
    amount: Option<int>,
    status: Option<string>,
    product: Option<string>,
    escrow_id: Option<Id>,
    tracking_number: Option<string>)

  function ApplyPatch(t: Transaction, patch: TransactionPatch): (r: Transaction)
    ensures patch.status.Some? ==> r.status == patch.status.value
    ensures patch.status.None? ==> r.status == t.status
    ensures patch.tracking_number.Some? ==> r.tracking_number == patch.tracking_number
    ensures patch.tracking_number.None? ==> r.tracking_number == t.tracking_number
    ensures patch.escrow_id.Some? ==> r.escrow_id == patch.escrow_id
    ensures patch.escrow_id.None? ==> r.escrow_id == t.escrow_id
    ensures patch.buyer_id.Some? ==> r.buyer_id == patch.buyer_id.value
    ensures patch.buyer_id.None? ==> r.buyer_id == t.buyer_id
    ensures patch.seller_id.Some? ==> r.seller_id == patch.seller_id.value
    ensures patch.seller_id.None? ==> r.seller_id == t.seller_id
    ensures patch.amount.Some? ==> r.amount == patch.amount.value
    ensures patch.amount.None? ==> r.amount == t.amount
    ensures patch.product.Some? ==> r.product == patch.product.value
    ensures patch.product.None? ==> r.product == t.product
  {
    Transaction(
      patch.buyer_id.GetOr(t.buyer_id),
      patch.seller_id.GetOr(t.seller_id),
      patch.amount.GetOr(t.amount),
      patch.status.GetOr(t.status),
      patch.product.GetOr(t.product),
      if patch.escrow_id.Some? then patch.escrow_id else t.escrow_id,
      if patch.tracking_number.Some? then patch.tracking_number else t.tracking_number)
  }
}
