/** The stored escrow (src/escrow/schemas/escrow.schema.ts). */
module EscrowSchema {
  import opened Common

  /** The `enum` of `status`, which is required and has no default. */
  predicate IsEscrowStatus(s: string) {
    s in {"held", "released", "refunded"}
  }

  /** `transaction_id`, `hold_date` and `status` are required; `release_date` is optional
      whatever the status. The stored `status` is a string: an update can write a value
      outside the enum, because updates are not validated. */
  datatype Escrow = Escrow(
    transaction_id: string,
    hold_date: Date,
    release_date: Option<Date>,
    status: string)

  /** A document as `create` receives it, before the schema has checked it. */
  datatype EscrowDraft = EscrowDraft(
    transaction_id: string,
    hold_date: Date,
    release_date: Option<Date>,
    status: Option<string>)

  /** Validation on `save`: a missing status or one outside the enum is rejected on the
      `status` path; otherwise the document is stored exactly as supplied. */
  function Validate(draft: EscrowDraft): (r: Result<Escrow>)
    ensures r.Ok? <==> draft.status.Some? && IsEscrowStatus(draft.status.value)
    ensures r.Ok? ==> IsEscrowStatus(r.value.status)
    ensures r.Ok? ==>
      && r.value.status == draft.status.value
      && r.value.transaction_id == draft.transaction_id
      && r.value.hold_date == draft.hold_date
      && r.value.release_date == draft.release_date
    ensures r.Err? ==> r.error == ValidationError("status")
  {
    match draft.status
    case None => Err(ValidationError("status"))
    case Some(s) =>
      if IsEscrowStatus(s) then Ok(Escrow(draft.transaction_id, draft.hold_date, draft.release_date, s))
      else Err(ValidationError("status"))
  }

  /** An update body: each property the body carries overwrites the stored one. */
  datatype EscrowPatch = EscrowPatch(
    transaction_id: Option<string>,
    hold_date: Option<Date>,
    release_date: Option<Date>,
    status: Option<string>)

  function ApplyPatch(e: Escrow, patch: EscrowPatch): (r: Escrow)
    ensures patch.status.Some? ==> r.status == patch.status.value
    ensures patch.status.None? ==> r.status == e.status
    ensures patch.release_date.Some? ==> r.release_date == patch.release_date
    ensures patch.release_date.None? ==> r.release_date == e.release_date
    ensures patch.transaction_id.Some? ==> r.transaction_id == patch.transaction_id.value
    ensures patch.transaction_id.None? ==> r.transaction_id == e.transaction_id
    ensures patch.hold_date.Some? ==> r.hold_date == patch.hold_date.value
    ensures patch.hold_date.None? ==> r.hold_date == e.hold_date
  {
    Escrow(
      patch.transaction_id.GetOr(e.transaction_id),
      patch.hold_date.GetOr(e.hold_date),
      if patch.release_date.Some? then patch.release_date else e.release_date,
      patch.status.GetOr(e.status))
  }
}
