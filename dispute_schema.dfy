/** The stored dispute (src/disputes/schemas/disputes.schema.ts). */
module DisputeSchema {
  import opened Common

  /** The `enum` of `status`, which is required and has no default. */
  predicate IsDisputeStatus(s: string) {
    s in {"pending", "in_review", "resolved", "closed"}
  }

  /** `transaction_id`, `raised_by`, `reason` and `status` are required; `resolution` is
      optional. */
  datatype Dispute = Dispute(
    transaction_id: string,
    raised_by: string,
    reason: string,
    status: string,
    resolution: Option<string>)

  /** A document as `create` receives it, before the schema has checked it. */
  datatype DisputeDraft = DisputeDraft(
    transaction_id: string,
    raised_by: string,
    reason: string,
    status: Option<string>,
    resolution: Option<string>)

  /** Validation on `save`: a missing status or one outside the enum is rejected on the
      `status` path; otherwise the document is stored exactly as supplied. */
  function Validate(draft: DisputeDraft): (r: Result<Dispute>)
    ensures r.Ok? <==> draft.status.Some? && IsDisputeStatus(draft.status.value)
    ensures r.Ok? ==> IsDisputeStatus(r.value.status)
    ensures r.Ok? ==>
      && r.value.status == draft.status.value
      && r.value.transaction_id == draft.transaction_id
      && r.value.raised_by == draft.raised_by
      && r.value.reason == draft.reason
      && r.value.resolution == draft.resolution
    ensures r.Err? ==> r.error == ValidationError("status")
  {
    match draft.status
    case None => Err(ValidationError("status"))
    case Some(s) =>
      if IsDisputeStatus(s) then Ok(Dispute(draft.transaction_id, draft.raised_by, draft.reason, s, draft.resolution))
      else Err(ValidationError("status"))
  }

  /** An update body: each property the body carries overwrites the stored one. */
  datatype DisputePatch = DisputePatch(
    transaction_id: Option<string>,
    raised_by: Option<string>,
    reason: Option<string>,
    status: Option<string>,
    resolution: Option<string>)

  function ApplyPatch(d: Dispute, patch: DisputePatch): (r: Dispute)
    ensures patch.status.Some? ==> r.status == patch.status.value
    ensures patch.status.None? ==> r.status == d.status
    ensures patch.resolution.Some? ==> r.resolution == patch.resolution
    ensures patch.resolution.None? ==> r.resolution == d.resolution
    ensures patch.transaction_id.Some? ==> r.transaction_id == patch.transaction_id.value
    ensures patch.transaction_id.None? ==> r.transaction_id == d.transaction_id
    ensures patch.raised_by.Some? ==> r.raised_by == patch.raised_by.value
    ensures patch.raised_by.None? ==> r.raised_by == d.raised_by
    ensures patch.reason.Some? ==> r.reason == patch.reason.value
    ensures patch.reason.None? ==> r.reason == d.reason
  {
    Dispute(
      patch.transaction_id.GetOr(d.transaction_id),
      patch.raised_by.GetOr(d.raised_by),
      patch.reason.GetOr(d.reason),
      patch.status.GetOr(d.status),
      if patch.resolution.Some? then patch.resolution else d.resolution)
  }
}
