/** The disputes service (src/disputes/disputes.service.ts): validated creation, the listing
    by transaction and the unvalidated update. */
module Disputes {
  import opened Common
  import opened DisputeSchema

  const DisputeNotFound: string := "Dispute not found"

  class DisputesService {
    var disputes: map<Id, Dispute>

    constructor ()
      ensures disputes == map[]
    {
      disputes := map[];
    }

    /** `findByTransaction`: every dispute raised on that transaction. */
    function FindByTransaction(transactionId: string): (r: map<Id, Dispute>)
      reads this
      ensures forall id :: id in r <==> id in disputes && disputes[id].transaction_id == transactionId
      ensures forall id :: id in r ==> r[id] == disputes[id]
    {
      Select(disputes, (d: Dispute) => d.transaction_id == transactionId)
    }

    /** `create`: the document is stored when the schema accepts it; a transaction may
        collect any number of disputes, open or not. */
    method Create(draft: DisputeDraft) returns (r: Result<Doc<Dispute>>)
      modifies this
      ensures r.Ok? <==> draft.status.Some? && IsDisputeStatus(draft.status.value)
      ensures r.Err? ==> r == Err(ValidationError("status")) && disputes == old(disputes)
      ensures r.Ok? ==>
        && r.value.body == Validate(draft).value
        && r.value.id !in old(disputes)
        && disputes == old(disputes)[r.value.id := r.value.body]
        && FindByTransaction(draft.transaction_id).Keys == old(FindByTransaction(draft.transaction_id)).Keys + {r.value.id}
    {
      var validated := Validate(draft);
      if validated.Err? {
        return Err(validated.error);
      }
      var id := FreshId(disputes.Keys);
      disputes := disputes[id := validated.value];
      r := Ok(Doc(id, validated.value));
    }

    /** `update`: NotFound when absent, otherwise the body overwrites what it carries. */
    method Update(id: Id, patch: DisputePatch) returns (r: Result<Dispute>)
      modifies this
      ensures id !in old(disputes) ==>
        r == Err(NotFound(DisputeNotFound)) && disputes == old(disputes)
      ensures id in old(disputes) ==>
        && r == Ok(ApplyPatch(old(disputes)[id], patch))
        && disputes == old(disputes)[id := r.value]
    {
      if id !in disputes {
        return Err(NotFound(DisputeNotFound));
      }
      var updated := ApplyPatch(disputes[id], patch);
      disputes := disputes[id := updated];
      r := Ok(updated);
    }
  }
}
