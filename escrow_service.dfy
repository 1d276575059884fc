/** The escrow service (src/escrow/escrow.service.ts): validated creation, the lookup by
    transaction and the unvalidated update. */
module Escrows {
  import opened Common
  import opened EscrowSchema

  const EscrowNotFound: string := "Escrow not found"

  class EscrowService {
    var escrows: map<Id, Escrow>

    constructor ()
      ensures escrows == map[]
    {
      escrows := map[];
    }

    /** `findByTransaction`: some escrow of that transaction (which one is the store's
        choice when there are several), or NotFound when there is none. */
    method FindByTransaction(transactionId: string) returns (r: Result<Doc<Escrow>>)
      ensures r.Ok? ==>
        r.value.id in escrows && escrows[r.value.id] == r.value.body && r.value.body.transaction_id == transactionId
      ensures r.Err? <==> forall id :: id in escrows ==> escrows[id].transaction_id != transactionId
      ensures r.Err? ==> r.error == NotFound(EscrowNotFound)
    {
      if id :| id in escrows && escrows[id].transaction_id == transactionId {
        r := Ok(Doc(id, escrows[id]));
      } else {
        r := Err(NotFound(EscrowNotFound));
      }
    }

    /** `create`: the document is stored when the schema accepts it; nothing checks the
        transaction or whether it already has an escrow. */
    method Create(draft: EscrowDraft) returns (r: Result<Doc<Escrow>>)
      modifies this
      ensures r.Ok? <==> draft.status.Some? && IsEscrowStatus(draft.status.value)
      ensures r.Err? ==> r == Err(ValidationError("status")) && escrows == old(escrows)
      ensures r.Ok? ==>
        && r.value.body == Validate(draft).value
        && r.value.id !in old(escrows)
        && escrows == old(escrows)[r.value.id := r.value.body]
    {
      var validated := Validate(draft);
      if validated.Err? {
        return Err(validated.error);
      }
      var id := FreshId(escrows.Keys);
      escrows := escrows[id := validated.value];
      r := Ok(Doc(id, validated.value));
    }

    /** `update`: NotFound when absent, otherwise the body overwrites what it carries,
        whatever the current status (a released or refunded escrow can be changed again). */
    method Update(id: Id, patch: EscrowPatch) returns (r: Result<Escrow>)
      modifies this
      ensures id !in old(escrows) ==>
        r == Err(NotFound(EscrowNotFound)) && escrows == old(escrows)
      ensures id in old(escrows) ==>
        && r == Ok(ApplyPatch(old(escrows)[id], patch))
        && escrows == old(escrows)[id := r.value]
      ensures id in old(escrows) && patch.status.Some? ==> r.value.status == patch.status.value
    {
      if id !in escrows {
        return Err(NotFound(EscrowNotFound));
      }
      var updated := ApplyPatch(escrows[id], patch);
      escrows := escrows[id := updated];
      r := Ok(updated);
    }
  }
}
