/** The transactions service (src/transactions/transactions.service.ts): validated creation,
    the per-party listing and the unvalidated update. */
module Transactions {
  import opened Common
  import opened TransactionSchema

  const TransactionNotFound: string := "Transaction not found"

  class TransactionsService {
    var transactions: map<Id, Transaction>

    constructor ()
      ensures transactions == map[]
    {
      transactions := map[];
    }

    /** `findByUser`: the buyer's transactions when the role is exactly "buyer"; any other
        role string lists the transactions where the user is the seller. */
    function FindByUser(userId: Id, role: string): (r: map<Id, Transaction>)
      reads this
      ensures role == "buyer" ==>
        forall id :: id in r <==> id in transactions && transactions[id].buyer_id == userId
      ensures role != "buyer" ==>
        forall id :: id in r <==> id in transactions && transactions[id].seller_id == userId
      ensures forall id :: id in r ==> r[id] == transactions[id]
    {
      if role == "buyer" then Select(transactions, (t: Transaction) => t.buyer_id == userId)
      else Select(transactions, (t: Transaction) => t.seller_id == userId)
    }

    /** `create`: the document is stored when the schema accepts it, and is then listed for
        both of its parties; a rejected one changes nothing. */
    method Create(draft: TransactionDraft) returns (r: Result<Doc<Transaction>>)
      modifies this
      ensures r.Ok? <==> draft.status.Some? && IsTransactionStatus(draft.status.value)
      ensures r.Err? ==> r == Err(ValidationError("status")) && transactions == old(transactions)
      ensures r.Ok? ==>
        && r.value.body == Validate(draft).value
        && r.value.id !in old(transactions)
        && transactions == old(transactions)[r.value.id := r.value.body]
        && r.value.id in FindByUser(draft.buyer_id, "buyer")
        && r.value.id in FindByUser(draft.seller_id, "seller")
    {
      var validated := Validate(draft);
      if validated.Err? {
        return Err(validated.error);
      }
      var id := FreshId(transactions.Keys);
      transactions := transactions[id := validated.value];
      r := Ok(Doc(id, validated.value));
    }

    /** `update`: NotFound when absent, otherwise the body overwrites what it carries (the
        status enum is not checked) and the updated document is returned. */
    method Update(id: Id, patch: TransactionPatch) returns (r: Result<Transaction>)
      modifies this
      ensures id !in old(transactions) ==>
        r == Err(NotFound(TransactionNotFound)) && transactions == old(transactions)
      ensures id in old(transactions) ==>
        && r == Ok(ApplyPatch(old(transactions)[id], patch))
        && transactions == old(transactions)[id := r.value]
    {
      if id !in transactions {
        return Err(NotFound(TransactionNotFound));
      }
      var updated := ApplyPatch(transactions[id], patch);
      transactions := transactions[id := updated];
      r := Ok(updated);
    }
  }

  /** Every stored transaction is listed for its buyer under the role "buyer" and for its
      seller under any other role. */
  lemma {:induction false} EachPartyListsTheTransaction(s: TransactionsService, id: Id, role: string)
    requires id in s.transactions
    requires role != "buyer"
    ensures id in s.FindByUser(s.transactions[id].buyer_id, "buyer")
    ensures id in s.FindByUser(s.transactions[id].seller_id, role)
  {
  }
}
