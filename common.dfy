/** Shared vocabulary of the service layer: identifiers, the typed errors that the
    services throw, results, stored documents and the database's fresh-id source. */
module Common {

  /** Document identifiers (Mongo ObjectIds) and the user ids carried in tokens are strings. */
  type Id = string

  /** A `Date` is kept abstract as a point on an integer time line. */
  type Date = int

  datatype Option<T> = None | Some(value: T) {
    /** The supplied value, or `default` when the field was not supplied. */
    function GetOr(default: T): T {
      match this
      case Some(v) => v
      case None => default
    }
  }

  /** The exceptions the services raise. The first four are the framework's HTTP
      exceptions; `ValidationError` is the database layer rejecting a document on save
      because a required field is missing or an enumerated field has another value. */
  datatype Error =
    | NotFound(message: string)
    | Unauthorized(message: string)
    | BadRequest(message: string)
    | Conflict(message: string)
    | ValidationError(path: string)

  datatype Result<T> = Ok(value: T) | Err(error: Error)

  /** A stored document: the record together with the id the database gave it. */
  datatype Doc<T> = Doc(id: Id, body: T)

  /** A `find(filter)` over a table: the sub-table of the documents the filter keeps. */
  function Select<T>(table: map<Id, T>, keep: T -> bool): (r: map<Id, T>)
    ensures r.Keys <= table.Keys
    ensures forall id :: id in table ==> (id in r <==> keep(table[id]))
    ensures forall id :: id in r ==> r[id] == table[id]
  {
    map id | id in table && keep(table[id]) :: table[id]
  }

  /** The string of `n` zeros. */
  function Zeros(n: nat): (r: string)
    ensures |r| == n
  {
    seq(n, _ => '0')
  }

  /** A table that holds the first `n` strings of zeros holds at least `n` ids. */
  lemma {:induction false} ZerosCrowdTable(used: set<Id>, n: nat)
    requires forall i :: 0 <= i < n ==> Zeros(i) in used
    ensures n <= |used|
    decreases n
  {
    if n > 0 {
      var rest := used - {Zeros(n - 1)};
      forall i | 0 <= i < n - 1
        ensures Zeros(i) in rest
      {
        assert |Zeros(i)| != |Zeros(n - 1)|;
      }
      ZerosCrowdTable(rest, n - 1);
    }
  }

  /** The shortest string of zeros, from length `n` on, that no document uses. */
  function FreshFrom(used: set<Id>, n: nat): (r: Id)
    requires forall i :: 0 <= i < n ==> Zeros(i) in used
    ensures r !in used
    decreases |used| - n
  {
    ZerosCrowdTable(used, n);
    if Zeros(n) !in used then Zeros(n)
    else
      ZerosCrowdTable(used, n + 1);
      FreshFrom(used, n + 1)
  }

  /** The id the database assigns to a newly saved document: one that no document in the
      table has. */
  function FreshId(used: set<Id>): (r: Id)
    ensures r !in used
  {
    FreshFrom(used, 0)
  }
}
