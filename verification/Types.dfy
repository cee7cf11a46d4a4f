/** Identifiers and small datatypes shared by every module of the model. */
module Types {

  datatype Option<+T> = None | Some(value: T)

  type TaskId = nat
  type BidId = nat
  type EscrowId = nat
  type EventId = nat
  type Account = nat

  /** What the caller of a store or provider sees, and whether the effect took place.
      `Lost` is the reply that never arrives: the effect happened and the call throws. */
  datatype Outcome = Ok | Err | Lost
  {
    predicate Effect() { this != Err }
    predicate Throws() { this != Ok }
  }

  /** Event types. Only the first two have a handler with effects; all others are dispatched to a no-op. */
  datatype Kind = CompletionRequested | ResultPublished | Other

  /** A consumption row is keyed by handler name and event id; the handler name is `event:` plus the type. */
  datatype Key = Key(kind: Kind, id: EventId)

  /** The part of an event's payload that the handlers read. */
  datatype Payload = Completion(taskId: Option<TaskId>, escrowId: Option<EscrowId>) | Opaque

  predicate Distinct<T(==)>(s: seq<T>) {
    forall i, j :: 0 <= i < j < |s| ==> s[i] != s[j]
  }

  function Max(a: int, b: int): int { if a < b then b else a }

  function Min(a: int, b: int): int { if a < b then a else b }

  /** An id that is not in use, as `randomUUID` is taken to return. */
  method FreshId(used: set<EventId>) returns (id: EventId)
    ensures id !in used
  {
    id := 0;
    var left := used;
    while left != {}
      invariant left <= used && forall e :: e in used && e !in left ==> e < id
      decreases left
    {
      var e :| e in left;
      if e >= id {
        id := e + 1;
      }
      left := left - {e};
    }
  }
}
