/** Shared vocabulary of the point-of-sale back end: identifiers, money,
    the error outcomes its services throw, and the first-match lookup that
    every repository `findOne` / `Array.find` in the services relies on. */
module Common {

  /** Row identifiers (database uuids) and free text. */
  type Id = string

  /** Monetary amounts are exact decimals here; the services use JavaScript
      numbers, whose binary rounding is not modelled. */
  type Money = real

  datatype Option<T> = None | Some(value: T)

  /** The exceptions the services throw, one constructor per kind. */
  datatype Error =
    | NotFound(entity: string)                        // NotFoundException
    | Conflict(message: string)                       // ConflictException
    | Unbalanced(totalDebits: Money, totalCredits: Money)
    | InactiveAccount(accountName: string)
    | InsufficientStock(productName: string)
    | InsufficientPayment
    | ItemNotFound(itemId: Id)
    | QuantityExceedsOriginal(productId: Id)
    | InvalidStatus(message: string)                  // BadRequestException on a status guard
    | ServerError(message: string)                    // a plain `Error`, surfacing as HTTP 500

  datatype Result<T> = Ok(value: T) | Err(error: Error)

  function Abs(x: real): (r: real)
    ensures r >= 0.0 && (r == x || r == -x)
  {
    if x < 0.0 then -x else x
  }

  /** The index of the first element of `s` satisfying `p`: what a
      repository lookup by key and `Array.prototype.find` return. */
  function FirstIndex<T>(s: seq<T>, p: T -> bool): (r: Option<nat>)
    ensures r.Some? ==> r.value < |s| && p(s[r.value])
    ensures r.Some? ==> forall j :: 0 <= j < r.value ==> !p(s[j])
    ensures r.None? <==> forall j :: 0 <= j < |s| ==> !p(s[j])
  {
    if |s| == 0 then None
    else if p(s[0]) then Some(0)
    else match FirstIndex(s[1..], p)
      case None => None
      case Some(k) => Some(k + 1)
  }

  /** The range test of a `Between(lo, hi)` query condition: both ends
      are included. */
  predicate Between(x: int, lo: int, hi: int) {
    lo <= x <= hi
  }
}
