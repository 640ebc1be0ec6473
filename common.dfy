/** Types shared by every feature of the client: optional values, the outcome of a
    service call, the error cases of the API layer, and the category chip the
    Explore and Register screens both show. */
module Common {

  datatype Option<+T> = None | Some(value: T)

  /** The outcome of an awaited service call: a value, or the error it threw. */
  datatype Result<+T, +E> = Success(value: T) | Failure(error: E)

  /** The `APIError` cases the service layer throws. */
  datatype APIError = ResponseError | DecodingError | InvalidResponse

  /** A `UUID()` drawn when an entity is built; its value is unconstrained. */
  type Uuid = nat

  /** Stand-in for the category chip: an identifier and a title. */
  datatype CategoryChip = CategoryChip(id: int, title: string)

  function Min(a: int, b: int): int { if a < b then a else b }

  /** `s` without its element at `i`. */
  function RemoveAt<T>(s: seq<T>, i: nat): (r: seq<T>)
    requires i < |s|
    ensures |r| == |s| - 1
    ensures forall k :: 0 <= k < i ==> r[k] == s[k]
    ensures forall k :: i <= k < |r| ==> r[k] == s[k + 1]
  {
    s[..i] + s[i + 1..]
  }
}
