/** What a client call can end in besides a value: the SDK's own exceptions,
    the local validation error, and any other Python exception that escapes. */
module Errors {
  import opened JsonValues

  /** A decoded value that does not have the shape the code indexes into:
      a missing key (`KeyError`), a value of another type (`TypeError`,
      `AttributeError`), or an empty list indexed at `[-1]` (`IndexError`). */
  datatype ShapeError =
    | MissingKey(key: string)
    | WrongType(field: string)
    | EmptyList(field: string)

  /** Why a `BountyBoardError` was raised. */
  datatype BoardReason =
    | ApiError(status: int)       // "API error {code}: ..."
    | RequestFailed               // "Request failed: ..." (transport fault on the last attempt)
    | MaxRetriesExceeded          // the loop made no attempt

  datatype Failure =
    | AddressRequired                                  // ValueError("Wallet address required")
    | AlreadyClaimed(claimedBy: Json, claimedAt: Json)  // BountyAlreadyClaimedError
    | BoardError(reason: BoardReason)                  // BountyBoardError
    | Uncaught(shape: ShapeError)                      // any other exception propagating out
}
