/** Identifiers, errors and result types shared by every module.

    Identifiers are strings in the source. The code only tests them for emptiness, compares them for
    equality and orders them, so an identifier is modelled by its rank in that order; rank 0 is the
    empty string. */
module Domain {
  type ProductId = nat
  type UserId = nat
  type Key = nat
  type CallId = nat

  const EMPTY_ID: nat := 0

  /** The order identifier is the SHA-256 of [userId, idempotencyKey] when a key is given (treated as
      injective), and otherwise a UUID that is new to this call. */
  datatype OrderId = Keyed(user: UserId, key: Key) | Random(call: CallId)

  datatype Option<+T> = None | Some(value: T)

  datatype Error =
    | ValidationError
    | NotFoundError
    | ForbiddenError
    | UnauthenticatedError
    | InsufficientStock(product: ProductId, available: int, requested: int)
    | IdempotencyConflict
    | ConcurrentModification
    | DependencyUnavailable
    | UniqueViolation
    | NumericOverflow
    | RangeError

  datatype Result<+T> = Ok(value: T) | Err(error: Error)
}
