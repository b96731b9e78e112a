/** Shared result types. */
module Common {

  datatype Option<+T> = None | Some(value: T)

  /** The ways a request of the shop ends without doing its work. */
  datatype Error =
    | NotFound         // NotFoundException
    | Forbidden        // ForbiddenException
    | Conflict         // ConflictException
    | CheckViolation   // a CHECK constraint of the schema rejects the row
    | UniqueViolation  // a unique index rejects the row (P2002)
    | Fault            // `throw new Error(...)`, or findUniqueOrThrow on a missing row

  datatype Result<+T> = Ok(value: T) | Err(error: Error)
  {
    predicate IsFailure() { Err? }

    function PropagateFailure<U>(): Result<U>
      requires Err?
    {
      Err(error)
    }

    function Extract(): T
      requires Ok?
    {
      value
    }
  }
}
