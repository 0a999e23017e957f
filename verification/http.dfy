/** The shapes every validator and route of the orders controller works with:
    a validator either passes control on or fails with an HTTP status and a
    message, which is what the controller hands to `next(err)`. */
module Http {

  /** The `{ status, message }` object passed to `next(err)`. */
  datatype HttpError = HttpError(status: int, message: string)

  /** A validator that only decides: `next()` is `Pass`, `next(err)` is `Fail`. */
  datatype Outcome = Pass | Fail(error: HttpError)

  /** A validator that also resolves a value for the steps after it
      (what the controller leaves in `res.locals`). */
  datatype Result<+T> = Ok(value: T) | Err(error: HttpError)
}
