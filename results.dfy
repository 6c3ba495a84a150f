/** Values that stand for JavaScript's nullable fields and for the outcome of an HTTP call. */
module Results {

  /** A field that may hold `null` (None) or a value. */
  datatype Option<+T> = None | Some(value: T) {

    /** The value, or `default` when the field is null (the `x || default` idiom). */
    function GetOr(default: T): T {
      match this
      case Some(v) => v
      case None => default
    }
  }

  /** A failed HTTP response, as the pages see it: its status code and the
      `errors` list of its (already parsed) body. */
  datatype HttpError = HttpError(status: int, errors: seq<string>)

  /** The one value an observable emits: a success value or the error it was raised with. */
  datatype Result<+T> = Success(value: T) | Failure(error: HttpError)
}
