/** `HttpError` of backend/models/http-error.js: an error carrying a message and
    a numeric status code, and the replies that the controllers hand either to
    `res.json` (success) or to `next(error)` (failure). */
module HttpErrors {

  /** `new HttpError(message, errorCode)`. */
  datatype HttpError = HttpError(message: string, code: int)

  /** What a route handler ends with: a JSON response with its status, or an
      error passed on to the terminal error handler. */
  datatype Reply<+T> = Ok(status: int, body: T) | Err(error: HttpError)

  /** The result of an awaited library call that may throw (the geocoder). */
  datatype Outcome<+T> = Done(value: T) | Failed(error: HttpError)
}
