/** Exceptions raised inside the server and the results that may carry them. */
module Errors {
  import opened Wrappers
  import opened Text

  /** An exception: an HTTP error meant for the client, or any other exception with its text. */
  datatype Failure = Http(err: HttpError) | Other(message: string)

  datatype Result<+T> = Ok(value: T) | Err(failure: Failure)

  /** Python's `str(e)`; an HTTP exception prints as "status: detail". */
  function Str(f: Failure): string {
    match f
    case Http(e) => IntToString(e.status) + ": " + e.detail
    case Other(m) => m
  }

  /** An `except HTTPException: raise` clause followed by a generic handler: HTTP errors pass
      through, any other exception becomes a 500 whose detail is `prefix` and its text. */
  function Reraise(f: Failure, prefix: string): (e: HttpError)
    ensures f.Http? ==> e == f.err
    ensures f.Other? ==> e.status == 500 && e.detail == prefix + f.message
  {
    match f
    case Http(e) => e
    case Other(m) => HttpError(500, prefix + m)
  }

  /** A handler that catches every exception, HTTP errors included, as a 500. */
  function CatchAll(f: Failure, prefix: string): (e: HttpError)
    ensures e.status == 500 && e.detail == prefix + Str(f)
  {
    HttpError(500, prefix + Str(f))
  }
}
