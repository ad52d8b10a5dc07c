/** Optional values and the outcome of a request handler. */
module Wrappers {

  datatype Option<+T> = None | Some(value: T)

  /** How a handler ends when it does not return normally: an HTTPException it
      raises (FastAPI answers with that status and detail), or any other Python
      exception that escapes the handler (FastAPI answers 500). */
  datatype Failure =
    | HttpError(status: int, detail: string)
    | Unhandled(exception: string)

  datatype Result<+T> = Ok(value: T) | Err(error: Failure)
}
