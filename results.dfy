/** Optional values, results, and the HTTP errors FastAPI turns an `HTTPException` into. */
module Results {

  datatype Option<+T> = None | Some(value: T)

  datatype Result<+T, +E> = Ok(value: T) | Err(error: E)

  /** The status code and `detail` of an `HTTPException`. */
  datatype HttpError = HttpError(status: int, detail: string)
}
