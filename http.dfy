/** The error answers of the FastAPI backend. */
module Http {
  /** An `HTTPException`: the status code and the `detail` text. */
  datatype HttpError = HttpError(status: int, detail: string)
}
