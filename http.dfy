/** The error an endpoint raises as an HTTPException: a status code and a detail text. */
module Http {

  datatype HttpError = HttpError(status: int, detail: string)

  const BadRequest := 400
  const NotFound := 404
}
