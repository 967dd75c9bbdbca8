/** The HTTP error replies the handlers write with `c.JSON(status, {"error": …})`. */
module Http {

  const BadRequest := 400
  const NotFound := 404
  const InternalServerError := 500
  const ServiceUnavailable := 503

  datatype HttpError = HttpError(status: int, message: string)
}
