/** The results the controllers return, reduced to their status and body. */
module HttpResults {
  import opened Responses
  import opened CreateEmployeeRequestValidator

  datatype HttpResult =
    | JsonResult(jobs: seq<JobResponse>)
    | NotFoundResult
    | ObjectResult(statusCode: int, value: string)
    | NoContentResult
    | UnprocessableEntity(errors: seq<ValidationFailure>)
    | InternalServerError(error: string)
    | Created(uri: string, body: NewEmployeeResponse)

  /** The HTTP status each result is sent with. */
  function StatusCode(result: HttpResult): int
  {
    match result
    case JsonResult(_) => 200
    case NotFoundResult => 404
    case ObjectResult(code, _) => code
    case NoContentResult => 204
    case UnprocessableEntity(_) => 422
    case InternalServerError(_) => 500
    case Created(_, _) => 201
  }
}
