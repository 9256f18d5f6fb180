/** `GET /api/job` and `PATCH /api/job?jobId=…`. */
module JobController {
  import opened DataAccess
  import opened HttpResults
  import JobService
  import EmployeeService

  /** The service's job list, passed through unaltered with status 200. */
  method Get(db: JobManagementContext) returns (result: HttpResult)
    ensures result == JsonResult(JobService.GetAllJobs(db.jobs))
    ensures StatusCode(result) == 200
    ensures |result.jobs| == |db.jobs|
  {
    var jobs := JobService.GetAllJobs(db.jobs);
    result := JsonResult(jobs);
  }

  /** The body sent when the employee in the request body is unknown. */
  const UnknownEmployee := ObjectResult(422, "Unknown employee")

  /**
   * The job in the route is checked first (404 if missing, whatever the employee),
   * then the employee in the body (422 if missing); only then is the association
   * made, once, and 204 returned. On 404 and 422 the store is unchanged.
   */
  method AddEmployeeToJob(db: JobManagementContext, jobId: int, employeeId: int) returns (result: HttpResult)
    requires db.Valid()
    modifies db
    ensures db.Valid()
    ensures result == NotFoundResult <==> !JobService.Exists(old(db.jobs), jobId)
    ensures result == UnknownEmployee <==>
      JobService.Exists(old(db.jobs), jobId) && employeeId !in old(db.employees)
    ensures result == NoContentResult <==>
      JobService.Exists(old(db.jobs), jobId) && employeeId in old(db.employees)
    ensures result != NoContentResult ==> unchanged(db)
    ensures result == NoContentResult ==>
      && db.employees == old(db.employees) && db.nextEmployeeId == old(db.nextEmployeeId)
      && JobService.AssignedInStore(old(db.jobs), db.jobs, jobId, old(db.employees)[employeeId])
  {
    if !JobService.Exists(db.jobs, jobId) {
      return NotFoundResult;
    }
    if !EmployeeService.Exists(db.employees, employeeId) {
      return UnknownEmployee;
    }
    var outcome := JobService.AddEmployeeToJob(db, jobId, employeeId);
    result := NoContentResult;
  }

  /** The status each outcome is sent with: a missing job, an unknown employee, success. */
  lemma StatusCodes()
    ensures StatusCode(NotFoundResult) == 404
    ensures StatusCode(UnknownEmployee) == 422
    ensures StatusCode(NoContentResult) == 204
  {
  }
}
