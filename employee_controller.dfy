/** `POST /api/employee`. */
module EmployeeController {
  import opened Requests
  import opened Responses
  import opened DataAccess
  import opened EmailSender
  import opened HttpResults
  import opened CreateEmployeeRequestValidator
  import EmployeeService

  /** The response for the id the employee service returned: 201 with it if positive, else 500. */
  function ResponseForId(employeeId: int): (result: HttpResult)
    ensures StatusCode(result) == 201 <==> employeeId > 0
    ensures StatusCode(result) == 500 <==> employeeId <= 0
    ensures result.Created? ==> result.body.id == employeeId
  {
    if employeeId <= 0 then InternalServerError("An error occurred while creating the employee.")
    else Created("CreateEmployee", NewEmployeeResponse(employeeId))
  }

  /**
   * Validate first: an invalid request gets 422 with every validation failure and
   * the employee service is not called. A valid one is created, and the response
   * carries the new id; the store's ids are positive, so the 500 branch is not taken.
   */
  method CreateEmployee(
    db: JobManagementContext, sender: EmailSenderService,
    employeeName: CreateEmployeeRequest, now: int, isEmailAddress: string -> bool)
    returns (result: HttpResult)
    requires db.Valid()
    modifies db, sender
    ensures db.Valid()
    ensures var failures := Validate(employeeName, now, isEmailAddress);
      failures != [] ==> result == UnprocessableEntity(failures) && unchanged(db) && unchanged(sender)
    ensures IsValid(employeeName, now, isEmailAddress) ==>
      var id := old(db.nextEmployeeId);
      && result == Created("CreateEmployee", NewEmployeeResponse(id))
      && db.employees == old(db.employees)[id := EmployeeService.NewEmployee(id, employeeName)]
      && db.jobs == old(db.jobs)
      && db.nextEmployeeId == old(db.nextEmployeeId) + 1
      && sender.sent == old(sender.sent) + [EmployeeService.WelcomeEmail(employeeName)]
    ensures StatusCode(result) == 422 || StatusCode(result) == 201
  {
    var failures := Validate(employeeName, now, isEmailAddress);
    if failures != [] {
      return UnprocessableEntity(failures);
    }
    var employeeId := EmployeeService.CreateEmployee(db, sender, employeeName);
    result := ResponseForId(employeeId);
  }

  /** A service returning 1001 for a valid request yields 201 with id 1001. */
  lemma CreatedExample()
    ensures ResponseForId(1001) == Created("CreateEmployee", NewEmployeeResponse(1001))
    ensures StatusCode(ResponseForId(0)) == 500
  {
  }
}
