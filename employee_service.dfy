/** Employee lookup and onboarding: store the record, then mail a welcome copied to HR. */
module EmployeeService {
  import opened Entities
  import opened Requests
  import opened Models
  import opened Results
  import opened DataAccess
  import opened EmailSender
  import SpecialUserService
  import CommunicationService

  const NewElectorEmailSubjectText := "New Employee Confirmation"

  /** Some stored employee record carries this id (the lookup is by the record's `Id`). */
  function Exists(employees: map<int, Employee>, id: int): (found: bool)
    requires KeysAreIds(employees)
    ensures found <==> exists key :: key in employees && employees[key].id == id
  {
    id in employees
  }

  /** The stored name: forenames, one space, surname. */
  function FullName(forenames: string, surname: string): (name: string)
    ensures |name| == |forenames| + 1 + |surname|
  {
    forenames + " " + surname
  }

  /** The full name splits back into the forenames and the surname at the given length. */
  lemma FullNameParts(forenames: string, surname: string)
    ensures var name := FullName(forenames, surname);
      name[..|forenames|] == forenames && name[|forenames|] == ' ' && name[|forenames| + 1..] == surname
  {
  }

  /** The closing lines of the welcome letter. */
  const SignOff := "Yours Sincerely\nThe CEO"

  /**
   * The welcome letter: it greets the new employee by the full name stored for
   * them, right after "Dear ", and ends with the CEO's sign-off.
   */
  function NewElectorMessage(forenames: string, surname: string): (body: string)
    ensures var name := FullName(forenames, surname);
      && |body| >= 5 + |name| + |SignOff|
      && body[..5] == "Dear "
      && body[5..5 + |name|] == name
      && body[|body| - |SignOff|..] == SignOff
  {
    var body := "Dear " + forenames + " " + surname + ",\n\n"
      + "Welcome to the company!\n"
      + SignOff;
    assert body == "Dear " + FullName(forenames, surname) + (",\n\n" + "Welcome to the company!\n") + SignOff;
    body
  }

  /** The record `CreateEmployeeRecord` stores for `request` under `id`. */
  function NewEmployee(id: int, request: CreateEmployeeRequest): Employee
  {
    Employee(id, FullName(request.forenames, request.surname), request.emailAddress,
             request.dateOfBirth, request.jobRoleId)
  }

  /** The one e-mail `CreateEmployee` sends for `request`. */
  function WelcomeEmail(request: CreateEmployeeRequest): EmailCommunication
  {
    EmailCommunication(request.emailAddress, None, Some("hr@company.com"),
                       NewElectorEmailSubjectText, NewElectorMessage(request.forenames, request.surname))
  }

  /**
   * The welcome e-mail goes to the new employee, with no copy, a blind copy to the
   * HR manager's mailbox, the confirmation subject, and the full name in the body.
   */
  lemma WelcomeEmailFields(request: CreateEmployeeRequest)
    ensures var email := WelcomeEmail(request);
      && email.toAddress == request.emailAddress
      && email.ccAddress == None
      && email.bccAddress == Some(SpecialUserService.GetSpecialUserEmailAddress(HrManager).value)
      && email.subject == "New Employee Confirmation"
      && var name := FullName(request.forenames, request.surname);
         |email.body| >= 5 + |name| && email.body[5..5 + |name|] == name
  {
  }

  /** Store one new employee built from `newEmployee`; the id is the one the store assigned. */
  method CreateEmployeeRecord(db: JobManagementContext, newEmployee: CreateEmployeeRequest) returns (id: int)
    requires db.Valid()
    modifies db
    ensures db.Valid()
    ensures id == old(db.nextEmployeeId) && id > 0 && id !in old(db.employees)
    ensures db.employees == old(db.employees)[id := NewEmployee(id, newEmployee)]
    ensures db.jobs == old(db.jobs)
    ensures db.nextEmployeeId == old(db.nextEmployeeId) + 1
  {
    var employee := NewEmployee(0, newEmployee);
    id := db.AddEmployee(employee);
  }

  /**
   * Store the new employee, then compose the welcome e-mail to the stored record
   * (the lookup finds it because the record is stored first) and send exactly that
   * one e-mail. Returns the new record's id.
   */
  method CreateEmployee(db: JobManagementContext, sender: EmailSenderService, newEmployee: CreateEmployeeRequest)
    returns (id: int)
    requires db.Valid()
    modifies db, sender
    ensures db.Valid()
    ensures id == old(db.nextEmployeeId) && id > 0 && id !in old(db.employees)
    ensures db.employees == old(db.employees)[id := NewEmployee(id, newEmployee)]
    ensures db.jobs == old(db.jobs)
    ensures db.nextEmployeeId == old(db.nextEmployeeId) + 1
    ensures sender.sent == old(sender.sent) + [WelcomeEmail(newEmployee)]
  {
    id := CreateEmployeeRecord(db, newEmployee);
    var hrEmail := SpecialUserService.GetSpecialUserEmailAddress(HrManager);
    var email := CommunicationService.CreateEmail(
      db.employees, id, NewElectorMessage(newEmployee.forenames, newEmployee.surname),
      NewElectorEmailSubjectText, bcc := Some(hrEmail.value));
    sender.SendEmail(email.value);
  }
}
