# Job management system — a Dafny model

This project models the logic of a small job/employee management web API:

- **Tax calculation** (`TaxService`): the country codes a job is liable in, and the
  indicative tax percentage of a reference value across several tax regimes. The
  percentage is the sum over regimes of `max(value − threshold, 0) × rate`, divided
  by the value.
- **The store and its services**:
  - `JobService`: the job listing, the job lookup, and assigning an employee to a job.
  - `EmployeeService`: the employee lookup, and onboarding. Onboarding stores one
    record, then sends one welcome e-mail blind-copied to HR.
  - `CommunicationService`: composing an e-mail to a stored employee.
- **The two controllers**:
  - `PATCH /api/job` answers 404, then 422, then 204.
  - `POST /api/employee` answers 422, then 500 or 201.
  - `GET /api/job` passes the listing through.
- **Request validation** (`CreateEmployeeRequestValidator`) and the closed
  special-user mailbox table (`SpecialUserService`).

Modules follow the C# classes. Pure code is written as functions and lemmas:
the tax service, the validator, the special-user table and e-mail composition.
The database context is the class `DataAccess.JobManagementContext`. Its fields
are:

- the stored jobs, in store order, each with its category, assigned employees and
  tax records;
- the employee table, keyed by id;
- the identity counter that hands out new employee ids.

The mail provider is the class `EmailSender.EmailSenderService`. Sending appends to
its outbox `sent`.

The methods that change state say what the whole new state is. Every exception the
modelled operations throw becomes a `Failure`/`Fail` value of the same exception
kind, with the same message where the code gives one.

Representation choices:

- C# `decimal` is `real`.
- `DateTime` is an `int` instant.
- `null` for an optional address is `None`.
- A C# enum value outside the named members is `SpecialUser.Undefined`.

Facts about the code that the model keeps:

- Tax liabilities keep duplicates. The code is a plain `Select` with no `Distinct`
  (`Services/TaxService.cs`, line 8).
- A missing job or employee in `JobService.AddEmployeeToJob` raises an argument
  error, with the messages the code builds. This includes the misspelt
  "Unable to fine Employee …".
- `Entities/Employee.cs` declares no `Email` and no `DateOfBirth`. The code uses
  them anyway, so the model's `Employee` has them:
  - `Services/EmployeeService.cs` lines 58-59 set both.
  - The seed data sets `Email`.
  - `Services/CommunicationService.cs` line 14 reads `Email`.
  - The tests set and read both (`CommunicationServiceTests.cs` lines 16-17,
    `EmployeeServiceIntegrationTests.cs` lines 54-55).

## Model

| member | source | states |
|---|---|---|
| TaxService.GetTaxLiabilities | JobManagementSystemUnitTestExample/Services/TaxService.cs:7-8 | exactly one country code per tax record of the job |
| TaxService.CountryCodesAt | JobManagementSystemUnitTestExample/Services/TaxService.cs:8 | the i-th liability is the country code of the i-th record's regime (record order is kept) |
| TaxService.CountryCodesAppend | JobManagementSystemUnitTestExample/Services/TaxService.cs:8 | the liabilities of two runs of records are the two lists concatenated |
| TaxService.LiabilityMultiplicity | JobManagementSystemUnitTestExample/Services/TaxService.cs:8 | no deduplication: each code occurs exactly as often as records name a regime with that code |
| TaxService.RepeatedRegimeListedTwice | JobManagementSystemUnitTestExample/Services/TaxService.cs:8 | two distinct records naming the same country put its code in the list at least twice |
| TaxService.NoRecordsNoLiabilities | JobManagementSystem.Tests/Services/TaxServiceTests.cs:55-67 | a job without tax records yields the empty list |
| TaxService.LiabilitiesExample | JobManagementSystem.Tests/Services/TaxServiceTests.cs:11-53 | records for the "Britain" (GBR) then "America" (USA) regimes, both with regime id 1, yield ["GBR", "USA"] |
| TaxService.SeededJobLiabilities | JobManagementSystemUnitTestExample/DataAccess/SeedDataExtensionMethod.cs:57-61 | the seeded job 2 is liable in GBR, USA, FRA, JPN, in that order |
| TaxService.Marginal | JobManagementSystemUnitTestExample/Services/TaxService.cs:17 | the part of the value above a threshold is never negative, is 0 exactly when the value is at or below the threshold, and otherwise is the difference |
| TaxService.GetIndicativeTaxPercentage | JobManagementSystemUnitTestExample/Services/TaxService.cs:16-18 | a zero reference value throws division by zero (empty regime list included); otherwise the result times the value is the total tax |
| TaxService.TotalTaxBelowEveryThreshold | JobManagementSystemUnitTestExample/Services/TaxService.cs:17 | a value at or below every regime's threshold attracts no tax |
| TaxService.ZeroBelowEveryThreshold | JobManagementSystem.Tests/Services/TaxServiceTests.cs:139-155 | at or below every threshold, for one regime or many, the percentage is 0 |
| TaxService.TotalTaxNonNegative | JobManagementSystemUnitTestExample/Services/TaxService.cs:17 | with non-negative rates the total tax is non-negative |
| TaxService.TotalTaxBounded | JobManagementSystemUnitTestExample/Services/TaxService.cs:17 | for a positive value and non-negative thresholds and rates, 0 ≤ total tax ≤ value × sum of rates |
| TaxService.PercentageBounded | JobManagementSystemUnitTestExample/Services/TaxService.cs:16-18 | for a positive value and non-negative thresholds and rates, the percentage succeeds and lies between 0 and the sum of the rates |
| TaxService.TotalTaxAppend | JobManagementSystemUnitTestExample/Services/TaxService.cs:17-18 | the total over two runs of regimes is the sum of their totals |
| TaxService.TotalTaxOrderIrrelevant | JobManagementSystemUnitTestExample/Services/TaxService.cs:17-18 | any two listings of the same regimes (the same multiset, in any order) give the same total |
| TaxService.RegimeAtOrAboveValueIgnored | JobManagementSystem.Tests/Services/TaxServiceTests.cs:121-137 | a regime whose threshold is at or above the value can be removed without changing the percentage |
| TaxService.SingleRegimeExamples | JobManagementSystem.Tests/Services/TaxServiceTests.cs:69-101 | 20000 against {10000, 0.2} gives 2000/20000; 5000 gives 0 |
| TaxService.TwoRegimeExamples | JobManagementSystem.Tests/Services/TaxServiceTests.cs:103-155 | against {10000, 0.2} and {5000, 0.1}: 20000 gives 3500/20000, 9000 gives 400/9000, 4000 gives 0 |
| JobService.EmployeeResponses | JobManagementSystemUnitTestExample/Services/JobService.cs:26 | one employee summary per assigned employee |
| JobService.EmployeeResponsesAt | JobManagementSystemUnitTestExample/Services/JobService.cs:26 | the k-th summary is the (id, name) of the k-th assigned employee |
| JobService.GetAllJobs | JobManagementSystemUnitTestExample/Services/JobService.cs:12-27 | one response per stored job (the count equals the number of jobs) |
| JobService.GetAllJobsAt | JobManagementSystemUnitTestExample/Services/JobService.cs:21-26 | the i-th response carries the i-th job's id, description, category id and description, tax liabilities and exactly its assigned employees' (id, name) |
| JobService.ListedIffStored | JobManagementSystemUnitTestExample/Services/JobService.cs:21-22 | a response with a given id is listed exactly when a job with that id is stored |
| JobService.NoJobsEmptyList | JobManagementSystemUnitTestExample/Services/JobService.cs:21 | an empty store lists the empty sequence |
| JobService.TwoJobExample | JobManagementSystem.Tests/Services/JobServiceTests.cs:100-185 | the two-job store lists two responses in store order, with liabilities ["ABC", "ZYX"] and ["ABC"] and employees [1] and [1, 2] |
| JobService.FindJob | JobManagementSystemUnitTestExample/Services/JobService.cs:33 | the lookup finds the first job with the id, or reports that no job has it |
| JobService.Exists | JobManagementSystemUnitTestExample/Services/JobService.cs:29 | true exactly when a job with that id is stored |
| JobService.AddEmployeeToJob | JobManagementSystemUnitTestExample/Services/JobService.cs:31-39 | a missing job fails first, whatever the employee; then a missing employee fails; a failure changes nothing; on success the job gains the employee, keeps all it had, gains no one else, and every other job and the employee table are unchanged |
| JobService.AddPreservesConsistency | JobManagementSystemUnitTestExample/Services/JobService.cs:37-38 | the association keeps job ids unique, each job's employees distinct and stored, and touches only the named job |
| JobController.Get | JobManagementSystemUnitTestExample/Controllers/JobController.cs:14-18 | status 200 with the service's listing unaltered, one entry per job (an empty store gives an empty list) |
| JobController.AddEmployeeToJob | JobManagementSystemUnitTestExample/Controllers/JobController.cs:20-39 | 404 exactly when the job is missing (whatever the employee), 422 exactly when the job exists and the employee does not, otherwise 204 after one association; on 404 and 422 the store is unchanged |
| JobController.StatusCodes | JobManagementSystemUnitTestExample/Controllers/JobController.cs:25-38 | the three outcomes are sent as 404, 422 and 204 |
| EmployeeController.ResponseForId | JobManagementSystemUnitTestExample/Controllers/EmployeeController.cs:33-38 | an id ≤ 0 gives 500; a positive id gives 201 whose body carries that id |
| EmployeeController.CreateEmployee | JobManagementSystemUnitTestExample/Controllers/EmployeeController.cs:23-39 | an invalid request gives 422 with all its validation failures and leaves the store and outbox unchanged; a valid one gives 201 with the new id, stores one employee and sends one welcome e-mail; nothing else is returned |
| EmployeeController.CreatedExample | JobManagementSystem.Tests/UnitTests/Controllers/EmployeeControllerTests.cs:160-185 | a returned id of 1001 gives 201 with id 1001; 0 gives 500 |
| CreateEmployeeRequestValidator.ForenamesFailures | JobManagementSystemUnitTestExample/Validators/CreateEmployeeRequestValidator.cs:13-14 | forenames fail, on Forenames only, exactly when longer than 500 characters |
| CreateEmployeeRequestValidator.SurnameFailures | JobManagementSystemUnitTestExample/Validators/CreateEmployeeRequestValidator.cs:16-18 | the surname fails, on Surname only, exactly when blank or longer than 200 characters |
| CreateEmployeeRequestValidator.EmailFailures | JobManagementSystemUnitTestExample/Validators/CreateEmployeeRequestValidator.cs:20-22 | the e-mail fails, on EmailAddress only, exactly when blank or not well formed |
| CreateEmployeeRequestValidator.DateOfBirthFailures | JobManagementSystemUnitTestExample/Validators/CreateEmployeeRequestValidator.cs:24-25 | the birth date fails, on DateOfBirth only, exactly when it is not strictly before now |
| CreateEmployeeRequestValidator.Validate | JobManagementSystemUnitTestExample/Validators/CreateEmployeeRequestValidator.cs:11-26 | no failures exactly when all four rules hold; each property is reported exactly when its own rule is broken |
| CreateEmployeeRequestValidator.SingleFieldViolations | JobManagementSystem.Tests/UnitTests/Controllers/EmployeeControllerTests.cs:19-152 | the valid request passes; a bad e-mail, a 501-character forename, a 201-character surname, an empty surname and a future birth date are each reported on their own field and no other |
| CreateEmployeeRequestValidator.ForenamesBoundary | JobManagementSystemUnitTestExample/Validators/CreateEmployeeRequestValidator.cs:8-14 | empty forenames and forenames of exactly 500 characters are accepted |
| EmployeeService.Exists | JobManagementSystemUnitTestExample/Services/EmployeeService.cs:28 | true exactly when some stored record carries the id |
| EmployeeService.FullName | JobManagementSystemUnitTestExample/Services/EmployeeService.cs:57 | the stored name is one character longer than forenames and surname together |
| EmployeeService.FullNameParts | JobManagementSystemUnitTestExample/Services/EmployeeService.cs:57 | the name is the forenames, a space, then the surname |
| EmployeeService.NewElectorMessage | JobManagementSystemUnitTestExample/Services/EmployeeService.cs:69-74 | the letter starts "Dear " followed by the full name stored for the employee, and ends with the CEO's sign-off |
| EmployeeService.WelcomeEmailFields | JobManagementSystemUnitTestExample/Services/EmployeeService.cs:41-43 | the welcome e-mail goes to the new employee's address, with no Cc, a Bcc to the HR manager's mailbox, the subject "New Employee Confirmation", and the full name in the body |
| EmployeeService.CreateEmployeeRecord | JobManagementSystemUnitTestExample/Services/EmployeeService.cs:53-65 | exactly one employee is added, under a fresh positive id, with the full name and the request's e-mail, birth date and job role; the id returned is that record's |
| EmployeeService.CreateEmployee | JobManagementSystemUnitTestExample/Services/EmployeeService.cs:38-46 | the record is stored, then exactly one welcome e-mail is appended to the outbox; the id returned is the new record's |
| CommunicationService.CreateEmail | JobManagementSystemUnitTestExample/Services/CommunicationService.cs:10-15 | an unknown employee is an argument error; otherwise the e-mail goes to that employee's address, with the given subject and body and the given Cc and Bcc |
| CommunicationService.OmittedCopiesAbsent | JobManagementSystemUnitTestExample/Services/CommunicationService.cs:10 | an omitted Cc or Bcc is absent, in all four combinations |
| SpecialUserService.GetSpecialUserEmailAddress | JobManagementSystemUnitTestExample/Services/SpecialUserService.cs:12-19 | a named user gets a non-empty address; any other enum value throws an out-of-range error naming `userType` and the value |
| SpecialUserService.NamedAddresses | JobManagementSystemUnitTestExample/Services/SpecialUserService.cs:15-17 | CEO, CFO and HrManager map to ceo@, cfo@ and hr@company.com |
| SpecialUserService.NamedAddressesDistinct | JobManagementSystemUnitTestExample/Services/SpecialUserService.cs:15-17 | different named users have different addresses |
| DataAccess.JobManagementContext.AddEmployee | JobManagementSystemUnitTestExample/Services/EmployeeService.cs:62-64 | inserting and saving stores the record under a fresh positive id, which the record then carries; nothing else changes |
| DataAccess.JobManagementContext.constructor | JobManagementSystemUnitTestExample/DataAccess/JobManagementContext.cs:19-21 | a context over consistent jobs and employees holds exactly them |
| EmailSender.EmailSenderService.SendEmail | JobManagementSystemUnitTestExample/Services/EmailSenderService.cs:11-14 | sending appends exactly that e-mail to the outbox |

## Left out

- Hosting (`Program.cs`): dependency injection, routing, OpenAPI and JSON options are not part of this model.
- Entity Framework Core is replaced by the in-memory context. This leaves out:
  - eager loading (`Include`) and asynchronous calls, which are modelled as sequential;
  - database failures during `SaveChanges`;
  - enforcement of the job-role foreign key.
  New employee ids come from an identity counter above every stored id.
- The association of an employee with a job is a relation keyed by the pair. Each
  job's employees are distinct.
- JobService.AddEmployeeToJob: the contract says who is assigned afterwards, not where
  the new employee appears in the job's list. A repeated association of a pair already
  stored is a successful no-op in the model, so `PATCH /api/job` answers 204. The code
  loads the job without its employees and queues a new association row whatever is
  stored. What saving that row does is up to the database, which may reject the
  duplicate key instead.
- JobService.Exists: requires unique job ids. `SingleOrDefault` throws on duplicates,
  and the primary key rules them out.
- The constructors' guards against null dependencies are not modelled. They throw an
  argument-null error for a missing database context or service (`JobService`,
  `JobController`, `EmployeeController`, `EmployeeService`, `CommunicationService`).
  Dafny references are never null, so these cases cannot arise in the model.
- The real mail provider throws "not implemented". The model's sender is the outbox
  the tests observe.
- The validation library's e-mail format check is the parameter `isEmailAddress`, not a definition.
- `now` is the instant the validator was constructed. The rule reads `DateTime.Now`
  when the rules are registered.
- Null strings in a request are not modelled. `NotEmpty` rejects null and
  `MaximumLength` accepts it.
- `MaximumLength` counts UTF-16 code units in C#. The model counts characters, so
  the two differ for characters outside the Basic Multilingual Plane.
- `decimal` precision (28–29 significant digits) and overflow are not modelled. The
  proofs hold for exact rationals.
- Interfaces, seeding, and the tests and their fixtures are not part of this model.
  Seed data and test values appear only as example lemmas.
- HTTP result types are reduced to a status and a body. Serialisation is left out.
- The order in which the controller queries the job and the employee is not
  observable in the model, since both lookups are pure. The model states only
  that a missing job decides the answer whatever the employee.
