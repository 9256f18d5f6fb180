/**
 * The persisted entities. Navigation properties that the modelled code reads
 * (a job's category, employees and tax records, a tax record's regime) are held
 * as values; back-references (`TaxRegime.TaxInformations`, `Employee.AssignedJobs`,
 * `JobCategory.Jobs`) are not read by the modelled code and are left out.
 * Money is `real` (C# `decimal`); instants are `int` (ticks of a C# `DateTime`).
 */
module Entities {

  /** A jurisdiction's tax rule: tax is due on the part of a value above the threshold. */
  datatype TaxRegime = TaxRegime(
    id: int,
    countryCode: string,
    description: string,
    minimumThreshold: real,
    taxRate: real)

  /** A record tying a job to one tax regime. */
  datatype TaxInformation = TaxInformation(
    id: int,
    description: string,
    jobId: int,
    taxRegimeId: int,
    taxRegime: TaxRegime)

  datatype JobCategory = JobCategory(id: int, description: string)

  datatype Employee = Employee(
    id: int,
    name: string,
    email: string,
    dateOfBirth: int,
    jobRoleId: int)

  /** A job with its category, its assigned employees and its tax records, in stored order. */
  datatype Job = Job(
    id: int,
    description: string,
    jobCategoryId: int,
    jobCategory: JobCategory,
    employees: seq<Employee>,
    taxInformation: seq<TaxInformation>)
}

/** Request bodies. */
module Requests {

  datatype CreateEmployeeRequest = CreateEmployeeRequest(
    forenames: string,
    surname: string,
    dateOfBirth: int,
    emailAddress: string,
    jobRoleId: int)
}

/** Response bodies. */
module Responses {

  datatype JobCategoryResponse = JobCategoryResponse(id: int, description: string)

  datatype EmployeeResponse = EmployeeResponse(id: int, name: string)

  datatype JobResponse = JobResponse(
    id: int,
    description: string,
    category: JobCategoryResponse,
    taxLiabilities: seq<string>,
    employees: seq<EmployeeResponse>)

  datatype NewEmployeeResponse = NewEmployeeResponse(id: int)
}

/** Messages and the closed set of special users. */
module Models {
  import opened Results

  /** An e-mail ready to be sent; absent copy addresses are `None` (C# `null`). */
  datatype EmailCommunication = EmailCommunication(
    toAddress: string,
    ccAddress: Option<string>,
    bccAddress: Option<string>,
    subject: string,
    body: string)

  /**
   * The special users. A C# enum variable may hold any integer; `Undefined(raw)`
   * stands for such a value, and `raw` is taken to differ from the named members'
   * underlying values (a cast of one of those would be that member, not `Undefined`).
   */
  datatype SpecialUser = CEO | CFO | HrManager | Undefined(raw: int)
}
