/** Listing jobs, looking one up, and assigning an employee to a job. */
module JobService {
  import opened Entities
  import opened Responses
  import opened Results
  import opened DataAccess
  import TaxService
  import Text

  // ---------------------------------------------------------------------------
  // GetAllJobs
  // ---------------------------------------------------------------------------

  /** The (id, name) summary of each employee, in order. */
  function EmployeeResponses(staff: seq<Employee>): (summaries: seq<EmployeeResponse>)
    ensures |summaries| == |staff|
  {
    if staff == [] then []
    else [EmployeeResponse(staff[0].id, staff[0].name)] + EmployeeResponses(staff[1..])
  }

  /** The response for one job. */
  function ToJobResponse(job: Job): JobResponse
  {
    JobResponse(
      job.id,
      job.description,
      JobCategoryResponse(job.jobCategory.id, job.jobCategory.description),
      TaxService.GetTaxLiabilities(job),
      EmployeeResponses(job.employees))
  }

  /** One response per stored job, in store order; no filtering, sorting or paging. */
  function GetAllJobs(jobs: seq<Job>): (responses: seq<JobResponse>)
    ensures |responses| == |jobs|
  {
    if jobs == [] then [] else [ToJobResponse(jobs[0])] + GetAllJobs(jobs[1..])
  }

  lemma {:induction false} EmployeeResponsesAt(staff: seq<Employee>, k: int)
    requires 0 <= k < |staff|
    ensures EmployeeResponses(staff)[k] == EmployeeResponse(staff[k].id, staff[k].name)
  {
    if k > 0 {
      EmployeeResponsesAt(staff[1..], k - 1);
    }
  }

  /**
   * The i-th response describes the i-th stored job: its id and description, its
   * category's id and description, its tax liabilities, and the (id, name) of
   * exactly its assigned employees, in order.
   */
  lemma {:induction false} GetAllJobsAt(jobs: seq<Job>, i: int)
    requires 0 <= i < |jobs|
    ensures var r := GetAllJobs(jobs)[i];
      && r.id == jobs[i].id
      && r.description == jobs[i].description
      && r.category == JobCategoryResponse(jobs[i].jobCategory.id, jobs[i].jobCategory.description)
      && r.taxLiabilities == TaxService.GetTaxLiabilities(jobs[i])
      && |r.employees| == |jobs[i].employees|
      && forall k :: 0 <= k < |r.employees| ==>
           r.employees[k] == EmployeeResponse(jobs[i].employees[k].id, jobs[i].employees[k].name)
  {
    if i > 0 {
      GetAllJobsAt(jobs[1..], i - 1);
    } else {
      forall k | 0 <= k < |jobs[0].employees| {
        EmployeeResponsesAt(jobs[0].employees, k);
      }
    }
  }

  /** A response with a given id is listed exactly when a job with that id is stored. */
  lemma ListedIffStored(jobs: seq<Job>, id: int)
    ensures (exists i :: 0 <= i < |jobs| && GetAllJobs(jobs)[i].id == id)
        <==> (exists i :: 0 <= i < |jobs| && jobs[i].id == id)
  {
    var responses := GetAllJobs(jobs);
    if exists i :: 0 <= i < |jobs| && responses[i].id == id {
      var i :| 0 <= i < |jobs| && responses[i].id == id;
      GetAllJobsAt(jobs, i);
    }
    if exists i :: 0 <= i < |jobs| && jobs[i].id == id {
      var i :| 0 <= i < |jobs| && jobs[i].id == id;
      GetAllJobsAt(jobs, i);
      assert responses[i].id == id;
    }
  }

  /** An empty store lists no jobs (an empty, not a missing, list). */
  lemma NoJobsEmptyList()
    ensures GetAllJobs([]) == []
  {
  }

  /**
   * Two stored jobs: job 1 with records for regimes "ABC" and "ZYX" and employee 1,
   * job 2 with a record for "ABC" and employees 1 and 2. The listing has two entries,
   * in store order, with those liabilities and those employees.
   */
  lemma TwoJobExample()
    ensures var regime1 := TaxRegime(0, "ABC", "Tax Info 1", 10000.0, 0.1);
      var regime2 := TaxRegime(0, "ZYX", "Tax Info 2", 20000.0, 0.2);
      var e1 := Employee(1, "Employee 1 Name", "", 0, 1);
      var e2 := Employee(2, "Employee 2 Name", "", 0, 2);
      var job1 := Job(1, "Job 1 Description", 1, JobCategory(1, "Job Category 1 Description"), [e1],
        [TaxInformation(0, "Tax Info 1", 1, 0, regime1), TaxInformation(0, "Tax Info 2", 1, 0, regime2)]);
      var job2 := Job(2, "Job 2 Description", 2, JobCategory(2, "Job Category 2 Description"), [e1, e2],
        [TaxInformation(0, "Tax Info 3", 2, 0, regime1)]);
      var r := GetAllJobs([job1, job2]);
      && |r| == 2
      && r[0].description == "Job 1 Description" && r[1].description == "Job 2 Description"
      && r[0].taxLiabilities == ["ABC", "ZYX"] && r[1].taxLiabilities == ["ABC"]
      && r[0].employees == [EmployeeResponse(1, "Employee 1 Name")]
      && r[1].employees == [EmployeeResponse(1, "Employee 1 Name"), EmployeeResponse(2, "Employee 2 Name")]
  {
    var regime1 := TaxRegime(0, "ABC", "Tax Info 1", 10000.0, 0.1);
    var regime2 := TaxRegime(0, "ZYX", "Tax Info 2", 20000.0, 0.2);
    var e1 := Employee(1, "Employee 1 Name", "", 0, 1);
    var e2 := Employee(2, "Employee 2 Name", "", 0, 2);
    var infos1 := [TaxInformation(0, "Tax Info 1", 1, 0, regime1), TaxInformation(0, "Tax Info 2", 1, 0, regime2)];
    var infos2 := [TaxInformation(0, "Tax Info 3", 2, 0, regime1)];
    var job1 := Job(1, "Job 1 Description", 1, JobCategory(1, "Job Category 1 Description"), [e1], infos1);
    var job2 := Job(2, "Job 2 Description", 2, JobCategory(2, "Job Category 2 Description"), [e1, e2], infos2);
    var r := GetAllJobs([job1, job2]);
    GetAllJobsAt([job1, job2], 0);
    GetAllJobsAt([job1, job2], 1);
    TaxService.CountryCodesAt(infos1, 0);
    TaxService.CountryCodesAt(infos1, 1);
    TaxService.CountryCodesAt(infos2, 0);
  }

  // ---------------------------------------------------------------------------
  // Lookup
  // ---------------------------------------------------------------------------

  /** The position of the first stored job with this id (`FirstOrDefault`). */
  function FindJob(jobs: seq<Job>, id: int): (index: Option<nat>)
    ensures index.Some? ==>
      && index.value < |jobs| && jobs[index.value].id == id
      && forall k :: 0 <= k < index.value ==> jobs[k].id != id
    ensures index.None? ==> forall k :: 0 <= k < |jobs| ==> jobs[k].id != id
  {
    if jobs == [] then None
    else if jobs[0].id == id then Some(0)
    else match FindJob(jobs[1..], id)
      case None => None
      case Some(k) => Some(k + 1)
  }

  /** A job with this id is stored (ids are unique, as `SingleOrDefault` demands). */
  function Exists(jobs: seq<Job>, id: int): (found: bool)
    requires UniqueJobIds(jobs)
    ensures found <==> exists k :: 0 <= k < |jobs| && jobs[k].id == id
  {
    FindJob(jobs, id).Some?
  }

  // ---------------------------------------------------------------------------
  // AddEmployeeToJob
  // ---------------------------------------------------------------------------

  /** The ids of a job's assigned employees. */
  function AssignedIds(job: Job): set<int>
  {
    set e | e in job.employees :: e.id
  }

  /**
   * `after` is `before` with `employee` assigned: the job is otherwise the same,
   * every employee assigned before still is, the new one is, and no one else is.
   */
  ghost predicate Assigned(before: Job, after: Job, employee: Employee)
  {
    && after == before.(employees := after.employees)
    && employee in after.employees
    && (forall e :: e in before.employees ==> e in after.employees)
    && (forall e :: e in after.employees ==> e in before.employees || e == employee)
  }

  /**
   * The store after assigning `employee` to the job with id `jobId`: that job is
   * `Assigned`, every other job is unchanged.
   */
  ghost predicate AssignedInStore(before: seq<Job>, after: seq<Job>, jobId: int, employee: Employee)
  {
    && |after| == |before|
    && forall k :: 0 <= k < |before| ==>
         if before[k].id == jobId then Assigned(before[k], after[k], employee) else after[k] == before[k]
  }

  /**
   * Look up the job (an argument error if missing), then the employee (an argument
   * error if missing), then add the employee to the job's employees and save.
   * Assigning an employee the job already has succeeds and leaves its employees as
   * they were: the model treats the association as a set of (job, employee) pairs.
   */
  method AddEmployeeToJob(db: JobManagementContext, jobId: int, employeeId: int) returns (outcome: Outcome)
    requires db.Valid()
    modifies db
    ensures db.Valid()
    ensures db.employees == old(db.employees) && db.nextEmployeeId == old(db.nextEmployeeId)
    ensures outcome.Pass? <==> Exists(old(db.jobs), jobId) && employeeId in old(db.employees)
    ensures !Exists(old(db.jobs), jobId) ==>
      outcome == Fail(ArgumentException("Unable to find Job " + Text.IntToString(jobId)))
    ensures Exists(old(db.jobs), jobId) && employeeId !in old(db.employees) ==>
      outcome == Fail(ArgumentException("Unable to fine Employee " + Text.IntToString(employeeId)))
    ensures outcome.Fail? ==> db.jobs == old(db.jobs)
    ensures outcome.Pass? ==> AssignedInStore(old(db.jobs), db.jobs, jobId, old(db.employees)[employeeId])
  {
    var found := FindJob(db.jobs, jobId);
    if found.None? {
      return Fail(ArgumentException("Unable to find Job " + Text.IntToString(jobId)));
    }
    if employeeId !in db.employees {
      return Fail(ArgumentException("Unable to fine Employee " + Text.IntToString(employeeId)));
    }
    var i := found.value;
    var job := db.jobs[i];
    var employee := db.employees[employeeId];
    var staff := if employeeId in AssignedIds(job) then job.employees else job.employees + [employee];
    ghost var before := db.jobs;
    db.jobs := db.jobs[i := job.(employees := staff)];
    AddPreservesConsistency(before, db.jobs, db.employees, db.nextEmployeeId, i, employee);
    outcome := Pass;
  }

  lemma AddPreservesConsistency(
    before: seq<Job>, after: seq<Job>, employees: map<int, Employee>, nextId: int, i: int, employee: Employee)
    requires Consistent(before, employees, nextId)
    requires 0 <= i < |before|
    requires employee.id in employees && employees[employee.id] == employee
    requires
      var job := before[i];
      var staff := if employee.id in AssignedIds(job) then job.employees else job.employees + [employee];
      after == before[i := job.(employees := staff)]
    ensures Consistent(after, employees, nextId)
    ensures AssignedInStore(before, after, before[i].id, employee)
  {
    var job := before[i];
    if employee.id in AssignedIds(job) {
      var e :| e in job.employees && e.id == employee.id;
      assert e == employee;
    } else {
      var staff := job.employees + [employee];
      assert UniqueEmployeeIds(staff) by {
        forall a, b | 0 <= a < b < |staff| ensures staff[a].id != staff[b].id {
          if b == |staff| - 1 {
            assert staff[a] in job.employees;
          }
        }
      }
    }
  }
}
