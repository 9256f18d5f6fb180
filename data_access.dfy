/**
 * The database behind the services: the stored jobs (each with its assigned
 * employees and tax records) and the employee table keyed by id. Inserting an
 * employee draws its id from an identity counter.
 */
module DataAccess {
  import opened Entities

  /** Job ids are a primary key. */
  predicate UniqueJobIds(jobs: seq<Job>)
  {
    forall i, j :: 0 <= i < j < |jobs| ==> jobs[i].id != jobs[j].id
  }

  /** The employee table is keyed by each record's own id. */
  predicate KeysAreIds(employees: map<int, Employee>)
  {
    forall id :: id in employees ==> employees[id].id == id
  }

  /** An employee is assigned to a job at most once (the association's key is the pair). */
  predicate UniqueEmployeeIds(staff: seq<Employee>)
  {
    forall i, j :: 0 <= i < j < |staff| ==> staff[i].id != staff[j].id
  }

  /** Every assigned employee is a stored employee. */
  predicate AssignmentsStored(jobs: seq<Job>, employees: map<int, Employee>)
  {
    forall i :: 0 <= i < |jobs| ==>
      && UniqueEmployeeIds(jobs[i].employees)
      && forall e :: e in jobs[i].employees ==> e.id in employees && employees[e.id] == e
  }

  /** A consistent database whose identity counter is above every stored employee id. */
  predicate Consistent(jobs: seq<Job>, employees: map<int, Employee>, nextEmployeeId: int)
  {
    && UniqueJobIds(jobs)
    && KeysAreIds(employees)
    && AssignmentsStored(jobs, employees)
    && 0 < nextEmployeeId
    && forall id :: id in employees ==> 0 < id < nextEmployeeId
  }

  class JobManagementContext {
    var jobs: seq<Job>
    var employees: map<int, Employee>
    var nextEmployeeId: int

    ghost predicate Valid()
      reads this
    {
      Consistent(jobs, employees, nextEmployeeId)
    }

    /** A database in a consistent state, for example one just seeded. */
    constructor (jobs: seq<Job>, employees: map<int, Employee>, nextEmployeeId: int)
      requires Consistent(jobs, employees, nextEmployeeId)
      ensures Valid()
      ensures this.jobs == jobs && this.employees == employees && this.nextEmployeeId == nextEmployeeId
    {
      this.jobs := jobs;
      this.employees := employees;
      this.nextEmployeeId := nextEmployeeId;
    }

    /**
     * `Employees.Add` followed by `SaveChanges`: the record is stored under a fresh
     * positive id, which it now carries; nothing else changes.
     */
    method AddEmployee(employee: Employee) returns (id: int)
      requires Valid()
      modifies this
      ensures Valid()
      ensures id == old(nextEmployeeId) && id > 0 && id !in old(employees)
      ensures employees == old(employees)[id := employee.(id := id)]
      ensures jobs == old(jobs)
      ensures nextEmployeeId == old(nextEmployeeId) + 1
    {
      id := nextEmployeeId;
      employees := employees[id := employee.(id := id)];
      nextEmployeeId := nextEmployeeId + 1;
    }
  }
}

/** The mail provider; a sent message is appended to the outbox. */
module EmailSender {
  import opened Models

  class EmailSenderService {
    var sent: seq<EmailCommunication>

    constructor ()
      ensures sent == []
    {
      sent := [];
    }

    method SendEmail(email: EmailCommunication)
      modifies this
      ensures sent == old(sent) + [email]
    {
      sent := sent + [email];
    }
  }
}
