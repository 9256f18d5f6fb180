/** Composing an e-mail to a stored employee. */
module CommunicationService {
  import opened Entities
  import opened Models
  import opened Results
  import Text

  /**
   * An e-mail to the employee with id `employeeId`, or an argument error when no
   * such employee is stored. Only reads the employee table.
   */
  function CreateEmail(
    employees: map<int, Employee>, employeeId: int, message: string, header: string,
    cc: Option<string> := None, bcc: Option<string> := None): (r: Result<EmailCommunication>)
    ensures r.Failure? <==> employeeId !in employees
    ensures r.Failure? ==>
      r.error == ArgumentException("Unable to find Employee " + Text.IntToString(employeeId))
    ensures r.Success? ==>
      && r.value.toAddress == employees[employeeId].email
      && r.value.subject == header
      && r.value.body == message
      && r.value.ccAddress == cc
      && r.value.bccAddress == bcc
  {
    if employeeId in employees then
      Success(EmailCommunication(employees[employeeId].email, cc, bcc, header, message))
    else
      Failure(ArgumentException("Unable to find Employee " + Text.IntToString(employeeId)))
  }

  /** Copy addresses that are left out are absent, in each of the four combinations. */
  lemma OmittedCopiesAbsent(employees: map<int, Employee>, employeeId: int, message: string, header: string,
                            cc: string, bcc: string)
    requires employeeId in employees
    ensures var r := CreateEmail(employees, employeeId, message, header);
      r.Success? && r.value.ccAddress == None && r.value.bccAddress == None
    ensures var r := CreateEmail(employees, employeeId, message, header, cc := Some(cc));
      r.Success? && r.value.ccAddress == Some(cc) && r.value.bccAddress == None
    ensures var r := CreateEmail(employees, employeeId, message, header, bcc := Some(bcc));
      r.Success? && r.value.ccAddress == None && r.value.bccAddress == Some(bcc)
    ensures var r := CreateEmail(employees, employeeId, message, header, Some(cc), Some(bcc));
      r.Success? && r.value.ccAddress == Some(cc) && r.value.bccAddress == Some(bcc)
  {
  }
}
