/** The fixed mailbox of each special user. */
module SpecialUserService {
  import opened Results
  import opened Models

  /** The address of a named special user; any other enum value is out of range. */
  function GetSpecialUserEmailAddress(userType: SpecialUser): (r: Result<string>)
    ensures r.Failure? <==> userType.Undefined?
    ensures r.Failure? ==>
      r.error == ArgumentOutOfRangeException("userType", userType.raw, "Invalid special user type")
    ensures r.Success? ==> |r.value| > 0
  {
    match userType
    case CEO => Success("ceo@company.com")
    case CFO => Success("cfo@company.com")
    case HrManager => Success("hr@company.com")
    case Undefined(raw) => Failure(ArgumentOutOfRangeException("userType", raw, "Invalid special user type"))
  }

  /** The three named users map to their company mailboxes. */
  lemma NamedAddresses()
    ensures GetSpecialUserEmailAddress(CEO) == Success("ceo@company.com")
    ensures GetSpecialUserEmailAddress(CFO) == Success("cfo@company.com")
    ensures GetSpecialUserEmailAddress(HrManager) == Success("hr@company.com")
  {
  }

  /** Different named users never share a mailbox. */
  lemma NamedAddressesDistinct(a: SpecialUser, b: SpecialUser)
    requires !a.Undefined? && !b.Undefined? && a != b
    ensures GetSpecialUserEmailAddress(a).value != GetSpecialUserEmailAddress(b).value
  {
  }
}
