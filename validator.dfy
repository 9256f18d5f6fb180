/**
 * The field rules a `CreateEmployeeRequest` must meet. The e-mail format check is
 * the validation library's and enters as the parameter `isEmailAddress`; `now` is the
 * instant the validator was constructed (the rule compares with `DateTime.Now` taken
 * when the rules are registered).
 */
module CreateEmployeeRequestValidator {
  import opened Requests

  const MaxForenamesLength: nat := 500
  const MaxSurnameLength: nat := 200

  /** The request property a failure is reported against. */
  datatype Property = Forenames | Surname | EmailAddress | DateOfBirth

  datatype ValidationFailure = ValidationFailure(propertyName: Property, errorMessage: string)

  const ForenamesTooLong := ValidationFailure(Forenames, "Employee forenames cannot exceed 500 characters.")
  const SurnameEmpty := ValidationFailure(Surname, "Employee surname cannot be empty.")
  const SurnameTooLong := ValidationFailure(Surname, "Employee surname cannot exceed 200 characters.")
  const EmailEmpty := ValidationFailure(EmailAddress, "Email address cannot be empty.")
  const EmailMalformed := ValidationFailure(EmailAddress, "Email address must be a valid email format.")
  const BirthNotInPast := ValidationFailure(DateOfBirth, "Date of birth must be in the past.")

  /** The characters C#'s `char.IsWhiteSpace` accepts. */
  predicate IsWhiteSpace(c: char)
  {
    || '\t' <= c <= '\r'
    || c == ' ' || c == '\U{0085}' || c == '\U{00A0}' || c == '\U{1680}'
    || '\U{2000}' <= c <= '\U{200A}'
    || c == '\U{2028}' || c == '\U{2029}' || c == '\U{202F}' || c == '\U{205F}' || c == '\U{3000}'
  }

  /** What the `NotEmpty` rule rejects for a string: empty or white space only. */
  predicate IsBlank(s: string)
  {
    forall k :: 0 <= k < |s| ==> IsWhiteSpace(s[k])
  }

  /** The request meets every rule. */
  predicate IsValid(request: CreateEmployeeRequest, now: int, isEmailAddress: string -> bool)
  {
    && |request.forenames| <= MaxForenamesLength
    && !IsBlank(request.surname) && |request.surname| <= MaxSurnameLength
    && !IsBlank(request.emailAddress) && isEmailAddress(request.emailAddress)
    && request.dateOfBirth < now
  }

  /** Some failure is reported against `property`. */
  predicate FailsOn(failures: seq<ValidationFailure>, property: Property)
  {
    exists failure :: failure in failures && failure.propertyName == property
  }

  /** The forenames rule: at most 500 characters (no emptiness rule). */
  function ForenamesFailures(forenames: string): (failures: seq<ValidationFailure>)
    ensures forall p :: FailsOn(failures, p) <==> p == Forenames && |forenames| > MaxForenamesLength
  {
    if |forenames| > MaxForenamesLength then [ForenamesTooLong] else []
  }

  /** The surname rules: not blank, then at most 200 characters; both are checked. */
  function SurnameFailures(surname: string): (failures: seq<ValidationFailure>)
    ensures forall p :: FailsOn(failures, p) <==>
      p == Surname && (IsBlank(surname) || |surname| > MaxSurnameLength)
  {
    (if IsBlank(surname) then [SurnameEmpty] else [])
    + (if |surname| > MaxSurnameLength then [SurnameTooLong] else [])
  }

  /** The e-mail rules: not blank, then well formed; both are checked. */
  function EmailFailures(email: string, isEmailAddress: string -> bool): (failures: seq<ValidationFailure>)
    ensures forall p :: FailsOn(failures, p) <==>
      p == EmailAddress && (IsBlank(email) || !isEmailAddress(email))
  {
    (if IsBlank(email) then [EmailEmpty] else [])
    + (if isEmailAddress(email) then [] else [EmailMalformed])
  }

  /** The date-of-birth rule: strictly before `now`. */
  function DateOfBirthFailures(dateOfBirth: int, now: int): (failures: seq<ValidationFailure>)
    ensures forall p :: FailsOn(failures, p) <==> p == DateOfBirth && dateOfBirth >= now
  {
    if dateOfBirth < now then [] else [BirthNotInPast]
  }

  /**
   * Every rule runs (no rule stops the others), and failures come in rule order.
   * The result is empty exactly when the request meets every rule, and each property
   * is reported exactly when its own rule is broken.
   */
  function Validate(request: CreateEmployeeRequest, now: int, isEmailAddress: string -> bool)
    : (failures: seq<ValidationFailure>)
    ensures failures == [] <==> IsValid(request, now, isEmailAddress)
    ensures FailsOn(failures, Forenames) <==> |request.forenames| > MaxForenamesLength
    ensures FailsOn(failures, Surname) <==>
      IsBlank(request.surname) || |request.surname| > MaxSurnameLength
    ensures FailsOn(failures, EmailAddress) <==>
      IsBlank(request.emailAddress) || !isEmailAddress(request.emailAddress)
    ensures FailsOn(failures, DateOfBirth) <==> request.dateOfBirth >= now
  {
    var f := ForenamesFailures(request.forenames);
    var s := SurnameFailures(request.surname);
    var e := EmailFailures(request.emailAddress, isEmailAddress);
    var d := DateOfBirthFailures(request.dateOfBirth, now);
    forall p ensures FailsOn(f + s + e + d, p) <==> FailsOn(f, p) || FailsOn(s, p) || FailsOn(e, p) || FailsOn(d, p) {
      FailsOnConcat(f, s, p);
      FailsOnConcat(f + s, e, p);
      FailsOnConcat(f + s + e, d, p);
    }
    assert f + s + e + d == [] ==> f == [] && s == [] && e == [] && d == [];
    assert f + s + e + d != [] ==> FailsOn(f + s + e + d, (f + s + e + d)[0].propertyName);
    f + s + e + d
  }

  lemma FailsOnConcat(a: seq<ValidationFailure>, b: seq<ValidationFailure>, property: Property)
    ensures FailsOn(a + b, property) <==> FailsOn(a, property) || FailsOn(b, property)
  {
    if FailsOn(a + b, property) {
      var failure :| failure in a + b && failure.propertyName == property;
      assert failure in a || failure in b;
    }
    if FailsOn(a, property) {
      var failure :| failure in a && failure.propertyName == property;
      assert failure in a + b;
    }
    if FailsOn(b, property) {
      var failure :| failure in b && failure.propertyName == property;
      assert failure in a + b;
    }
  }

  /** A request breaking no rule (the one the controller tests start from). */
  const ValidRequest := CreateEmployeeRequest("John", "Doe", 0, "test@test.com", 1)

  /**
   * Each single-field violation is reported against that field and no other: a bad
   * e-mail, a 501-character forename, a 201-character surname, an empty surname and
   * a birth date after `now`.
   */
  lemma SingleFieldViolations(now: int, isEmailAddress: string -> bool)
    requires now > 0
    requires isEmailAddress("test@test.com") && !isEmailAddress("invalid-email")
    ensures Validate(ValidRequest, now, isEmailAddress) == []
    ensures var v := Validate(ValidRequest.(emailAddress := "invalid-email"), now, isEmailAddress);
      FailsOn(v, EmailAddress) && !FailsOn(v, Forenames) && !FailsOn(v, Surname) && !FailsOn(v, DateOfBirth)
    ensures var v := Validate(ValidRequest.(forenames := seq(501, _ => 'A')), now, isEmailAddress);
      FailsOn(v, Forenames) && !FailsOn(v, Surname) && !FailsOn(v, EmailAddress) && !FailsOn(v, DateOfBirth)
    ensures var v := Validate(ValidRequest.(surname := seq(201, _ => 'A')), now, isEmailAddress);
      FailsOn(v, Surname) && !FailsOn(v, Forenames) && !FailsOn(v, EmailAddress) && !FailsOn(v, DateOfBirth)
    ensures var v := Validate(ValidRequest.(surname := ""), now, isEmailAddress);
      FailsOn(v, Surname) && !FailsOn(v, Forenames) && !FailsOn(v, EmailAddress) && !FailsOn(v, DateOfBirth)
    ensures var v := Validate(ValidRequest.(dateOfBirth := now + 1), now, isEmailAddress);
      FailsOn(v, DateOfBirth) && !FailsOn(v, Forenames) && !FailsOn(v, Surname) && !FailsOn(v, EmailAddress)
  {
    assert "Doe"[0] == 'D' && !IsBlank("Doe");
    assert "test@test.com"[0] == 't' && !IsBlank("test@test.com");
    assert "invalid-email"[0] == 'i' && !IsBlank("invalid-email");
    assert seq(201, _ => 'A')[0] == 'A';
  }

  /** Forenames may be empty, and 500 characters is still accepted. */
  lemma ForenamesBoundary(request: CreateEmployeeRequest, now: int, isEmailAddress: string -> bool)
    requires |request.forenames| == 0 || |request.forenames| == MaxForenamesLength
    ensures !FailsOn(Validate(request, now, isEmailAddress), Forenames)
  {
  }
}
