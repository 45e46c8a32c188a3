/** The sign-up page: `validate` and the request `handleSubmit` sends. */
module Signup {
  import opened Wrappers
  import opened Strings
  import opened Forms

  const FirstNameRequired := "First name required"
  const LastNameRequired := "Last name required"
  const InvalidEmail := "Invalid Email"
  const PasswordRequired := "Password required"
  const PasswordTooWeak := "Password must be at least 8 characters long, include lowercase, uppercase, number, and special character (@$!%*?&)"
  const PasswordMismatch := "Password did not match"

  /** The sign-up password rule: at least 8 UTF-16 units and the
      complexity expression. */
  predicate StrongPassword(pw: string): (b: bool)
    ensures b ==> |pw| >= 4 && HasAllClasses(pw)
  {
    Utf16Length(pw) >= 8 && IsComplex(pw)
  }

  /** The message `validate` records for one field, if any. */
  function FieldError(f: Form, k: FormField): (r: Option<string>)
    ensures r.Some? ==> r.value != ""
    ensures k == Email ==> (r.Some? <==> !EmailPattern(f.email))
    ensures k == Password ==> (r.Some? <==> !(Utf16Length(f.password) >= 8 && ComplexityPattern(f.password)))
  {
    IsEmailMatchesPattern(f.email);
    IsComplexMatchesPattern(f.password);
    match k
    case FirstName => if f.firstName == "" then Some(FirstNameRequired) else None
    case LastName => if f.lastName == "" then Some(LastNameRequired) else None
    case Email => if f.email == "" || !IsEmail(f.email) then Some(InvalidEmail) else None
    case Password =>
      if f.password == "" then Some(PasswordRequired)
      else if !StrongPassword(f.password) then Some(PasswordTooWeak)
      else None
    case ConfirmPassword => if f.password != f.confirmPassword then Some(PasswordMismatch) else None
  }

  /** `tempErrors` as `validate` fills it: each field's message, when it
      has one. */
  function ValidationErrors(f: Form): (errs: Errors)
    ensures FirstName in errs <==> f.firstName == ""
    ensures LastName in errs <==> f.lastName == ""
    ensures Email in errs <==> !EmailPattern(f.email)
    ensures Password in errs <==> !(Utf16Length(f.password) >= 8 && ComplexityPattern(f.password))
    ensures ConfirmPassword in errs <==> f.password != f.confirmPassword
    ensures Password in errs ==> errs[Password] == if f.password == "" then PasswordRequired else PasswordTooWeak
    ensures FirstName in errs ==> errs[FirstName] == FirstNameRequired
    ensures LastName in errs ==> errs[LastName] == LastNameRequired
    ensures Email in errs ==> errs[Email] == InvalidEmail
    ensures ConfirmPassword in errs ==> errs[ConfirmPassword] == PasswordMismatch
  {
    IsEmailMatchesPattern(f.email);
    IsComplexMatchesPattern(f.password);
    map k | k in AllFields && FieldError(f, k).Some? :: FieldError(f, k).value
  }

  /** `validate()`: true exactly when no field has an error. */
  function Validate(f: Form): (ok: bool)
    ensures ok <==>
      f.firstName != "" && f.lastName != "" && EmailPattern(f.email) &&
      Utf16Length(f.password) >= 8 && ComplexityPattern(f.password) &&
      f.password == f.confirmPassword
  {
    var errs := ValidationErrors(f);
    assert errs != map[] ==> exists k :: k in errs;
    |errs| == 0
  }

  /** `firstName.toLowerCase() + '.' + lastName.toLowerCase()`. */
  function Username(firstName: string, lastName: string): (u: string)
    ensures |u| == |firstName| + |lastName| + 1
    ensures forall i :: 0 <= i < |u| ==> !IsUpperAscii(u[i])
  {
    ToLowerProperties(firstName);
    ToLowerProperties(lastName);
    ToLower(firstName) + "." + ToLower(lastName)
  }

  /** With no `.` in either name, the user name splits at its `.` back into
      the two lower-cased names. */
  lemma UsernameSplits(firstName: string, lastName: string)
    requires '.' !in firstName && '.' !in lastName
    ensures Split(Username(firstName, lastName), '.') == [ToLower(firstName), ToLower(lastName)]
  {
    var lf, ll := ToLower(firstName), ToLower(lastName);
    assert '.' !in lf && '.' !in ll;
    var parts := [lf, ll];
    assert Join(parts, '.') == Username(firstName, lastName) by {
      assert parts[1..] == [ll];
    }
    SplitJoin(parts, '.');
  }

  /** The body of the sign-up request. */
  datatype SignupRequest = SignupRequest(username: string, email: string, password: string, name: string)

  /** `handleSubmit`: no request when validation fails, otherwise the derived
      user name, the e-mail, the password and the display name. */
  function Submit(f: Form): (r: Option<SignupRequest>)
    ensures r.Some? <==> Validate(f)
    ensures r.Some? ==>
      r.value.email == f.email && r.value.password == f.password &&
      r.value.username == Username(f.firstName, f.lastName) &&
      r.value.name == FullName(f.firstName, f.lastName)
  {
    if !Validate(f) then None
    else Some(SignupRequest(Username(f.firstName, f.lastName), f.email, f.password, FullName(f.firstName, f.lastName)))
  }

  /** A three-letter password is too short. */
  lemma ShortPasswordExample()
    ensures !StrongPassword("abc")
  {
  }

  /** On a one-line password the rule asks for at least eight UTF-16
      units and one character of each of the four classes. */
  lemma SingleLineStrength(pw: string)
    requires forall i :: 0 <= i < |pw| ==> !IsLineTerminator(pw[i])
    ensures StrongPassword(pw) <==> Utf16Length(pw) >= 8 && HasAllClasses(pw)
  {
    SingleLineComplexity(pw);
  }

  /** An eight-character password with a lowercase and an uppercase
      letter, a digit and a special character is strong. */
  lemma StrongPasswordExample()
    ensures StrongPassword("Abcdef1@")
  {
    var pw := "Abcdef1@";
    assert forall i | 0 <= i < |pw| :: ' ' <= pw[i] <= '~';
    assert InClass(pw[1], LowerCase) && InClass(pw[0], UpperCase);
    assert InClass(pw[6], Digit) && InClass(pw[7], Special);
    SingleLineStrength(pw);
  }

  /** An empty password and an empty confirmation raise a "required" error
      for the password and no mismatch error. */
  lemma EmptyPasswords(f: Form)
    requires f.password == "" && f.confirmPassword == ""
    ensures ValidationErrors(f)[Password] == PasswordRequired
    ensures ConfirmPassword !in ValidationErrors(f)
  {
  }
}
