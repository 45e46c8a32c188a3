/** The settings page: loading the account into the form, `validate`, and
    the update request. */
module Settings {
  import opened Wrappers
  import opened Strings
  import opened Forms

  const FirstNameRequired := "First name required"
  const LastNameRequired := "Last name required"
  const InvalidEmail := "Invalid Email"
  const PasswordTooShort := "Password must be at least 8 characters long"
  const PasswordsDiffer := "Passwords do not match"

  /** The account part (`data.userId`) of the profile response. */
  datatype Account = Account(name: string, email: Option<string>)

  /** `name.split(' ')`: token 0 and token 1, each "" when absent; any
      further token is dropped. */
  function NameParts(name: string): (r: (string, string))
    ensures ' ' !in r.0 && ' ' !in r.1
    ensures r.0 <= name
    ensures ' ' !in name ==> r == (name, "")
  {
    var parts := Split(name, ' ');
    SplitPieces(name, ' ');
    assert ' ' !in name ==> IndexOf(name, ' ') == |name| by {
      if ' ' !in name {
        IndexOfPrefix(name, [], ' ');
      }
    }
    (parts[0], if |parts| > 1 then parts[1] else "")
  }

  /** The form after `fetchProfile`: unchanged when the request fails,
      otherwise the split name, the e-mail (or "") and empty passwords. */
  function Load(current: Form, response: Option<Account>): (f: Form)
    ensures response.None? ==> f == current
    ensures response.Some? ==>
      (f.firstName, f.lastName) == NameParts(response.value.name) &&
      f.email == response.value.email.GetOr("") &&
      f.password == "" && f.confirmPassword == ""
  {
    match response
    case None => current
    case Some(account) =>
      var (first, last) := NameParts(account.name);
      Form(first, last, account.email.GetOr(""), "", "")
  }

  /** The message `validate` records for one field, if any. The password
      is optional; a given one needs 8 UTF-16 units and nothing else. */
  function FieldError(u: Form, k: FormField): (r: Option<string>)
    ensures r.Some? ==> r.value != ""
    ensures k == Email ==> (r.Some? <==> !EmailPattern(u.email))
    ensures k == Password && |u.password| >= 8 ==> r.None?
    ensures k == Password && 0 < |u.password| < 4 ==> r.Some?
  {
    IsEmailMatchesPattern(u.email);
    match k
    case FirstName => if u.firstName == "" then Some(FirstNameRequired) else None
    case LastName => if u.lastName == "" then Some(LastNameRequired) else None
    case Email => if u.email == "" || !IsEmail(u.email) then Some(InvalidEmail) else None
    case Password => if u.password != "" && Utf16Length(u.password) < 8 then Some(PasswordTooShort) else None
    case ConfirmPassword => if u.password != u.confirmPassword then Some(PasswordsDiffer) else None
  }

  /** `tempErrors` as `validate` fills it: each field's message, when it
      has one. */
  function ValidationErrors(u: Form): (errs: Errors)
    ensures FirstName in errs <==> u.firstName == ""
    ensures LastName in errs <==> u.lastName == ""
    ensures Email in errs <==> !EmailPattern(u.email)
    ensures Password in errs <==> u.password != "" && Utf16Length(u.password) < 8
    ensures ConfirmPassword in errs <==> u.password != u.confirmPassword
    ensures FirstName in errs ==> errs[FirstName] == FirstNameRequired
    ensures LastName in errs ==> errs[LastName] == LastNameRequired
    ensures Email in errs ==> errs[Email] == InvalidEmail
    ensures Password in errs ==> errs[Password] == PasswordTooShort
    ensures ConfirmPassword in errs ==> errs[ConfirmPassword] == PasswordsDiffer
  {
    IsEmailMatchesPattern(u.email);
    map k | k in AllFields && FieldError(u, k).Some? :: FieldError(u, k).value
  }

  /** `validate()`: true exactly when no field has an error. */
  function Validate(u: Form): (ok: bool)
    ensures ok <==>
      u.firstName != "" && u.lastName != "" && EmailPattern(u.email) &&
      (u.password == "" || Utf16Length(u.password) >= 8) &&
      u.password == u.confirmPassword
  {
    var errs := ValidationErrors(u);
    assert errs != map[] ==> exists k :: k in errs;
    |errs| == 0
  }

  /** The body of the update request. */
  datatype UpdateRequest = UpdateRequest(name: string, email: string, password: string)

  /** `handleUpdate`: no request when validation fails, otherwise the joined
      name, the e-mail and the (possibly empty) password. */
  function Submit(u: Form): (r: Option<UpdateRequest>)
    ensures r.Some? <==> Validate(u)
    ensures r.Some? ==> r.value == UpdateRequest(FullName(u.firstName, u.lastName), u.email, u.password)
  {
    if Validate(u) then Some(UpdateRequest(FullName(u.firstName, u.lastName), u.email, u.password)) else None
  }

  /** Loading a name that was saved as `first + " " + last` with a
      space-free first name gives back the first name and the first word
      of the last name; with a space-free last name, both names. */
  lemma NameAfterReload(firstName: string, lastName: string)
    requires ' ' !in firstName
    ensures NameParts(FullName(firstName, lastName)) == (firstName, Split(lastName, ' ')[0])
    ensures ' ' !in lastName ==> NameParts(FullName(firstName, lastName)) == (firstName, lastName)
  {
    FullNameSplit(firstName, lastName);
    if ' ' !in lastName {
      IndexOfPrefix(lastName, [], ' ');
    }
  }

  /** Re-joining the loaded name gives the stored name back exactly when it
      holds a single space: with none the join adds one, with more the
      words after the second are lost. */
  lemma NameKeptOnReload(name: string)
    ensures FullName(NameParts(name).0, NameParts(name).1) == name <==> CountChar(name, ' ') == 1
  {
    var parts := Split(name, ' ');
    SplitCount(name, ' ');
    JoinSplit(name, ' ');
    var joined := FullName(NameParts(name).0, NameParts(name).1);
    if |parts| == 1 {
      assert |joined| == |name| + 1;
    } else if |parts| == 2 {
      assert parts[1..] == [parts[1]];
    } else {
      assert Join(parts[1..], ' ') == parts[1] + [' '] + Join(parts[2..], ' ');
      assert |name| > |joined|;
    }
  }

  /** Saving the settings right after loading them sends the stored name
      back unchanged exactly when it holds a single space. */
  lemma LoadThenSubmit(current: Form, account: Account)
    requires Submit(Load(current, Some(account))).Some?
    ensures Submit(Load(current, Some(account))).value.name == account.name <==> CountChar(account.name, ' ') == 1
    ensures Submit(Load(current, Some(account))).value.password == ""
  {
    NameKeptOnReload(account.name);
  }
}
