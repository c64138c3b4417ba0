/** The three-step sign-up form: account details, personal information,
    then the summary with the terms to agree to and the request that creates
    the account. */
module RegisterWizard {
  import opened Base
  import opened Text
  import Admin

  const LastStep := 2

  /** The password-match effect's notice: set while a confirmation has been
      typed and differs from the password. */
  function MismatchNotice(password: string, confirmPassword: string): (n: Option<string>)
    ensures n.Some? <==> confirmPassword != "" && password != confirmPassword
    ensures n.Some? ==> n.value == "Passwords do not match"
  {
    if confirmPassword != "" && password != confirmPassword then Some("Passwords do not match") else None
  }

  /** The first failing check of the account step, in the order the form
      makes them. The length check counts UTF-16 code units, as
      `password.length` does. */
  function AccountError(email: string, password: string, confirmPassword: string): (e: Option<string>)
    ensures e.None? <==> email != "" && password != "" && Utf16Length(password) >= 8 && password == confirmPassword
    ensures email == "" ==> e == Some("Email is required")
    ensures email != "" && password == "" ==> e == Some("Password is required")
    ensures email != "" && password != "" && Utf16Length(password) < 8 ==> e == Some("Password must be at least 8 characters")
    ensures email != "" && Utf16Length(password) >= 8 && password != confirmPassword ==> e == Some("Passwords do not match")
  {
    if email == "" then Some("Email is required")
    else if password == "" then Some("Password is required")
    else if Utf16Length(password) < 8 then Some("Password must be at least 8 characters")
    else if password != confirmPassword then Some("Passwords do not match")
    else None
  }

  /** The check of the personal-information step. */
  function NamesError(firstName: string, lastName: string): (e: Option<string>)
    ensures e.None? <==> firstName != "" && lastName != ""
    ensures e.Some? ==> e.value == "First and last name are required"
  {
    if firstName == "" || lastName == "" then Some("First and last name are required") else None
  }

  /** A password that passes the account step is never flagged by the
      mismatch notice. */
  lemma AccountStepClearsNotice(email: string, password: string, confirmPassword: string)
    requires AccountError(email, password, confirmPassword).None?
    ensures MismatchNotice(password, confirmPassword).None?
  {
  }

  /** Four characters outside the Basic Multilingual Plane are eight code
      units, so such a password passes the length check, while a password of
      seven characters from it does not. */
  lemma LengthCountsCodeUnits()
    ensures AccountError("a@b.co", "\U{1F600}\U{1F600}\U{1F600}\U{1F600}", "\U{1F600}\U{1F600}\U{1F600}\U{1F600}").None?
    ensures AccountError("a@b.co", "abcdefg", "abcdefg") == Some("Password must be at least 8 characters")
  {
    var p := "\U{1F600}\U{1F600}\U{1F600}\U{1F600}";
    assert p[0] as int >= 0x1_0000;
    assert !(Utf16Length(p) == |p|);
    assert Utf16Length("abcdefg") == 7;
  }

  /** The body of `POST /register`. */
  datatype Request = Request(email: string, password: string, firstName: string, lastName: string,
                             companyName: string)

  /** Whatever was typed, a request the form sends carries an address and a
      password, so the server can refuse it only because the address is
      taken. */
  lemma SentRequestRefusedOnlyIfTaken(users: map<string, Admin.Account>, r: Request)
    requires AccountError(r.email, r.password, r.password).None?
    ensures Admin.RegisterRefusal(users, Some(r.email), Some(r.password)).None? <==>
      !Admin.HasAccount(users, r.email)
  {
  }

  /** How `POST /register` ended. */
  datatype Answer = Registered | Refused(error: Option<string>) | NoResponse

  function FailureMessage(a: Answer): (m: string)
    requires !a.Registered?
    ensures a.Refused? && Truthy(a.error) ==> m == a.error.value
    ensures a.Refused? && !Truthy(a.error) ==> m == "Registration failed. Please try again."
    ensures a.NoResponse? ==> m == "Network error. Please check your connection."
  {
    if a.NoResponse? then "Network error. Please check your connection."
    else if Truthy(a.error) then a.error.value
    else "Registration failed. Please try again."
  }

  class Wizard {
    var email: string
    var password: string
    var confirmPassword: string
    var firstName: string
    var lastName: string
    var companyName: string
    var agreeTerms: bool
    var activeStep: int
    var loading: bool
    var error: Option<string>
    var passwordError: Option<string>
    var sentToLogin: Option<string>

    /** The step is one of the three; the mismatch notice is what the effect
        last computed; and every step behind the current one passed its
        checks (its fields are shown, and so editable, only on that step). */
    ghost predicate Valid()
      reads this
    {
      && 0 <= activeStep <= LastStep
      && passwordError == MismatchNotice(password, confirmPassword)
      && (activeStep >= 1 ==> AccountError(email, password, confirmPassword).None?)
      && (activeStep >= 2 ==> NamesError(firstName, lastName).None?)
    }

    /** The form opens on the first step, with the address the login page
        passed along, if any. */
    constructor(passedEmail: Option<string>)
      ensures Valid() && activeStep == 0 && email == OrDefault(passedEmail, "")
      ensures password == "" && confirmPassword == "" && firstName == "" && lastName == "" && companyName == ""
      ensures !agreeTerms && !loading && error.None? && sentToLogin.None?
    {
      email := if Truthy(passedEmail) then passedEmail.value else "";
      password, confirmPassword := "", "";
      firstName, lastName, companyName := "", "", "";
      agreeTerms := false;
      activeStep := 0;
      loading := false;
      error := None;
      passwordError := None;
      sentToLogin := None;
    }

    method EditEmail(value: string)
      requires Valid() && activeStep == 0
      modifies this
      ensures Valid() && email == value
      ensures password == old(password) && confirmPassword == old(confirmPassword) && activeStep == old(activeStep)
      ensures error == old(error)
    {
      email := value;
    }

    /** Typing a password, after which the match effect runs. */
    method EditPassword(value: string)
      requires Valid() && activeStep == 0
      modifies this
      ensures Valid() && password == value
      ensures email == old(email) && confirmPassword == old(confirmPassword) && activeStep == old(activeStep)
      ensures error == old(error)
    {
      password := value;
      passwordError := MismatchNotice(password, confirmPassword);
    }

    /** Typing the confirmation, after which the match effect runs. */
    method EditConfirmPassword(value: string)
      requires Valid() && activeStep == 0
      modifies this
      ensures Valid() && confirmPassword == value
      ensures email == old(email) && password == old(password) && activeStep == old(activeStep)
      ensures error == old(error)
    {
      confirmPassword := value;
      passwordError := MismatchNotice(password, confirmPassword);
    }

    method EditNames(first: string, last: string, company: string)
      requires Valid() && activeStep == 1
      modifies this
      ensures Valid() && firstName == first && lastName == last && companyName == company
      ensures email == old(email) && password == old(password) && activeStep == old(activeStep)
      ensures error == old(error)
    {
      firstName, lastName, companyName := first, last, company;
    }

    method EditAgreeTerms(checked: bool)
      requires Valid() && activeStep == LastStep
      modifies this
      ensures Valid() && agreeTerms == checked
      ensures email == old(email) && password == old(password) && firstName == old(firstName)
      ensures lastName == old(lastName) && activeStep == old(activeStep) && error == old(error)
    {
      agreeTerms := checked;
    }

    /** `handleNextStep`, offered before the last step: the first failing
        check of the current step is reported and the step stays; otherwise
        the error clears and the wizard moves one step on. */
    method NextStep()
      requires Valid() && activeStep < LastStep
      modifies this
      ensures Valid()
      ensures var failure := if old(activeStep) == 0 then AccountError(email, password, confirmPassword)
                             else NamesError(firstName, lastName);
        && (failure.Some? ==> error == failure && activeStep == old(activeStep))
        && (failure.None? ==> error.None? && activeStep == old(activeStep) + 1)
      ensures email == old(email) && password == old(password) && confirmPassword == old(confirmPassword)
      ensures firstName == old(firstName) && lastName == old(lastName) && companyName == old(companyName)
      ensures agreeTerms == old(agreeTerms)
    {
      var failure := if activeStep == 0 then AccountError(email, password, confirmPassword)
                     else NamesError(firstName, lastName);
      if failure.Some? {
        error := failure;
        return;
      }
      error := None;
      activeStep := activeStep + 1;
    }

    /** `handleBackStep`, offered after the first step. */
    method BackStep()
      requires Valid() && activeStep > 0
      modifies this
      ensures Valid() && activeStep == old(activeStep) - 1 && error.None?
      ensures email == old(email) && password == old(password) && confirmPassword == old(confirmPassword)
      ensures firstName == old(firstName) && lastName == old(lastName) && companyName == old(companyName)
      ensures agreeTerms == old(agreeTerms)
    {
      activeStep := activeStep - 1;
      error := None;
    }

    /** `handleSubmit` on the last step: refused until the terms are agreed
        to; otherwise the request goes out with what the steps collected. */
    method Submit() returns (request: Option<Request>)
      requires Valid() && activeStep == LastStep
      modifies this
      ensures Valid() && activeStep == old(activeStep)
      ensures request.Some? <==> agreeTerms
      ensures !agreeTerms ==> error == Some("You must agree to the terms and conditions") && loading == old(loading)
      ensures agreeTerms ==> error.None? && loading
      ensures request.Some? ==> request.value == Request(email, password, firstName, lastName, companyName)
      ensures request.Some? ==> AccountError(request.value.email, request.value.password, request.value.password).None?
                                && NamesError(request.value.firstName, request.value.lastName).None?
      ensures email == old(email) && password == old(password) && firstName == old(firstName)
      ensures lastName == old(lastName) && companyName == old(companyName) && agreeTerms == old(agreeTerms)
    {
      if !agreeTerms {
        error := Some("You must agree to the terms and conditions");
        return None;
      }
      error := None;
      loading := true;
      request := Some(Request(email, password, firstName, lastName, companyName));
    }

    /** The end of `handleSubmit`: a new account goes on to the login page
        with its address; a failure is reported. */
    method SubmitAnswered(a: Answer)
      requires Valid()
      modifies this
      ensures Valid() && !loading
      ensures a.Registered? ==> sentToLogin == Some(email) && error == old(error)
      ensures !a.Registered? ==> error == Some(FailureMessage(a)) && sentToLogin == old(sentToLogin)
      ensures email == old(email) && activeStep == old(activeStep)
    {
      loading := false;
      if a.Registered? {
        sentToLogin := Some(email);
      } else {
        error := Some(FailureMessage(a));
      }
    }
  }
}
