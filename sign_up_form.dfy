/**
 * The sign-up form: four fields, their validation, the submit sequence
 * (create the account, then sign in) and the edit handlers, including the
 * password handler that also clears a stale "do not match" error.
 */
module SignUpForm {
  import opened JsText
  import opened Account
  import opened Credentials
  import opened AuthContext

  datatype Errors = Errors(name: string, email: string, password: string, confirmPassword: string)

  const NoErrors := Errors("", "", "", "")

  const HomeRoute := "/"
  const AlertTitle := "Sign Up Error"
  const FallbackMessage := "Failed to create account. Please try again."

  /** The name field's message: required unless something other than whitespace was typed. */
  function NameError(name: string): (msg: string)
    ensures AllWhitespace(name) ==> msg == "Name is required"
    ensures msg == "" <==> !AllWhitespace(name)
  {
    if AllWhitespace(name) then "Name is required" else ""
  }

  /** The confirmation field's message. */
  function ConfirmError(password: string, confirm: string): (msg: string)
    ensures confirm == "" ==> msg == "Please confirm your password"
    ensures confirm != "" && confirm != password ==> msg == "Passwords do not match"
    ensures msg == "" <==> confirm != "" && confirm == password
  {
    if confirm == "" then "Please confirm your password"
    else if password != confirm then "Passwords do not match"
    else ""
  }

  /** `newErrors`: the errors validation stores for the given field values, each field's
      message empty exactly when its rule holds. */
  function ValidationErrors(name: string, email: string, password: string, confirm: string): (r: Errors)
    ensures r == Errors(NameError(name), EmailError(email), PasswordError(password), ConfirmError(password, confirm))
    ensures r.name == "" <==> !AllWhitespace(name)
    ensures r.email == "" <==> IsEmail(email)
    ensures r.password == "" <==> Utf16Length(password) >= MinPasswordLength
    ensures r.confirmPassword == "" <==> confirm != "" && confirm == password
  {
    Errors(NameError(name), EmailError(email), PasswordError(password), ConfirmError(password, confirm))
  }

  /** The form is valid exactly when the name is not blank, the email matches the pattern,
      the password is at least 8 code units long and the confirmation repeats it. */
  lemma ValidIffRulesHold(name: string, email: string, password: string, confirm: string)
    ensures ValidationErrors(name, email, password, confirm) == NoErrors <==>
              && !AllWhitespace(name)
              && IsEmail(email)
              && Utf16Length(password) >= MinPasswordLength
              && confirm == password
  {
  }

  /** The calls a valid submit makes: account creation first, sign-in only after it resolved. */
  function SubmitCalls(name: string, email: string, password: string,
                       created: Remote<User>, session: Remote<Session>): (calls: seq<Call>)
    ensures |calls| == (if created.Fail? then 1 else if session.Fail? then 2 else 3)
    ensures calls[0] == Create(email, password, name)
    ensures CreateEmailPasswordSession(email, password) in calls <==> created.Ok?
    ensures created.Ok? ==> calls[1..] == SigninCalls(email, password, session)
  {
    [Create(email, password, name)] + if created.Ok? then SigninCalls(email, password, session) else []
  }

  /** What the user sees: home after both steps resolved, otherwise an alert with the first error. */
  function SettledResult(created: Remote<User>, signin: Outcome): (r: SubmitResult)
    ensures r.Navigated? <==> created.Ok? && signin.Resolved?
    ensures r.Navigated? ==> r.route == HomeRoute
    ensures created.Fail? ==> r == Alerted(AlertTitle, MessageOr(created.error, FallbackMessage))
    ensures created.Ok? && signin.Rejected? ==> r == Alerted(AlertTitle, MessageOr(signin.error, FallbackMessage))
  {
    match created
    case Fail(e) => Alerted(AlertTitle, MessageOr(e, FallbackMessage))
    case Ok(_) =>
      match signin
      case Resolved => Navigated(HomeRoute)
      case Rejected(e) => Alerted(AlertTitle, MessageOr(e, FallbackMessage))
  }

  class SignUpForm {
    const auth: AuthProvider
    var name: string
    var email: string
    var password: string
    var confirmPassword: string
    var isLoading: bool
    var errors: Errors

    constructor (auth: AuthProvider)
      ensures this.auth == auth
      ensures name == "" && email == "" && password == "" && confirmPassword == ""
      ensures !isLoading && errors == NoErrors
    {
      this.auth := auth;
      name, email, password, confirmPassword := "", "", "", "";
      isLoading, errors := false, NoErrors;
    }

    /** `validateForm`: four checks, each producing its field's message and clearing
        the validity flag when it fails. */
    method ValidateForm() returns (isValid: bool)
      modifies this`errors
      ensures errors == ValidationErrors(name, email, password, confirmPassword)
      ensures isValid <==> errors == NoErrors
    {
      var nameMsg, nameOk := CheckName();
      var emailMsg, emailOk := CheckEmail();
      var passwordMsg, passwordOk := CheckPassword();
      var confirmMsg, confirmOk := CheckConfirm();
      isValid := nameOk && emailOk && passwordOk && confirmOk;
      errors := Errors(nameMsg, emailMsg, passwordMsg, confirmMsg);
    }

    /** The name block of `validateForm`. */
    method CheckName() returns (msg: string, ok: bool)
      ensures msg == NameError(name)
      ensures ok <==> !AllWhitespace(name)
    {
      msg, ok := "", true;
      if Trim(name) == "" {
        msg, ok := "Name is required", false;
      }
    }

    /** The email block of `validateForm`. */
    method CheckEmail() returns (msg: string, ok: bool)
      ensures msg == EmailError(email)
      ensures ok <==> IsEmail(email)
    {
      msg, ok := "", true;
      if email == "" {
        msg, ok := "Email is required", false;
      } else if !IsEmail(email) {
        msg, ok := "Please enter a valid email address", false;
      }
    }

    /** The password block of `validateForm`. */
    method CheckPassword() returns (msg: string, ok: bool)
      ensures msg == PasswordError(password)
      ensures ok <==> Utf16Length(password) >= MinPasswordLength
    {
      msg, ok := "", true;
      if password == "" {
        msg, ok := "Password is required", false;
      } else if Utf16Length(password) < MinPasswordLength {
        msg, ok := "Password must be at least 8 characters", false;
      }
    }

    /** The confirmation block of `validateForm`. */
    method CheckConfirm() returns (msg: string, ok: bool)
      ensures msg == ConfirmError(password, confirmPassword)
      ensures ok <==> confirmPassword != "" && confirmPassword == password
    {
      msg, ok := "", true;
      if confirmPassword == "" {
        msg, ok := "Please confirm your password", false;
      } else if password != confirmPassword {
        msg, ok := "Passwords do not match", false;
      }
    }

    /** `onSubmit`, given how account creation and the two calls of sign-in would settle. */
    method OnSubmit(created: Remote<User>, session: Remote<Session>, fetched: Remote<User>)
      returns (result: SubmitResult, calls: seq<Call>)
      modifies this`errors, this`isLoading, auth
      ensures errors == ValidationErrors(name, email, password, confirmPassword)
      ensures isLoading == (old(isLoading) && errors != NoErrors)
      ensures errors != NoErrors ==>
                result == Invalid && calls == [] && auth.State() == old(auth.State())
      ensures errors == NoErrors && created.Fail? ==> auth.State() == old(auth.State())
      ensures errors == NoErrors && created.Ok? ==>
                auth.State() == AfterSignin(old(auth.State()), session, fetched)
      ensures errors == NoErrors ==>
                && calls == SubmitCalls(name, email, password, created, session)
                && result == SettledResult(created, SigninOutcome(session, fetched))
    {
      var valid := ValidateForm();
      if !valid {
        result, calls := Invalid, [];
        return;
      }
      result, calls := SubmitValid(created, session, fetched);
    }

    /** The part of `onSubmit` after validation passed: the loading flag is raised for the
        duration, the account is created, and only then is the user signed in. */
    method SubmitValid(created: Remote<User>, session: Remote<Session>, fetched: Remote<User>)
      returns (result: SubmitResult, calls: seq<Call>)
      modifies this`isLoading, auth
      ensures !isLoading
      ensures created.Fail? ==> auth.State() == old(auth.State())
      ensures created.Ok? ==> auth.State() == AfterSignin(old(auth.State()), session, fetched)
      ensures calls == SubmitCalls(name, email, password, created, session)
      ensures result == SettledResult(created, SigninOutcome(session, fetched))
    {
      isLoading := true;
      calls := [Create(email, password, name)];
      var signin := Resolved;
      if created.Ok? {
        var signinCalls;
        signin, signinCalls := auth.Signin(email, password, session, fetched);
        calls := calls + signinCalls;
      }
      result := SettledResult(created, signin);
      isLoading := false;
    }

    method OnNameChange(text: string)
      modifies this`name, this`errors
      ensures name == text
      ensures errors == old(errors).(name := "")
    {
      name := text;
      if errors.name != "" {
        errors := errors.(name := "");
      }
    }

    method OnEmailChange(text: string)
      modifies this`email, this`errors
      ensures email == text
      ensures errors == old(errors).(email := "")
    {
      email := text;
      if errors.email != "" {
        errors := errors.(email := "");
      }
    }

    /** Both updates are computed from the errors as they were before the edit; the second,
        when it applies, replaces the first. */
    method OnPasswordChange(text: string)
      modifies this`password, this`errors
      ensures password == text
      ensures errors.name == old(errors.name) && errors.email == old(errors.email)
      ensures errors.password == ""
      ensures errors.confirmPassword ==
                if confirmPassword != "" && text == confirmPassword then "" else old(errors.confirmPassword)
    {
      var before := errors;
      password := text;
      if before.password != "" {
        errors := before.(password := "");
      }
      if confirmPassword != "" && text == confirmPassword && before.confirmPassword != "" {
        errors := before.(password := "", confirmPassword := "");
      }
    }

    method OnConfirmChange(text: string)
      modifies this`confirmPassword, this`errors
      ensures confirmPassword == text
      ensures errors == old(errors).(confirmPassword := "")
    {
      confirmPassword := text;
      if errors.confirmPassword != "" {
        errors := errors.(confirmPassword := "");
      }
    }
  }
}
