/**
 * The sign-in form: its fields, its validation, the submit gate in front of
 * the provider's sign-in, and the edit handlers that clear a field's error.
 */
module SignInForm {
  import opened JsText
  import opened Account
  import opened Credentials
  import opened AuthContext

  datatype Errors = Errors(email: string, password: string)

  const NoErrors := Errors("", "")

  const HomeRoute := "/"
  const AlertTitle := "Sign In Error"
  const FallbackMessage := "Failed to sign in. Please check your credentials."

  /** `newErrors`: the errors validation stores for the given field values, each field's
      message empty exactly when its rule holds. */
  function ValidationErrors(email: string, password: string): (r: Errors)
    ensures r.email == EmailError(email) && r.password == PasswordError(password)
    ensures r.email == "" <==> IsEmail(email)
    ensures r.password == "" <==> Utf16Length(password) >= MinPasswordLength
  {
    Errors(EmailError(email), PasswordError(password))
  }

  /** The form is valid exactly when the email matches the pattern and the password is
      at least 8 code units long. */
  lemma ValidIffRulesHold(email: string, password: string)
    ensures ValidationErrors(email, password) == NoErrors <==>
              IsEmail(email) && Utf16Length(password) >= MinPasswordLength
  {
  }

  /** What the user sees after `signin` settled with `outcome`. */
  function SettledResult(outcome: Outcome): (r: SubmitResult)
    ensures r.Navigated? <==> outcome.Resolved?
    ensures r.Navigated? ==> r.route == HomeRoute
    ensures outcome.Rejected? ==> r == Alerted(AlertTitle, MessageOr(outcome.error, FallbackMessage))
  {
    match outcome
    case Resolved => Navigated(HomeRoute)
    case Rejected(e) => Alerted(AlertTitle, MessageOr(e, FallbackMessage))
  }

  class SignInForm {
    const auth: AuthProvider
    var email: string
    var password: string
    var isLoading: bool
    var errors: Errors

    constructor (auth: AuthProvider)
      ensures this.auth == auth
      ensures email == "" && password == "" && !isLoading && errors == NoErrors
    {
      this.auth := auth;
      email, password, isLoading, errors := "", "", false, NoErrors;
    }

    /** `validateForm`: builds the errors one field at a time and stores them. */
    method ValidateForm() returns (isValid: bool)
      modifies this`errors
      ensures errors == ValidationErrors(email, password)
      ensures isValid <==> errors == NoErrors
    {
      var newErrors := NoErrors;
      isValid := true;
      if email == "" {
        newErrors := newErrors.(email := "Email is required");
        isValid := false;
      } else if !IsEmail(email) {
        newErrors := newErrors.(email := "Please enter a valid email address");
        isValid := false;
      }
      if password == "" {
        newErrors := newErrors.(password := "Password is required");
        isValid := false;
      } else if Utf16Length(password) < MinPasswordLength {
        newErrors := newErrors.(password := "Password must be at least 8 characters");
        isValid := false;
      }
      errors := newErrors;
    }

    /** `onSubmit`, given how the two remote calls of sign-in would settle. */
    method OnSubmit(created: Remote<Session>, fetched: Remote<User>)
      returns (result: SubmitResult, calls: seq<Call>)
      modifies this`errors, this`isLoading, auth
      ensures email == old(email) && password == old(password)
      ensures errors == ValidationErrors(email, password)
      ensures isLoading == (old(isLoading) && errors != NoErrors)
      ensures errors != NoErrors ==>
                result == Invalid && calls == [] && auth.State() == old(auth.State())
      ensures errors == NoErrors ==>
                && auth.State() == AfterSignin(old(auth.State()), created, fetched)
                && calls == SigninCalls(email, password, created)
                && result == SettledResult(SigninOutcome(created, fetched))
    {
      var valid := ValidateForm();
      if !valid {
        result, calls := Invalid, [];
        return;
      }
      isLoading := true;
      var outcome;
      outcome, calls := auth.Signin(email, password, created, fetched);
      result := SettledResult(outcome);
      isLoading := false;
    }

    /** The email field's onChangeText: only the email error is cleared. */
    method OnEmailChange(text: string)
      modifies this`email, this`errors
      ensures email == text
      ensures errors == old(errors).(email := "")
    {
      email := text;
      if errors.email != "" {
        errors := errors.(email := "");
      }
    }

    /** The password field's onChangeText: only the password error is cleared. */
    method OnPasswordChange(text: string)
      modifies this`password, this`errors
      ensures password == text
      ensures errors == old(errors).(password := "")
    {
      password := text;
      if errors.password != "" {
        errors := errors.(password := "");
      }
    }
  }
}
