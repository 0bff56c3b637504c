// EcoScope/app/src/main/java/com/himanshu/ecoscope/ui/screens/LoginScreen.kt:
// the login form's state, its check on submit, the button's enablement and
// its reaction to the view-model's auth state. The email pattern is an input.

module LoginScreen {
  import opened Strings
  import opened UserModel
  import opened AuthViewModel

  /** What pressing the button does: an error message, or `authViewModel.signIn(email, password)`. */
  datatype Submission = Refused(message: string) | SignInCall(email: string, password: string)

  /** The button's nested `if`. */
  function Submit(email: string, password: string, emailValid: bool): (s: Submission)
    ensures s.SignInCall? ==> s == SignInCall(email, password) && emailValid
    ensures s.Refused? ==> s.message in {"Please fill in all fields", "Please enter a valid email address"}
  {
    if !IsBlank(email) && !IsBlank(password) then
      if emailValid then SignInCall(email, password) else Refused("Please enter a valid email address")
    else Refused("Please fill in all fields")
  }

  /**
   * A blank field is reported first, then an invalid email; sign-in is
   * called, with the fields as typed, exactly when both are filled in and
   * the email is valid.
   */
  lemma SubmitCases(email: string, password: string, emailValid: bool)
    ensures var s := Submit(email, password, emailValid);
      && (s == Refused("Please fill in all fields") <==> IsBlank(email) || IsBlank(password))
      && ((s == Refused("Please enter a valid email address"))
            <==> !IsBlank(email) && !IsBlank(password) && !emailValid)
      && (s.SignInCall? <==> !IsBlank(email) && !IsBlank(password) && emailValid)
      && (s.SignInCall? ==> s == SignInCall(email, password))
  {
  }

  class LoginForm {
    var email: string
    var password: string
    var errorMessage: string

    constructor ()
      ensures email == password == errorMessage == ""
    {
      email, password, errorMessage := "", "", "";
    }

    /** The email field's `onValueChange`. */
    method EditEmail(value: string)
      modifies this`email, this`errorMessage
      ensures email == value && errorMessage == ""
    {
      email, errorMessage := value, "";
    }

    /** The password field's `onValueChange`. */
    method EditPassword(value: string)
      modifies this`password, this`errorMessage
      ensures password == value && errorMessage == ""
    {
      password, errorMessage := value, "";
    }

    /** The button's `enabled`. */
    predicate ButtonEnabled(isLoading: bool)
      reads this
    {
      !isLoading && !IsBlank(email) && !IsBlank(password)
    }

    /** The button's click. */
    method Press(emailValid: bool) returns (s: Submission)
      modifies this`errorMessage
      ensures s == Submit(email, password, emailValid)
      ensures s.Refused? ==> errorMessage == s.message
      ensures s.SignInCall? ==> errorMessage == old(errorMessage)
    {
      if !IsBlank(email) && !IsBlank(password) {
        if emailValid {
          s := SignInCall(email, password);
        } else {
          s := Refused("Please enter a valid email address");
          errorMessage := s.message;
        }
      } else {
        s := Refused("Please fill in all fields");
        errorMessage := s.message;
      }
    }

    /** The `LaunchedEffect(authState)` handler; `proceed` is whether it calls `onLoginSuccess`. */
    method OnAuthState(state: AuthResult) returns (proceed: bool)
      modifies this`errorMessage
      ensures proceed <==> state.Success?
      ensures state.Success? || state.Loading? ==> errorMessage == ""
      ensures state.Error? && IsSignedOutNotice(state.message) ==> errorMessage == old(errorMessage)
      ensures state.Error? && !IsSignedOutNotice(state.message) ==> errorMessage == state.message
    {
      proceed := state.Success?;
      if state.Error? {
        if state.message != "User not signed in" && state.message != "User signed out" {
          errorMessage := state.message;
        }
      } else {
        errorMessage := "";
      }
    }
  }

  /** An enabled button never reports a blank field. */
  lemma EnabledNeverBlank(form: LoginForm, isLoading: bool, emailValid: bool)
    requires form.ButtonEnabled(isLoading)
    ensures Submit(form.email, form.password, emailValid) != Refused("Please fill in all fields")
  {
  }
}
