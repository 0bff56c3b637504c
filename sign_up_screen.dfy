// EcoScope/app/src/main/java/com/himanshu/ecoscope/ui/screens/SignUpScreen.kt:
// the sign-up form's state, its validation cascade on submit, the button's
// enablement, and how the form reacts to the view-model's auth state. The
// email pattern is an input (`emailValid`); layout is not modelled.

module SignUpScreen {
  import opened Strings
  import opened UserModel
  import opened AuthViewModel

  /** The languages the dropdown offers. */
  const Languages := ["English", "Hindi", "Spanish", "French", "German", "Chinese", "Japanese"]

  datatype Field = FirstName | LastName | Email | PhoneNumber | Password | ConfirmPassword

  /** What pressing the button does: an error message, or `authViewModel.signUp` with these arguments. */
  datatype Submission =
    | Refused(message: string)
    | SignUpCall(firstName: string, lastName: string, email: string, phoneNumber: string,
                 preferredLanguage: string, password: string)

  /** The `when` of the button's click handler. */
  function Submit(firstName: string, lastName: string, email: string, phoneNumber: string,
                  preferredLanguage: string, password: string, confirmPassword: string,
                  emailValid: bool): (s: Submission)
    ensures s.SignUpCall? ==>
      && s == SignUpCall(firstName, lastName, email, phoneNumber, preferredLanguage, password)
      && emailValid && IsValidPassword(password) && PasswordsMatch(password, confirmPassword)
      && IsValidPhoneNumber(phoneNumber)
  {
    if !emailValid then Refused("Please enter a valid email address")
    else if !IsValidPassword(password) then Refused("Password must be at least 6 characters long")
    else if !PasswordsMatch(password, confirmPassword) then Refused("Passwords do not match")
    else if !IsValidPhoneNumber(phoneNumber) then Refused("Please enter a valid phone number")
    else SignUpCall(firstName, lastName, email, phoneNumber, preferredLanguage, password)
  }

  /**
   * The first failing check names the error, in the order email, password
   * length, confirmation, phone; with all four passing, sign-up is called
   * with the fields exactly as typed.
   */
  lemma SubmitCascade(firstName: string, lastName: string, email: string, phoneNumber: string,
                      preferredLanguage: string, password: string, confirmPassword: string, emailValid: bool)
    ensures var s := Submit(firstName, lastName, email, phoneNumber, preferredLanguage, password,
                            confirmPassword, emailValid);
      && (s == Refused("Please enter a valid email address") <==> !emailValid)
      && (s == Refused("Password must be at least 6 characters long") <==> emailValid && Utf16Length(password) < 6)
      && ((s == Refused("Passwords do not match"))
            <==> emailValid && Utf16Length(password) >= 6 && password != confirmPassword)
      && ((s == Refused("Please enter a valid phone number"))
            <==> emailValid && Utf16Length(password) >= 6 && password == confirmPassword
                 && Utf16Length(phoneNumber) < 10)
      && (s.SignUpCall? <==> emailValid && Utf16Length(password) >= 6 && password == confirmPassword
                             && Utf16Length(phoneNumber) >= 10)
      && (s.SignUpCall? ==> s == SignUpCall(firstName, lastName, email, phoneNumber, preferredLanguage, password))
  {
  }

  /** `isFormValid`: every text field filled in and the passwords equal. */
  predicate IsFormValid(firstName: string, lastName: string, email: string, phoneNumber: string,
                        password: string, confirmPassword: string)
  {
    && firstName != [] && lastName != [] && email != [] && phoneNumber != []
    && password != [] && confirmPassword != [] && PasswordsMatch(password, confirmPassword)
  }

  /**
   * An enabled button can still refuse: a filled-in form with matching
   * five-character passwords passes `isFormValid` and is refused for length.
   */
  lemma EnabledButRefused(firstName: string, lastName: string, email: string, phoneNumber: string,
                          preferredLanguage: string, password: string)
    requires firstName != [] && lastName != [] && email != [] && phoneNumber != []
    requires password != [] && Utf16Length(password) < 6
    ensures IsFormValid(firstName, lastName, email, phoneNumber, password, password)
    ensures Submit(firstName, lastName, email, phoneNumber, preferredLanguage, password, password, true)
         == Refused("Password must be at least 6 characters long")
  {
  }

  class SignUpForm {
    var firstName: string
    var lastName: string
    var email: string
    var phoneNumber: string
    var preferredLanguage: string
    var password: string
    var confirmPassword: string
    var errorMessage: string

    /** The language is always one the dropdown offers. */
    predicate Valid()
      reads this
    {
      preferredLanguage in Languages
    }

    constructor ()
      ensures Valid()
      ensures firstName == lastName == email == phoneNumber == password == confirmPassword == errorMessage == ""
      ensures preferredLanguage == "English"
    {
      firstName, lastName, email, phoneNumber := "", "", "", "";
      password, confirmPassword, errorMessage := "", "", "";
      preferredLanguage := "English";
    }

    /** A text field's `onValueChange`: store the text and clear the error. */
    method Edit(field: Field, value: string)
      modifies this
      ensures errorMessage == "" && preferredLanguage == old(preferredLanguage)
      ensures firstName == (if field == FirstName then value else old(firstName))
      ensures lastName == (if field == LastName then value else old(lastName))
      ensures email == (if field == Email then value else old(email))
      ensures phoneNumber == (if field == PhoneNumber then value else old(phoneNumber))
      ensures password == (if field == Password then value else old(password))
      ensures confirmPassword == (if field == ConfirmPassword then value else old(confirmPassword))
    {
      errorMessage := "";
      match field
      case FirstName => firstName := value;
      case LastName => lastName := value;
      case Email => email := value;
      case PhoneNumber => phoneNumber := value;
      case Password => password := value;
      case ConfirmPassword => confirmPassword := value;
    }

    /** A dropdown item's `onClick`. */
    method ChooseLanguage(item: nat)
      requires item < |Languages|
      modifies this`preferredLanguage
      ensures Valid() && preferredLanguage == Languages[item]
    {
      preferredLanguage := Languages[item];
    }

    /** The button's `enabled`. */
    predicate ButtonEnabled(isLoading: bool)
      reads this
    {
      !isLoading && IsFormValid(firstName, lastName, email, phoneNumber, password, confirmPassword)
    }

    /** The button's click: an error message, or the sign-up call. */
    method Press(emailValid: bool) returns (s: Submission)
      modifies this`errorMessage
      ensures s == Submit(firstName, lastName, email, phoneNumber, preferredLanguage, password,
                          confirmPassword, emailValid)
      ensures s.Refused? ==> errorMessage == s.message
      ensures s.SignUpCall? ==> errorMessage == old(errorMessage)
    {
      s := Submit(firstName, lastName, email, phoneNumber, preferredLanguage, password, confirmPassword, emailValid);
      if s.Refused? {
        errorMessage := s.message;
      }
    }

    /**
     * The `LaunchedEffect(authState)` handler; `proceed` is whether it calls
     * `onSignUpSuccess`. Success and Loading clear the error, the two
     * signed-out notices leave it, any other error is shown as it is.
     */
    method OnAuthState(state: AuthResult) returns (proceed: bool)
      modifies this`errorMessage
      ensures proceed <==> state.Success?
      ensures state.Success? || state.Loading? ==> errorMessage == ""
      ensures state.Error? && IsSignedOutNotice(state.message) ==> errorMessage == old(errorMessage)
      ensures state.Error? && !IsSignedOutNotice(state.message) ==> errorMessage == state.message
    {
      proceed := false;
      match state
      case Success(_) =>
        errorMessage := "";
        proceed := true;
      case Error(message) =>
        if message != "User not signed in" && message != "User signed out" {
          errorMessage := message;
        }
      case Loading =>
        errorMessage := "";
    }
  }
}
