// EcoScope/app/src/main/java/com/himanshu/ecoscope/FirestoreViewModel.kt:
// the authentication view-model. Its three state flows are fields; each
// coroutine runs to completion inside one method, so the spinner's `true`
// in the middle of a call is not observable here.

module AuthViewModel {
  import opened Wrappers
  import opened Strings
  import opened UserModel
  import opened AuthRepo

  /** The request `signUp` sends: four fields trimmed, the language and the password as typed. */
  function SignUpRequestOf(firstName: string, lastName: string, email: string, phoneNumber: string,
                           preferredLanguage: string, password: string): (req: SignUpRequest)
    ensures req.preferredLanguage == preferredLanguage && req.password == password
  {
    SignUpRequest(Trim(firstName), Trim(lastName), Trim(email), Trim(phoneNumber), preferredLanguage, password)
  }

  /** The request `signIn` sends: the email trimmed, the password as typed. */
  function LoginRequestOf(email: string, password: string): (req: LoginRequest)
    ensures req.password == password
  {
    LoginRequest(Trim(email), password)
  }

  /** Padding around the trimmed fields makes no difference to the request. */
  lemma SignUpPaddingIgnored(firstName: string, lastName: string, email: string, phoneNumber: string,
                             preferredLanguage: string, password: string)
    ensures SignUpRequestOf(Trim(firstName), Trim(lastName), Trim(email), Trim(phoneNumber), preferredLanguage, password)
         == SignUpRequestOf(firstName, lastName, email, phoneNumber, preferredLanguage, password)
  {
    TrimIdempotent(firstName);
    TrimIdempotent(lastName);
    TrimIdempotent(email);
    TrimIdempotent(phoneNumber);
  }

  /** The request fields that are trimmed have no whitespace at their ends; the password may. */
  lemma SignUpRequestTrimmed(firstName: string, lastName: string, email: string, phoneNumber: string,
                             preferredLanguage: string, password: string)
    ensures var req := SignUpRequestOf(firstName, lastName, email, phoneNumber, preferredLanguage, password);
      && (req.email != [] ==> !IsWhitespace(req.email[0]) && !IsWhitespace(req.email[|req.email| - 1]))
      && (req.phoneNumber != [] ==> !IsWhitespace(req.phoneNumber[0]))
      && (req.firstName != [] ==> !IsWhitespace(req.firstName[0]))
      && (req.lastName != [] ==> !IsWhitespace(req.lastName[0]))
  {
    TrimEnds(email);
    TrimEnds(phoneNumber);
    TrimEnds(firstName);
    TrimEnds(lastName);
  }

  /** Padding around the email makes no difference to the login request. */
  lemma LoginPaddingIgnored(email: string, password: string)
    ensures LoginRequestOf(Trim(email), password) == LoginRequestOf(email, password)
  {
    TrimIdempotent(email);
  }

  /** The fixed failure texts of the repository and the view-model. */
  const AuthFailureTexts: set<string> :=
    {"User data not found", "User creation failed", "Firebase auth failed",
     "User data not found in Firestore", "Login error", "Unknown signup error"}

  /**
   * The two error messages the view-model posts when nobody is signed in.
   * The sign-up and login screens do not display them; every other fixed
   * failure text is displayed.
   */
  function IsSignedOutNotice(message: string): (hidden: bool)
    ensures message in AuthFailureTexts ==> !hidden
  {
    message == "User not signed in" || message == "User signed out"
  }

  // -------------------------------------------------------------- validators

  /**
   * `password.length >= 6`, counted in UTF-16 code units: six characters
   * always pass, fewer than three never do.
   */
  function IsValidPassword(password: string): (ok: bool)
    ensures |password| >= 6 ==> ok
    ensures ok ==> |password| >= 3
  {
    Utf16Length(password) >= 6
  }

  /**
   * `phoneNumber.length >= 10`, counted in UTF-16 code units: ten characters
   * always pass, fewer than five never do.
   */
  function IsValidPhoneNumber(phoneNumber: string): (ok: bool)
    ensures |phoneNumber| >= 10 ==> ok
    ensures ok ==> |phoneNumber| >= 5
  {
    Utf16Length(phoneNumber) >= 10
  }

  /** Without characters above U+FFFF both checks count characters. */
  lemma ValidatorsOnBmp(s: string)
    requires forall i :: 0 <= i < |s| ==> s[i] as int < 0x1_0000
    ensures IsValidPassword(s) <==> |s| >= 6
    ensures IsValidPhoneNumber(s) <==> |s| >= 10
  {
    Utf16LengthBmp(s);
  }

  /**
   * Three characters above U+FFFF are six code units, so such a password
   * passes the length check although it has only three characters.
   */
  lemma AstralPasswordAccepted(password: string)
    requires |password| == 3 && forall i :: 0 <= i < 3 ==> password[i] as int >= 0x1_0000
    ensures IsValidPassword(password)
  {
    Utf16LengthAstral(password);
  }

  /**
   * `password == confirmPassword`: Kotlin compares the contents of the two
   * strings, character by character.
   */
  function PasswordsMatch(password: string, confirmPassword: string): (same: bool)
    ensures same <==> |password| == |confirmPassword|
                      && forall i :: 0 <= i < |password| ==> password[i] == confirmPassword[i]
  {
    password == confirmPassword
  }

  // -------------------------------------------------------------- view-model

  class AuthViewModel {
    const repo: AuthRepository
    var authState: AuthResult
    var isLoading: bool
    var currentUser: Option<User>

    /** The initial flows, before the launched `checkAuthState` finishes. */
    constructor (repository: AuthRepository)
      ensures repo == repository
      ensures authState == Loading && !isLoading && currentUser == None
    {
      repo := repository;
      authState, isLoading, currentUser := Loading, false, None;
    }

    /** `checkAuthState`; `read` and `now` are passed on to `getCurrentUserData`. */
    method CheckAuthState(read: StoreCall, now: int)
      modifies this`authState, this`currentUser
      ensures var data := repo.CurrentUserData(read, now);
        && (repo.session.None? ==> authState == Error("User not signed in") && currentUser == old(currentUser))
        && (repo.session.Some? && data.None? ==> authState == Error("User data not found")
                                                 && currentUser == old(currentUser))
        && (repo.session.Some? && data.Some? ==> authState == Success(data.value) && currentUser == data)
      ensures authState.Error? ==> (IsSignedOutNotice(authState.message) <==> repo.session.None?)
    {
      if repo.IsUserSignedIn() {
        var user := repo.GetCurrentUserData(read, now);
        if user.Some? {
          currentUser := user;
          authState := Success(user.value);
        } else {
          authState := Error("User data not found");
        }
      } else {
        authState := Error("User not signed in");
      }
    }

    /** `signUp`: the repository's result becomes the state; the user is kept only on success. */
    method SignUp(firstName: string, lastName: string, email: string, phoneNumber: string,
                  preferredLanguage: string, password: string, create: AuthCall, write: StoreCall, now: int)
      modifies this`authState, this`isLoading, this`currentUser, repo
      ensures !isLoading
      ensures authState.Success? ==> currentUser == Some(authState.user)
      ensures !authState.Success? ==> currentUser == old(currentUser)
      ensures create.Raised? ==> authState == Error(create.message.GetOr("Unknown signup error")) && unchanged(repo)
      ensures create == Answered(None) ==> authState == Error("User creation failed") && unchanged(repo)
      ensures create.Answered? && create.uid.Some? ==>
        var u := NewUser(create.uid.value,
                         SignUpRequestOf(firstName, lastName, email, phoneNumber, preferredLanguage, password), now);
        && repo.accounts == old(repo.accounts) + {u.uid} && repo.session == Some(u.uid)
        && (write.Done? ==> authState == Success(u) && repo.profiles == old(repo.profiles)[u.uid := ToMap(u)])
        && (write.StoreRaised? ==> authState == Error(write.message.GetOr("Unknown signup error"))
                                   && repo.profiles == old(repo.profiles))
    {
      isLoading := true;
      var req := SignUpRequestOf(firstName, lastName, email, phoneNumber, preferredLanguage, password);
      var result := repo.SignUp(req, create, write, now);
      authState := result;
      if result.Success? {
        currentUser := Some(result.user);
      }
      isLoading := false;
    }

    /** `signIn`, the same way. */
    method SignIn(email: string, password: string, login: AuthCall, read: StoreCall,
                  decodeMessage: Option<string>, now: int)
      modifies this`authState, this`isLoading, this`currentUser, repo`session
      ensures !isLoading
      ensures authState.Success? ==> currentUser == Some(authState.user)
      ensures !authState.Success? ==> currentUser == old(currentUser)
      ensures login.Raised? ==> authState == Error(login.message.GetOr("Login error")) && repo.session == old(repo.session)
      ensures login == Answered(None) ==> authState == Error("Firebase auth failed") && repo.session == old(repo.session)
      ensures login.Answered? && login.uid.Some? ==>
        var uid := login.uid.value;
        && repo.session == Some(uid)
        && (read.StoreRaised? ==> authState == Error(read.message.GetOr("Login error")))
        && (read.Done? && uid !in repo.profiles ==> authState == Error("User data not found in Firestore"))
        && (read.Done? && uid in repo.profiles && DecodeUser(repo.profiles[uid], now).Some? ==>
              authState == Success(DecodeUser(repo.profiles[uid], now).value))
        && (read.Done? && uid in repo.profiles && DecodeUser(repo.profiles[uid], now).None? ==>
              authState == Error(decodeMessage.GetOr("Login error")))
    {
      isLoading := true;
      var req := LoginRequestOf(email, password);
      var result := repo.SignIn(req, login, read, decodeMessage, now);
      authState := result;
      if result.Success? {
        currentUser := Some(result.user);
      }
      isLoading := false;
    }

    /** `signOut`: only a successful sign-out clears the user and reports it. */
    method SignOut(raises: bool)
      modifies this`authState, this`isLoading, this`currentUser, repo`session
      ensures !isLoading
      ensures !raises ==> currentUser == None && authState == Error("User signed out") && repo.session == None
      ensures raises ==> currentUser == old(currentUser) && authState == old(authState)
                         && repo.session == old(repo.session)
    {
      isLoading := true;
      var success := repo.SignOut(raises);
      if success {
        currentUser := None;
        authState := Error("User signed out");
      }
      isLoading := false;
    }

    /** `clearAuthState`. */
    method ClearAuthState()
      modifies this`authState
      ensures authState == Loading
    {
      authState := Loading;
    }
  }
}
