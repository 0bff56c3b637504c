// EcoScope/app/src/main/java/com/himanshu/ecoscope/FirebaseAuth.kt: the
// repository in front of the identity provider and the `users` collection.
// The provider is seen through its answers, which are parameters; the
// collection is an in-memory map from uid to document; `Date()` is `now`.

module AuthRepo {
  import opened Wrappers
  import opened UserModel

  /** What a provider call did: answered with its user's uid (or null), or raised. */
  datatype AuthCall = Answered(uid: Option<string>) | Raised(message: Option<string>)

  /** What a read or write of the collection did. */
  datatype StoreCall = Done | StoreRaised(message: Option<string>)

  // ------------------------------------------------------------- decoding

  /** `doc.getString(key)`: null when absent or null, None where it raises on a non-string. */
  function GetString(doc: map<string, Value>, key: string): (r: Option<Option<string>>)
    ensures r == Some(None) <==> key !in doc || doc[key].Null?
    ensures r.Some? && r.value.Some? <==> key in doc && doc[key].Str?
    ensures r.Some? && r.value.Some? ==> r.value.value == doc[key].s
  {
    if key !in doc then Some(None)
    else match doc[key]
      case Str(s) => Some(Some(s))
      case Null => Some(None)
      case Time(_) => None
  }

  /** `doc.getDate(key)`. */
  function GetDate(doc: map<string, Value>, key: string): (r: Option<Option<int>>)
    ensures r == Some(None) <==> key !in doc || doc[key].Null?
    ensures r.Some? && r.value.Some? <==> key in doc && doc[key].Time?
    ensures r.Some? && r.value.Some? ==> r.value.value == doc[key].t
  {
    if key !in doc then Some(None)
    else match doc[key]
      case Time(t) => Some(Some(t))
      case Null => Some(None)
      case Str(_) => None
  }

  /**
   * The decoder of `signIn` and `getCurrentUserData`: each missing text is
   * "", a missing language "English", a missing date `now`; None where a
   * field of the wrong type makes a getter raise.
   */
  function DecodeUser(doc: map<string, Value>, now: int): (r: Option<User>)
    ensures r.Some? ==> r.value.createdAt.Some? && r.value.updatedAt.Some?
    ensures r.Some? && "preferredLanguage" !in doc ==> r.value.preferredLanguage == "English"
  {
    var uid, first, last := GetString(doc, "uid"), GetString(doc, "firstName"), GetString(doc, "lastName");
    var email, phone, lang := GetString(doc, "email"), GetString(doc, "phoneNumber"), GetString(doc, "preferredLanguage");
    var created, updated := GetDate(doc, "createdAt"), GetDate(doc, "updatedAt");
    if uid.None? || first.None? || last.None? || email.None? || phone.None? || lang.None?
       || created.None? || updated.None? then None
    else
      Some(User(uid.value.GetOr(""), first.value.GetOr(""), last.value.GetOr(""), email.value.GetOr(""),
                phone.value.GetOr(""), lang.value.GetOr("English"),
                Some(created.value.GetOr(now)), Some(updated.value.GetOr(now))))
  }

  /** A document written by `toMap` decodes to the same user, a missing date becoming `now`. */
  lemma DecodeToMap(u: User, now: int)
    ensures DecodeUser(ToMap(u), now)
         == Some(u.(createdAt := Some(u.createdAt.GetOr(now)), updatedAt := Some(u.updatedAt.GetOr(now))))
  {
  }

  /** ... and to exactly the user when both its dates are set. */
  lemma DecodeToMapStamped(u: User, now: int)
    requires u.createdAt.Some? && u.updatedAt.Some?
    ensures DecodeUser(ToMap(u), now) == Some(u)
  {
    DecodeToMap(u, now);
  }

  /** An empty document decodes to the default user, stamped now. */
  lemma DecodeEmpty(now: int)
    ensures DecodeUser(map[], now) == Some(DefaultUser.(createdAt := Some(now), updatedAt := Some(now)))
  {
  }

  /** A field that `getString` or `getDate` refuses. */
  predicate Mistyped(doc: map<string, Value>, key: string) {
    key in doc && (if key == "createdAt" || key == "updatedAt" then doc[key].Str? else doc[key].Time?)
  }

  /** Decoding fails exactly where one of the eight fields has the wrong type. */
  lemma DecodeFails(doc: map<string, Value>, now: int)
    ensures DecodeUser(doc, now).None? <==> exists k :: k in UserKeys && Mistyped(doc, k)
  {
    if DecodeUser(doc, now).None? {
      if GetString(doc, "uid").None? { assert Mistyped(doc, "uid"); }
      else if GetString(doc, "firstName").None? { assert Mistyped(doc, "firstName"); }
      else if GetString(doc, "lastName").None? { assert Mistyped(doc, "lastName"); }
      else if GetString(doc, "email").None? { assert Mistyped(doc, "email"); }
      else if GetString(doc, "phoneNumber").None? { assert Mistyped(doc, "phoneNumber"); }
      else if GetString(doc, "preferredLanguage").None? { assert Mistyped(doc, "preferredLanguage"); }
      else if GetDate(doc, "createdAt").None? { assert Mistyped(doc, "createdAt"); }
      else { assert Mistyped(doc, "updatedAt"); }
    }
  }

  /** The profile `signUp` builds from a request and the new account's uid. */
  function NewUser(uid: string, req: SignUpRequest, now: int): (u: User)
    ensures u.uid == uid && u.createdAt == Some(now) && u.updatedAt == Some(now)
  {
    User(uid, req.firstName, req.lastName, req.email, req.phoneNumber, req.preferredLanguage, Some(now), Some(now))
  }

  /** The password never reaches the profile. */
  lemma PasswordNotStored(uid: string, req: SignUpRequest, password: string, now: int)
    ensures ToMap(NewUser(uid, req, now)) == ToMap(NewUser(uid, req.(password := password), now))
  {
  }

  /** A profile written at sign-up reads back as the user `signUp` returned. */
  lemma SignUpReadsBack(uid: string, req: SignUpRequest, now: int, later: int)
    ensures DecodeUser(ToMap(NewUser(uid, req, now)), later) == Some(NewUser(uid, req, now))
  {
    DecodeToMapStamped(NewUser(uid, req, now), later);
  }

  // ----------------------------------------------------------- repository

  class AuthRepository {
    /** The uids the provider holds an account for. */
    var accounts: set<string>
    /** `auth.currentUser`'s uid. */
    var session: Option<string>
    /** The `users` collection, by document id. */
    var profiles: map<string, map<string, Value>>

    constructor (accounts0: set<string>, session0: Option<string>, profiles0: map<string, map<string, Value>>)
      ensures accounts == accounts0 && session == session0 && profiles == profiles0
    {
      accounts, session, profiles := accounts0, session0, profiles0;
    }

    /**
     * `signUp`: create the account (the provider signs the new user in),
     * then write the profile. A write that raises leaves an account without
     * a profile.
     */
    method SignUp(req: SignUpRequest, create: AuthCall, write: StoreCall, now: int) returns (r: AuthResult)
      modifies this
      ensures create.Raised? ==> r == Error(create.message.GetOr("Unknown signup error")) && unchanged(this)
      ensures create == Answered(None) ==> r == Error("User creation failed") && unchanged(this)
      ensures create.Answered? && create.uid.Some? ==>
        var uid := create.uid.value;
        var u := NewUser(uid, req, now);
        && accounts == old(accounts) + {uid} && session == Some(uid)
        && (write.Done? ==> r == Success(u) && profiles == old(profiles)[uid := ToMap(u)])
        && (write.StoreRaised? ==> r == Error(write.message.GetOr("Unknown signup error"))
                                   && profiles == old(profiles))
    {
      match create
      case Raised(message) =>
        r := Error(message.GetOr("Unknown signup error"));
      case Answered(uid) =>
        if uid.None? {
          r := Error("User creation failed");
        } else {
          accounts := accounts + {uid.value};
          session := uid;
          var user := NewUser(uid.value, req, now);
          if write.Done? {
            profiles := profiles[uid.value := ToMap(user)];
            r := Success(user);
          } else {
            r := Error(write.message.GetOr("Unknown signup error"));
          }
        }
    }

    /**
     * `signIn`: the provider checks the credentials and signs the user in;
     * then the profile is read and decoded. `decodeMessage` is the message
     * of the exception a mistyped field raises.
     */
    method SignIn(req: LoginRequest, login: AuthCall, read: StoreCall, decodeMessage: Option<string>, now: int)
      returns (r: AuthResult)
      modifies this`session
      ensures login.Raised? ==> r == Error(login.message.GetOr("Login error")) && session == old(session)
      ensures login == Answered(None) ==> r == Error("Firebase auth failed") && session == old(session)
      ensures login.Answered? && login.uid.Some? ==>
        var uid := login.uid.value;
        && session == Some(uid)
        && (read.StoreRaised? ==> r == Error(read.message.GetOr("Login error")))
        && (read.Done? && uid !in profiles ==> r == Error("User data not found in Firestore"))
        && (read.Done? && uid in profiles ==>
              r == match DecodeUser(profiles[uid], now)
                   case Some(u) => Success(u)
                   case None => Error(decodeMessage.GetOr("Login error")))
    {
      match login
      case Raised(message) =>
        r := Error(message.GetOr("Login error"));
      case Answered(uid) =>
        if uid.None? {
          r := Error("Firebase auth failed");
        } else {
          session := uid;
          if read.StoreRaised? {
            r := Error(read.message.GetOr("Login error"));
          } else if uid.value !in profiles {
            r := Error("User data not found in Firestore");
          } else {
            var u := DecodeUser(profiles[uid.value], now);
            r := if u.Some? then Success(u.value) else Error(decodeMessage.GetOr("Login error"));
          }
        }
    }

    /** `signOut`: true and no session, or false and nothing changed. */
    method SignOut(raises: bool) returns (ok: bool)
      modifies this`session
      ensures ok == !raises
      ensures ok ==> session == None
      ensures !ok ==> session == old(session)
    {
      if !raises {
        session := None;
      }
      ok := !raises;
    }

    /** `getCurrentUserData`: null without a session, a document, or a decodable one. */
    method GetCurrentUserData(read: StoreCall, now: int) returns (u: Option<User>)
      ensures u == CurrentUserData(read, now)
    {
      if session.None? || read.StoreRaised? || session.value !in profiles {
        u := None;
      } else {
        u := DecodeUser(profiles[session.value], now);
      }
    }

    /** What `getCurrentUserData` returns in the current state. */
    function CurrentUserData(read: StoreCall, now: int): (u: Option<User>)
      reads this
      ensures u.Some? <==> session.Some? && read.Done? && session.value in profiles
                           && DecodeUser(profiles[session.value], now).Some?
      ensures u.Some? ==> u == DecodeUser(profiles[session.value], now)
    {
      if session.None? || read.StoreRaised? || session.value !in profiles then None
      else DecodeUser(profiles[session.value], now)
    }

    /** `updateUserData`: overwrite the whole document with `updatedAt` set to now. */
    method UpdateUserData(user: User, write: StoreCall, now: int) returns (ok: bool)
      modifies this`profiles
      ensures ok == write.Done?
      ensures ok ==> profiles == old(profiles)[user.uid := ToMap(user.(updatedAt := Some(now)))]
      ensures !ok ==> profiles == old(profiles)
    {
      ok := write.Done?;
      if ok {
        profiles := profiles[user.uid := ToMap(user.(updatedAt := Some(now)))];
      }
    }

    /** `isUserSignedIn`: without a session no user data can be read, whatever the store answers. */
    function IsUserSignedIn(): (signedIn: bool)
      reads this
      ensures !signedIn ==> forall read: StoreCall, now: int :: CurrentUserData(read, now).None?
    {
      session.Some?
    }
  }

  /** An update is read back as the user passed in, stamped with the update time. */
  lemma UpdateReadsBack(user: User, now: int, later: int)
    requires user.createdAt.Some?
    ensures DecodeUser(ToMap(user.(updatedAt := Some(now))), later) == Some(user.(updatedAt := Some(now)))
  {
    DecodeToMapStamped(user.(updatedAt := Some(now)), later);
  }
}
