// EcoScope/app/src/main/java/com/himanshu/ecoscope/user.kt: the user
// profile, its Firestore map, the three authentication states and the two
// request records. A `java.util.Date` is its instant in milliseconds.

module UserModel {
  import opened Wrappers

  datatype User = User(
    uid: string,
    firstName: string,
    lastName: string,
    email: string,
    phoneNumber: string,
    preferredLanguage: string,
    createdAt: Option<int>,
    updatedAt: Option<int>)

  /** `User()`: every text empty except the language, no timestamps. */
  const DefaultUser := User("", "", "", "", "", "English", None, None)

  /** A value of a Firestore document field. */
  datatype Value = Str(s: string) | Time(t: int) | Null

  /** The eight keys `toMap` writes. */
  const UserKeys: set<string> :=
    {"uid", "firstName", "lastName", "email", "phoneNumber", "preferredLanguage", "createdAt", "updatedAt"}

  function TimeValue(t: Option<int>): (v: Value)
    ensures t.Some? ==> v == Time(t.value)
    ensures t.None? ==> v == Null
  {
    if t.Some? then Time(t.value) else Null
  }

  /** `User.toMap`. */
  function ToMap(u: User): (m: map<string, Value>)
    ensures m.Keys == UserKeys
    ensures m["uid"] == Str(u.uid) && m["firstName"] == Str(u.firstName) && m["lastName"] == Str(u.lastName)
    ensures m["email"] == Str(u.email) && m["phoneNumber"] == Str(u.phoneNumber)
    ensures m["preferredLanguage"] == Str(u.preferredLanguage)
    ensures m["createdAt"] == TimeValue(u.createdAt) && m["updatedAt"] == TimeValue(u.updatedAt)
  {
    map["uid" := Str(u.uid), "firstName" := Str(u.firstName), "lastName" := Str(u.lastName),
        "email" := Str(u.email), "phoneNumber" := Str(u.phoneNumber),
        "preferredLanguage" := Str(u.preferredLanguage),
        "createdAt" := TimeValue(u.createdAt), "updatedAt" := TimeValue(u.updatedAt)]
  }

  /** Two users with the same map are the same user: `toMap` loses nothing. */
  lemma ToMapInjective(u1: User, u2: User)
    requires ToMap(u1) == ToMap(u2)
    ensures u1 == u2
  {
    assert ToMap(u1)["uid"] == ToMap(u2)["uid"];
    assert ToMap(u1)["createdAt"] == ToMap(u2)["createdAt"];
    assert ToMap(u1)["updatedAt"] == ToMap(u2)["updatedAt"];
  }

  datatype AuthResult = Success(user: User) | Error(message: string) | Loading

  datatype SignUpRequest = SignUpRequest(
    firstName: string,
    lastName: string,
    email: string,
    phoneNumber: string,
    preferredLanguage: string,
    password: string)

  datatype LoginRequest = LoginRequest(email: string, password: string)
}
