// EcoScope_Frontend/app/src/main/java/com/mansi/ecoscope_frontend/SosViewModel.kt:
// the SOS text and the SMS intents `sendSOS` starts. The last known
// location is the parameter `location`, Kotlin's `Double.toString` the
// parameter `show`, and `fails(n)` says that starting the intent for `n`
// throws.

module SosIntents {
  import opened Wrappers
  import opened Strings

  datatype Position = Position(latitude: real, longitude: real)

  const Lead := "\U{1F6A8} SOS! I need help. "
  const LocationLead := "My location: "
  const Unavailable := "Location unavailable."
  const MapsPrefix := "https://maps.google.com/?q="

  /** The map link to a position: "lat,lon" after the query prefix. */
  function MapsUrl(p: Position, show: real -> string): (url: string)
    ensures StartsWith(url, MapsPrefix) && url[|MapsPrefix|..] == show(p.latitude) + "," + show(p.longitude)
  {
    var coordinates := show(p.latitude) + "," + show(p.longitude);
    PrefixOfConcat(MapsPrefix, coordinates);
    MapsPrefix + coordinates
  }

  /** The part of the text after the lead when the location is known. */
  function Located(p: Position, show: real -> string): (t: string)
    ensures EndsWith(t, MapsUrl(p, show))
  {
    PrefixOfConcat(LocationLead, MapsUrl(p, show));
    LocationLead + MapsUrl(p, show)
  }

  /** The SMS body; the time of the alert is not part of it. */
  function SosText(location: Option<Position>, show: real -> string): (m: string)
    ensures StartsWith(m, Lead)
    ensures location.Some? ==> EndsWith(m, MapsUrl(location.value, show))
    ensures location.None? ==> EndsWith(m, Unavailable)
  {
    match location
    case Some(p) =>
      var tail := Located(p, show);
      PrefixOfConcat(Lead, tail);
      EndsWithExtend(Lead, tail, MapsUrl(p, show));
      Lead + tail
    case None =>
      PrefixOfConcat(Lead, Unavailable);
      Lead + Unavailable
  }

  /** The text carries a map link exactly when a location is known. */
  lemma SosTextLinksIffLocated(location: Option<Position>, show: real -> string)
    ensures Contains(SosText(location, show), MapsPrefix) <==> location.Some?
  {
    match location
    case Some(p) =>
      var m := SosText(location, show);
      assert m == (Lead + LocationLead) + MapsPrefix + (show(p.latitude) + "," + show(p.longitude));
      ContainsMiddle(Lead + LocationLead, MapsPrefix, show(p.latitude) + "," + show(p.longitude));
    case None =>
      assert MapsPrefix[6] == '/';
      NotContainsMissingChar(Lead + Unavailable, MapsPrefix, '/');
  }

  /** An SMS intent: the `smsto:` target and the `sms_body` extra. */
  datatype SmsIntent = SmsIntent(number: string, body: string) {
    function Uri(): string {
      "smsto:" + number
    }
  }

  function FailureToast(number: string): string {
    "❌ Failed to send SMS to " + number
  }

  /** The intents started and the toasts shown for a list of numbers. */
  datatype Outcome = Outcome(sent: seq<SmsIntent>, toasts: seq<string>)

  /** What `forEach` over the numbers does: blanks are skipped, a failure only toasts. */
  function Dispatch(contacts: seq<string>, body: string, fails: string -> bool): (d: Outcome)
    ensures |d.sent| + |d.toasts| <= |contacts|
    decreases |contacts|
  {
    if contacts == [] then Outcome([], [])
    else
      var before := Dispatch(contacts[..|contacts| - 1], body, fails);
      var n := contacts[|contacts| - 1];
      if IsBlank(n) then before
      else if fails(n) then Outcome(before.sent, before.toasts + [FailureToast(n)])
      else Outcome(before.sent + [SmsIntent(n, body)], before.toasts)
  }

  /** The non-blank numbers, in order. */
  function NonBlank(contacts: seq<string>): (r: seq<string>)
    ensures forall n :: n in r <==> n in contacts && !IsBlank(n)
    decreases |contacts|
  {
    if contacts == [] then []
    else
      var n := contacts[|contacts| - 1];
      assert contacts == contacts[..|contacts| - 1] + [n];
      NonBlank(contacts[..|contacts| - 1]) + (if IsBlank(n) then [] else [n])
  }

  /** Exactly one attempt per non-blank number: each is either sent or toasted. */
  lemma {:induction false} DispatchAttempts(contacts: seq<string>, body: string, fails: string -> bool)
    ensures |Dispatch(contacts, body, fails).sent| + |Dispatch(contacts, body, fails).toasts| == |NonBlank(contacts)|
    decreases |contacts|
  {
    if contacts != [] {
      DispatchAttempts(contacts[..|contacts| - 1], body, fails);
    }
  }

  /** Every intent in `sent` carries `body` and targets a non-blank number of `contacts` that did not fail. */
  predicate WellTargeted(sent: seq<SmsIntent>, contacts: seq<string>, body: string, fails: string -> bool) {
    forall k | 0 <= k < |sent| :: sent[k].body == body && sent[k].number in contacts
                                  && !IsBlank(sent[k].number) && !fails(sent[k].number)
  }

  /** Every intent carries the same body and targets a non-blank number of the list that did not fail. */
  lemma {:induction false} DispatchTargets(contacts: seq<string>, body: string, fails: string -> bool)
    ensures WellTargeted(Dispatch(contacts, body, fails).sent, contacts, body, fails)
    decreases |contacts|
  {
    if contacts != [] {
      var init := contacts[..|contacts| - 1];
      var before, n := Dispatch(init, body, fails), contacts[|contacts| - 1];
      DispatchTargets(init, body, fails);
      assert forall m :: m in init ==> m in contacts;
      assert n in contacts;
      var sent := Dispatch(contacts, body, fails).sent;
      if !IsBlank(n) && !fails(n) {
        assert sent == before.sent + [SmsIntent(n, body)];
      } else {
        assert sent == before.sent;
      }
    }
  }

  /** A failure for one number does not stop the others: the outcome of a list is the outcomes of its parts. */
  lemma {:induction false} DispatchAppend(a: seq<string>, b: seq<string>, body: string, fails: string -> bool)
    ensures var da, db := Dispatch(a, body, fails), Dispatch(b, body, fails);
      Dispatch(a + b, body, fails) == Outcome(da.sent + db.sent, da.toasts + db.toasts)
    decreases |b|
  {
    if b == [] {
      assert a + b == a;
    } else {
      var init := b[..|b| - 1];
      DispatchAppend(a, init, body, fails);
      assert (a + b)[..|a + b| - 1] == a + init;
      assert (a + b)[|a + b| - 1] == b[|b| - 1];
    }
  }

  /** When nothing fails, the intents are the non-blank numbers in order, and no toast is shown. */
  lemma {:induction false} DispatchAllStarted(contacts: seq<string>, body: string, fails: string -> bool)
    requires forall n :: n in contacts ==> !fails(n)
    ensures var d, nb := Dispatch(contacts, body, fails), NonBlank(contacts);
      d.toasts == [] && |d.sent| == |nb| && forall k | 0 <= k < |nb| :: d.sent[k] == SmsIntent(nb[k], body)
    decreases |contacts|
  {
    if contacts != [] {
      var init := contacts[..|contacts| - 1];
      assert forall n :: n in init ==> n in contacts;
      DispatchAllStarted(init, body, fails);
    }
  }

  /**
   * `sendSOS` once the location is known: one pass over the numbers.
   * `timeStamp` is the formatted time the source computes and never uses.
   */
  method SendSos(contacts: seq<string>, location: Option<Position>, timeStamp: string,
                 show: real -> string, fails: string -> bool) returns (sent: seq<SmsIntent>, toasts: seq<string>)
    ensures Outcome(sent, toasts) == Dispatch(contacts, SosText(location, show), fails)
  {
    var message := SosText(location, show);
    sent, toasts := [], [];
    var i := 0;
    while i < |contacts|
      invariant 0 <= i <= |contacts|
      invariant Outcome(sent, toasts) == Dispatch(contacts[..i], message, fails)
    {
      var phoneNumber := contacts[i];
      assert contacts[..i + 1][..i] == contacts[..i];
      if !IsBlank(phoneNumber) {
        if fails(phoneNumber) {
          toasts := toasts + [FailureToast(phoneNumber)];
        } else {
          sent := sent + [SmsIntent(phoneNumber, message)];
        }
      }
      i := i + 1;
    }
    assert contacts[..i] == contacts;
  }
}
