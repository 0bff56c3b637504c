// backend/sos_service.py: the emergency-contact registry, the SOS alert that
// texts every contact and names one emergency service, the SMS text, and the
// alert history capped at the last 100 alerts. The two JSON files are kept
// in memory as fields; the clock and the SMS gateway are parameters.

module SosService {
  import opened Wrappers
  import opened Strings

  /** One entry of `emergency_contacts["contacts"]`. */
  datatype Contact = Contact(id: int, name: string, phone: string, relationship: string, addedDate: string)

  /**
   * The `user_location` dictionary as the message prints it: the text of
   * its `latitude` and `longitude` entries, where present.
   */
  datatype Location = Location(latitude: Option<string>, longitude: Option<string>)

  /** The `alert_data` dictionary. */
  datatype Alert = Alert(alertId: string, timestamp: string, location: Location,
                         message: string, alertType: string, status: string)

  /** The dictionary `send_sos_alert` returns on its success path. */
  datatype SosResult = SosResult(success: bool, alertId: string, contactsNotified: seq<string>,
                                 servicesNotified: seq<string>, message: string)

  /** What `emergency_contacts.json` holds when the service starts. */
  datatype StoredContacts =
    | Missing
    | Stored(contacts: seq<Contact>, services: map<string, string>)
    | Unreadable

  const DefaultRelationship := "Emergency Contact"
  const HistoryCap := 100

  /** The service numbers written to a fresh contacts file. */
  const DefaultServices: map<string, string> :=
    map["police" := "100", "ambulance" := "102", "fire" := "101", "disaster_management" := "1078"]

  // ------------------------------------------------------------ contacts

  /** `add_emergency_contact` on the list: one new contact at the end, numbered by the list's length. */
  function AddContact(cs: seq<Contact>, name: string, phone: string, relationship: string, now: string)
    : (r: seq<Contact>)
    ensures |r| == |cs| + 1 && r[..|cs|] == cs
    ensures r[|cs|] == Contact(|cs| + 1, name, phone, relationship, now)
  {
    cs + [Contact(|cs| + 1, name, phone, relationship, now)]
  }

  /** The list comprehension of `remove_emergency_contact`. */
  function WithoutId(cs: seq<Contact>, id: int): (r: seq<Contact>)
    ensures |r| <= |cs|
  {
    if cs == [] then []
    else (if cs[0].id != id then [cs[0]] else []) + WithoutId(cs[1..], id)
  }

  /** Every contact carrying the id goes, every other one stays, as often as it was there. */
  lemma {:induction false} WithoutIdContents(cs: seq<Contact>, id: int)
    ensures forall c: Contact :: c in WithoutId(cs, id) ==> c in cs && c.id != id
    ensures forall c: Contact :: c.id != id ==> multiset(WithoutId(cs, id))[c] == multiset(cs)[c]
  {
    if cs != [] {
      WithoutIdContents(cs[1..], id);
      assert cs == [cs[0]] + cs[1..];
    }
  }

  /** Removal keeps the survivors' order: it works piece by piece. */
  lemma {:induction false} WithoutIdAppend(a: seq<Contact>, b: seq<Contact>, id: int)
    ensures WithoutId(a + b, id) == WithoutId(a, id) + WithoutId(b, id)
  {
    if a != [] {
      WithoutIdAppend(a[1..], b, id);
      assert (a + b)[0] == a[0] && (a + b)[1..] == a[1..] + b;
      assert WithoutId(a + b, id) == (if a[0].id != id then [a[0]] else []) + WithoutId(a[1..] + b, id);
    } else {
      assert a + b == b;
    }
  }

  /** Removing an id no contact carries changes nothing. */
  lemma {:induction false} WithoutAbsentId(cs: seq<Contact>, id: int)
    requires forall i :: 0 <= i < |cs| ==> cs[i].id != id
    ensures WithoutId(cs, id) == cs
  {
    if cs != [] {
      WithoutAbsentId(cs[1..], id);
    }
  }

  /**
   * Ids are the list length at insertion time, so they repeat after a
   * removal: add, add, remove 1, add leaves two contacts numbered 2, and
   * removing 2 then deletes both.
   */
  lemma IdCollision(n1: string, p1: string, n2: string, p2: string, n3: string, p3: string,
                    rel: string, t1: string, t2: string, t3: string)
    ensures var cs := AddContact(WithoutId(AddContact(AddContact([], n1, p1, rel, t1), n2, p2, rel, t2), 1),
                                 n3, p3, rel, t3);
      && cs == [Contact(2, n2, p2, rel, t2), Contact(2, n3, p3, rel, t3)]
      && WithoutId(cs, 2) == []
  {
    var two := AddContact(AddContact([], n1, p1, rel, t1), n2, p2, rel, t2);
    assert two == [Contact(1, n1, p1, rel, t1), Contact(2, n2, p2, rel, t2)];
    assert WithoutId(two, 1) == [Contact(2, n2, p2, rel, t2)];
  }

  // -------------------------------------------------------------- alerts

  /** The service listed for an alert type. */
  function ServiceFor(alertType: string): (s: string)
    ensures s in DefaultServices
  {
    if alertType == "medical" then "ambulance"
    else if alertType == "fire" then "fire"
    else if alertType == "crime" then "police"
    else "disaster_management"
  }

  /** Medical, fire and crime alerts go to their service, every other type to disaster management. */
  lemma ServiceCases(alertType: string)
    ensures ServiceFor(alertType) == "ambulance" <==> alertType == "medical"
    ensures ServiceFor(alertType) == "fire" <==> alertType == "fire"
    ensures ServiceFor(alertType) == "police" <==> alertType == "crime"
    ensures ServiceFor(alertType) == "disaster_management"
        <==> alertType != "medical" && alertType != "fire" && alertType != "crime"
  {
  }

  /**
   * The names, in contact order, of the contacts whose SMS went out; an SMS
   * goes out only with a configured gateway that accepts the message.
   */
  function Notified(cs: seq<Contact>, configured: bool, delivered: (string, string) -> bool, body: string)
    : (names: seq<string>)
    ensures |names| <= |cs|
  {
    if cs == [] then []
    else
      var last := cs[|cs| - 1];
      Notified(cs[..|cs| - 1], configured, delivered, body)
        + (if configured && delivered(last.phone, body) then [last.name] else [])
  }

  /** Without a gateway nobody is notified. */
  lemma {:induction false} NoGatewayNoneNotified(cs: seq<Contact>, delivered: (string, string) -> bool, body: string)
    ensures Notified(cs, false, delivered, body) == []
  {
    if cs != [] {
      NoGatewayNoneNotified(cs[..|cs| - 1], delivered, body);
    }
  }

  /** Notification works contact by contact, keeping their order. */
  lemma {:induction false} NotifiedAppend(a: seq<Contact>, b: seq<Contact>, configured: bool,
                                          delivered: (string, string) -> bool, body: string)
    ensures Notified(a + b, configured, delivered, body)
         == Notified(a, configured, delivered, body) + Notified(b, configured, delivered, body)
    decreases |b|
  {
    if b != [] {
      var last := b[|b| - 1];
      assert (a + b)[..|a + b| - 1] == a + b[..|b| - 1] && (a + b)[|a + b| - 1] == last;
      NotifiedAppend(a, b[..|b| - 1], configured, delivered, body);
    } else {
      assert a + b == a;
    }
  }

  /** Every notified name belongs to a contact whose SMS went out. */
  lemma {:induction false} NotifiedAreDelivered(cs: seq<Contact>, configured: bool,
                                                delivered: (string, string) -> bool, body: string)
    ensures forall n :: n in Notified(cs, configured, delivered, body) ==>
      exists i :: 0 <= i < |cs| && cs[i].name == n && configured && delivered(cs[i].phone, body)
  {
    if cs != [] {
      var init := cs[..|cs| - 1];
      NotifiedAreDelivered(init, configured, delivered, body);
      forall n | n in Notified(cs, configured, delivered, body)
        ensures exists i :: 0 <= i < |cs| && cs[i].name == n && configured && delivered(cs[i].phone, body)
      {
        if n in Notified(init, configured, delivered, body) {
          var i :| 0 <= i < |init| && init[i].name == n && configured && delivered(init[i].phone, body);
          assert cs[i] == init[i];
        }
      }
    }
  }

  /** When every SMS goes out, every contact is named, in order. */
  lemma {:induction false} AllDelivered(cs: seq<Contact>, delivered: (string, string) -> bool, body: string)
    requires forall i :: 0 <= i < |cs| ==> delivered(cs[i].phone, body)
    ensures Notified(cs, true, delivered, body) == seq(|cs|, i requires 0 <= i < |cs| => cs[i].name)
  {
    if cs != [] {
      AllDelivered(cs[..|cs| - 1], delivered, body);
    }
  }

  const Siren := "\U{1F6A8}"
  const SosHead := Siren + " SOS ALERT " + Siren
  const DefaultAlertText := "Emergency assistance needed!"
  const SosFooter := "This is an automated SOS alert from EcoScope AI.\nPlease respond immediately."

  /** The free text of the SMS: the user's message, or the stock sentence when it is empty. */
  function AlertText(message: string): (t: string)
    ensures message == [] ==> t == DefaultAlertText
    ensures message != [] ==> t == message
  {
    if message == [] then DefaultAlertText else message
  }

  /** The location and time lines, each coordinate "N/A" where the dictionary lacks it. */
  function WhereAndWhen(alert: Alert): string {
    "\n\nLocation: " + alert.location.latitude.GetOr("N/A") + ", " + alert.location.longitude.GetOr("N/A")
      + "\nTime: " + alert.timestamp
  }

  /** The type line, upper-cased. */
  function TypeLine(alertType: string): string {
    "\nType: " + Upper(alertType) + "\n"
  }

  /** The free text on a line of its own. */
  function TextLine(message: string): string {
    "\n" + AlertText(message) + "\n"
  }

  /** A text made of a head, four middle parts and a foot starts with the head and ends with the foot. */
  lemma Framed(head: string, a: string, b: string, c: string, d: string, foot: string)
    ensures StartsWith(head + a + b + c + d + foot, head)
    ensures EndsWith(head + a + b + c + d + foot, foot)
  {
    PrefixOfConcat(head + a + b + c + d, foot);
    assert head + a + b + c + d + foot == head + (a + b + c + d + foot);
    PrefixOfConcat(head, a + b + c + d + foot);
  }

  /** Such a text contains its second part. */
  lemma HasSecondPart(head: string, a: string, b: string, c: string, d: string, foot: string)
    ensures Contains(head + a + b + c + d + foot, b)
  {
    assert head + a + b + c + d + foot == (head + a) + b + (c + d + foot);
    ContainsMiddle(head + a, b, c + d + foot);
  }

  /** Such a text contains its third part. */
  lemma HasThirdPart(head: string, a: string, b: string, c: string, d: string, foot: string)
    ensures Contains(head + a + b + c + d + foot, c)
  {
    assert head + a + b + c + d + foot == (head + a + b) + c + (d + foot);
    ContainsMiddle(head + a + b, c, d + foot);
  }

  /**
   * `create_sos_message`. The template starts with the siren and ends with
   * "immediately.", so `.strip()` only removes the line breaks around it.
   * The SMS starts with the siren heading and ends with the footer.
   */
  function CreateSosMessage(alert: Alert): (m: string)
    ensures StartsWith(m, SosHead)
    ensures EndsWith(m, SosFooter)
  {
    Framed(SosHead, WhereAndWhen(alert), TypeLine(alert.alertType), TextLine(alert.message), "\n", SosFooter);
    SosHead + WhereAndWhen(alert) + TypeLine(alert.alertType) + TextLine(alert.message) + "\n" + SosFooter
  }

  /** The SMS names the alert type in upper case. */
  lemma SosMessageType(alert: Alert)
    ensures Contains(CreateSosMessage(alert), TypeLine(alert.alertType))
  {
    HasSecondPart(SosHead, WhereAndWhen(alert), TypeLine(alert.alertType), TextLine(alert.message), "\n", SosFooter);
  }

  /** The SMS carries the user's text, or the stock sentence when it is empty. */
  lemma SosMessageText(alert: Alert)
    ensures Contains(CreateSosMessage(alert), TextLine(alert.message))
    ensures alert.message == [] ==> Contains(CreateSosMessage(alert), "\n" + DefaultAlertText + "\n")
    ensures alert.message != [] ==> Contains(CreateSosMessage(alert), "\n" + alert.message + "\n")
  {
    HasThirdPart(SosHead, WhereAndWhen(alert), TypeLine(alert.alertType), TextLine(alert.message), "\n", SosFooter);
  }

  /** The last `cap` items of a list, or all of it when it is shorter. */
  function KeepLast<T>(s: seq<T>, cap: nat): (r: seq<T>)
    ensures |r| == if |s| > cap then cap else |s|
    ensures r == s[|s| - |r|..]
  {
    if |s| > cap then s[|s| - cap..] else s
  }

  /** The new history holds at most 100 alerts and ends with the new one, in order. */
  lemma {:induction false} HistoryAfterSave(history: seq<Alert>, alert: Alert)
    ensures var h := KeepLast(history + [alert], HistoryCap);
      && 1 <= |h| <= HistoryCap && h[|h| - 1] == alert
      && (|history| < HistoryCap ==> h == history + [alert])
      && (|history| >= HistoryCap ==> h == history[|history| - (HistoryCap - 1)..] + [alert])
  {
    var s := history + [alert];
    if |history| >= HistoryCap {
      assert s[|s| - HistoryCap..] == history[|history| - (HistoryCap - 1)..] + [alert];
    }
  }

  /**
   * Python's `alerts[-limit:]`: a positive limit keeps the last `limit`
   * alerts, 0 keeps them all (`-0` is 0), and a negative limit drops the
   * first `-limit`.
   */
  function HistorySlice(alerts: seq<Alert>, limit: int): (r: seq<Alert>)
    ensures |r| <= |alerts| && r == alerts[|alerts| - |r|..]
    ensures limit > 0 ==> |r| == if limit < |alerts| then limit else |alerts|
  {
    var start := -limit;
    var from := if start < 0 then (if start + |alerts| < 0 then 0 else start + |alerts|)
                else (if start > |alerts| then |alerts| else start);
    alerts[from..]
  }

  /** What the three kinds of limit return. */
  lemma HistorySliceCases(alerts: seq<Alert>, limit: int)
    ensures limit > 0 ==> HistorySlice(alerts, limit) == KeepLast(alerts, limit)
    ensures limit == 0 ==> HistorySlice(alerts, limit) == alerts
    ensures limit < 0 && -limit <= |alerts| ==> HistorySlice(alerts, limit) == alerts[-limit..]
    ensures limit < 0 && -limit > |alerts| ==> HistorySlice(alerts, limit) == []
  {
  }

  /** `send_sos_alert`'s `alert_id`: "sos_" and the whole seconds of the clock. */
  function AlertId(epochSeconds: nat): (id: string)
    ensures StartsWith(id, "sos_")
  {
    "sos_" + NatToString(epochSeconds)
  }

  // ------------------------------------------------------------- service

  class SosService {
    /** Whether both Twilio settings were present, so that a client exists. */
    const smsConfigured: bool
    /** The two lists of `emergency_contacts.json`. */
    var contacts: seq<Contact>
    var services: map<string, string>
    /** The `alerts` list of `sos_alerts_history.json` ([] while the file is missing). */
    var history: seq<Alert>

    /**
     * `__init__` and `load_emergency_contacts`: a missing file gives no
     * contacts and the default service numbers; an unreadable one gives
     * nothing at all.
     */
    constructor (configured: bool, stored: StoredContacts, storedHistory: seq<Alert>)
      ensures smsConfigured == configured && history == storedHistory
      ensures stored.Missing? ==> contacts == [] && services == DefaultServices
      ensures stored.Stored? ==> contacts == stored.contacts && services == stored.services
      ensures stored.Unreadable? ==> contacts == [] && services == map[]
    {
      smsConfigured := configured;
      history := storedHistory;
      match stored
      case Missing =>
        contacts, services := [], DefaultServices;
      case Stored(cs, sv) =>
        contacts, services := cs, sv;
      case Unreadable =>
        contacts, services := [], map[];
    }

    /**
     * `add_emergency_contact`; `now` is the clock's ISO timestamp and an
     * omitted relationship is "Emergency Contact".
     */
    method AddEmergencyContact(name: string, phone: string, relationship: Option<string>, now: string)
      returns (contact: Contact)
      modifies this`contacts
      ensures contact == Contact(|old(contacts)| + 1, name, phone, relationship.GetOr(DefaultRelationship), now)
      ensures contacts == old(contacts) + [contact]
      ensures contacts == AddContact(old(contacts), name, phone, relationship.GetOr(DefaultRelationship), now)
    {
      contact := Contact(|contacts| + 1, name, phone, relationship.GetOr(DefaultRelationship), now);
      contacts := contacts + [contact];
    }

    /** `remove_emergency_contact`. */
    method RemoveEmergencyContact(contactId: int)
      modifies this`contacts
      ensures contacts == WithoutId(old(contacts), contactId)
    {
      contacts := WithoutId(contacts, contactId);
    }

    method GetEmergencyContacts() returns (cs: seq<Contact>)
      ensures cs == contacts
    {
      cs := contacts;
    }

    method GetEmergencyServices() returns (sv: map<string, string>)
      ensures sv == services
    {
      sv := services;
    }

    /** `send_sms_alert`: false without a client, else whether the gateway sent the text. */
    function SendSmsAlert(phone: string, alert: Alert, delivered: (string, string) -> bool): (ok: bool)
      ensures ok ==> smsConfigured
      ensures ok <==> smsConfigured && delivered(phone, CreateSosMessage(alert))
    {
      smsConfigured && delivered(phone, CreateSosMessage(alert))
    }

    /** `save_alert_history`: append, then keep the last 100. */
    method SaveAlertHistory(alert: Alert)
      modifies this`history
      ensures history == KeepLast(old(history) + [alert], HistoryCap)
    {
      history := history + [alert];
      if |history| > HistoryCap {
        history := history[|history| - HistoryCap..];
      }
    }

    /** `get_alert_history(limit)`. */
    method GetAlertHistory(limit: int) returns (alerts: seq<Alert>)
      ensures alerts == HistorySlice(history, limit)
    {
      alerts := HistorySlice(history, limit);
    }

    /**
     * `send_sos_alert`: text every contact in turn, list the one service for
     * the alert type, and record the alert. `now` and `epochSeconds` are the
     * clock; `delivered` is the gateway's answer for a number and a text.
     */
    method SendSosAlert(location: Location, userMessage: string, alertType: string,
                        now: string, epochSeconds: nat, delivered: (string, string) -> bool)
      returns (result: SosResult)
      modifies this`history
      ensures var alert := Alert(AlertId(epochSeconds), now, location, userMessage, alertType, "sent");
        && result == SosResult(true, AlertId(epochSeconds),
                               Notified(contacts, smsConfigured, delivered, CreateSosMessage(alert)),
                               [ServiceFor(alertType)], "SOS alert sent successfully")
        && history == KeepLast(old(history) + [alert], HistoryCap)
    {
      var alert := Alert(AlertId(epochSeconds), now, location, userMessage, alertType, "sent");
      ghost var body := CreateSosMessage(alert);
      var notified: seq<string> := [];
      var i := 0;
      while i < |contacts|
        invariant 0 <= i <= |contacts|
        invariant notified == Notified(contacts[..i], smsConfigured, delivered, body)
      {
        assert contacts[..i + 1][..i] == contacts[..i];
        if SendSmsAlert(contacts[i].phone, alert, delivered) {
          notified := notified + [contacts[i].name];
        }
        i := i + 1;
      }
      assert contacts[..i] == contacts;
      SaveAlertHistory(alert);
      result := SosResult(true, alert.alertId, notified, [ServiceFor(alertType)], "SOS alert sent successfully");
    }
  }
}
