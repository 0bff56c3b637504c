// EcoScope_Frontend/app/src/main/java/com/mansi/ecoscope_frontend/ui/screens/HomeScreen.kt:
// the Frontend dashboard. The one class `Dashboard` gathers the state of three
// composables of that file: the saved-contacts list of `GeoEyeDashboardScreen`
// with its one-contact limit, `WeatherMonitoringSection`, and the coordinates,
// dates and result text of `MapAndDatePickerSection`; in the app each keeps
// its own `remember` state. `PrefsManager.saveContacts` is the field
// `persisted`; the picked contact, `toDoubleOrNull` (`parse`) and the network
// are parameters.

module FrontendDashboard {
  import opened Wrappers
  import opened Strings
  import opened ContactList
  import opened FrontendApi
  import Display
  import FirebaseHelper
  import FrontendAppVm

  const Rejected := "Contact already added or max limit reached"

  /** Some saved contact has this number. */
  predicate HasNumber(saved: seq<ContactData>, number: string) {
    exists i :: 0 <= i < |saved| && saved[i].number == number
  }

  /** A picked contact is taken only when its number is new and the list is still empty. */
  predicate Accepts(saved: seq<ContactData>, c: ContactData)
    ensures Accepts(saved, c) ==> saved == []
  {
    !HasNumber(saved, c.number) && |saved| < 1
  }

  /** The list can hold at most one contact, so a second pick is always refused. */
  lemma SecondPickRefused(saved: seq<ContactData>, c: ContactData)
    requires saved != []
    ensures !Accepts(saved, c)
  {
  }

  /** A number already saved is refused whatever the list's size. */
  lemma DuplicateRefused(saved: seq<ContactData>, c: ContactData, i: nat)
    requires i < |saved| && saved[i].number == c.number
    ensures !Accepts(saved, c)
  {
  }

  /** The weather is fetched on entry only when there is none and none is loading. */
  function ShouldFetchWeather(weather: Option<WeatherResponse>, loading: bool): (fetch: bool)
    ensures fetch <==> weather.None? && !loading
  {
    weather.None? && !loading
  }

  /** The Condition card: the first condition's `main`, or "-" when the list is empty. */
  function ConditionText(w: WeatherResponse): (text: string)
    ensures w.weather != [] ==> text == w.weather[0].main
    ensures w.weather == [] ==> text == "-"
  {
    if w.weather != [] then w.weather[0].main else "-"
  }

  /** What the weather section shows; the placeholder is four "-" cards. */
  function WeatherPanel(vm: FrontendAppVm.AppViewModel): (s: Display.Shown<WeatherResponse>)
    reads vm
    ensures s == Display.Precedence(vm.weatherLoading, vm.weatherError, vm.weather)
  {
    Display.Precedence(vm.weatherLoading, vm.weatherError, vm.weather)
  }

  const DefaultLat := 28.7041
  const DefaultLon := 77.1025

  /** The reply of the map section's backend call. */
  datatype HttpReply = Response(body: Option<string>) | IoFailure(localizedMessage: Option<string>)

  /** The map section's result text; a null message prints as "null" in the template. */
  function ResultText(reply: HttpReply): (text: string)
    ensures reply.Response? ==> text == reply.body.GetOr("No response")
    ensures reply.IoFailure? ==> StartsWith(text, "Error: ")
  {
    match reply
    case Response(body) => body.GetOr("No response")
    case IoFailure(message) =>
      PrefixOfConcat("Error: ", message.GetOr("null"));
      "Error: " + message.GetOr("null")
  }

  class Dashboard {
    var userFirstName: string
    var savedContacts: seq<ContactData>
    /** The list last written with `PrefsManager.saveContacts`. */
    var persisted: seq<string>
    var lat: real
    var lon: real
    var showMapPicker: bool
    var startDate: string
    var endDate: string
    var resultText: string

    /** At most one contact is ever saved. */
    predicate Valid()
      reads this
    {
      |savedContacts| <= 1
    }

    /** "Add Contact" is offered only while the list is empty (`size < 1`). */
    function AddButtonShown(): (shown: bool)
      reads this
      ensures shown <==> savedContacts == []
    {
      |savedContacts| < 1
    }

    /** `resultText.isNotBlank()`: the result line under the button is drawn. */
    function ResultShown(): (shown: bool)
      reads this
      ensures shown <==> TrimStart(resultText) != []
    {
      BlankIffTrimStartEmpty(resultText);
      !IsBlank(resultText)
    }

    constructor (persisted0: seq<string>)
      ensures Valid()
      ensures userFirstName == "User" && savedContacts == [] && persisted == persisted0
      ensures lat == DefaultLat && lon == DefaultLon && !showMapPicker
      ensures startDate == "" && endDate == "" && resultText == ""
      ensures AddButtonShown() && !ResultShown()
    {
      userFirstName, savedContacts, persisted := "User", [], persisted0;
      lat, lon, showMapPicker := DefaultLat, DefaultLon, false;
      startDate, endDate, resultText := "", "", "";
    }

    /**
     * The contact picker's callback: an accepted contact is appended, the
     * list is persisted and the contact is saved to Firestore (`added` is
     * whether the Firestore `add` succeeds); a refused one only toasts; no
     * contact changes nothing.
     */
    method OnPicked(picked: Option<ContactData>, store: FirebaseHelper.ContactStore, now: int, added: bool)
      returns (toast: Option<string>)
      requires Valid()
      modifies this`savedContacts, this`persisted, store`contacts
      ensures Valid()
      ensures picked.None? ==> toast == None && unchanged(this) && unchanged(store)
      ensures picked.Some? && Accepts(old(savedContacts), picked.value) ==>
        (toast == None && savedContacts == old(savedContacts) + [picked.value]
         && persisted == Formatted(savedContacts)
         && (store.uid.None? || !added ==> store.contacts == old(store.contacts))
         && !AddButtonShown()
         && (store.uid.Some? && added ==> store.contacts == old(store.contacts)[store.uid.value :=
               FirebaseHelper.Collection(old(store.contacts), store.uid.value)
               + [FirebaseHelper.ContactRecord(picked.value.number, picked.value.name, now)]]))
      ensures picked.Some? && !Accepts(old(savedContacts), picked.value) ==>
        toast == Some(Rejected) && unchanged(this) && unchanged(store)
    {
      if picked.None? {
        return None;
      }
      var c := picked.value;
      if Accepts(savedContacts, c) {
        savedContacts := savedContacts + [c];
        persisted := Formatted(savedContacts);
        store.SaveContact(c.number, Some(c.name), now, added);
        toast := None;
      } else {
        toast := Some(Rejected);
      }
    }

    /** The delete icon: the contact goes and the rest is persisted; the Firestore copy stays. */
    method Delete(contact: ContactData)
      requires Valid()
      modifies this`savedContacts, this`persisted
      ensures Valid()
      ensures savedContacts == RemoveFirst(old(savedContacts), contact)
      ensures persisted == Formatted(savedContacts)
    {
      RemoveFirstContents(savedContacts, contact);
      savedContacts := RemoveFirst(savedContacts, contact);
      persisted := Formatted(savedContacts);
    }

    /** The launched profile read: without a signed-in user the name stays. */
    method LoadFirstName(uid: Option<string>, firstName: Option<string>)
      modifies this`userFirstName
      ensures uid.None? ==> userFirstName == old(userFirstName)
      ensures uid.Some? ==> userFirstName == firstName.GetOr("User")
    {
      if uid.Some? {
        userFirstName := firstName.GetOr("User");
      }
    }

    /** Typing a latitude: text that does not parse keeps the previous value. */
    method EditLat(text: string, parse: string -> Option<real>)
      modifies this`lat
      ensures parse(text).Some? ==> lat == parse(text).value
      ensures parse(text).None? ==> lat == old(lat)
    {
      lat := parse(text).GetOr(lat);
    }

    /** Typing a longitude, the same way. */
    method EditLon(text: string, parse: string -> Option<real>)
      modifies this`lon
      ensures parse(text).Some? ==> lon == parse(text).value
      ensures parse(text).None? ==> lon == old(lon)
    {
      lon := parse(text).GetOr(lon);
    }

    /** A location picked on the map replaces both coordinates and closes the picker. */
    method PickLocation(latitude: real, longitude: real)
      modifies this`lat, this`lon, this`showMapPicker
      ensures lat == latitude && lon == longitude && !showMapPicker
    {
      lat, lon, showMapPicker := latitude, longitude, false;
    }

    /** The backend call's outcome becomes the result text. */
    method OnBackendReply(reply: HttpReply)
      modifies this`resultText
      ensures resultText == ResultText(reply)
      ensures reply.IoFailure? || reply.body.None? ==> ResultShown()
      ensures reply.Response? && reply.body.Some? ==> (ResultShown() <==> !IsBlank(reply.body.value))
    {
      resultText := ResultText(reply);
    }
  }

  /** The weather section's entry effect: a fetch for the default coordinates, or nothing. */
  method WeatherOnEntry(vm: FrontendAppVm.AppViewModel, apiKey: string,
                        api: WeatherQuery -> Fetch<WeatherResponse>) returns (fetched: bool)
    modifies vm`weather, vm`weatherLoading, vm`weatherError
    ensures fetched == ShouldFetchWeather(old(vm.weather), old(vm.weatherLoading))
    ensures !fetched ==> unchanged(vm)
    ensures fetched ==> var q := WeatherQuery(DefaultLat, DefaultLon, apiKey, DefaultUnits);
      && !vm.weatherLoading
      && (api(q).Returned? ==> vm.weather == Some(api(q).value) && vm.weatherError == None)
      && (api(q).Threw? ==> vm.weather == None && vm.weatherError == api(q).message)
  {
    fetched := ShouldFetchWeather(vm.weather, vm.weatherLoading);
    if fetched {
      var sent := vm.FetchWeather(DefaultLat, DefaultLon, apiKey, api);
    }
  }
}
