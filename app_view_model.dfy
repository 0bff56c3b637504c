// EcoScope_Frontend/app/src/main/java/com/mansi/ecoscope_frontend/ui/viewmodel/AppViewModel.kt:
// the Frontend app's main view-model. Its flows are fields; the values it
// stores with `PrefsManager` are the `prefs…` fields; the network, the
// profile read and the location are parameters. Each launched coroutine or
// listener runs to completion inside its method.

module FrontendAppVm {
  import opened Wrappers
  import opened Strings
  import opened AnalyzeApi
  import opened FrontendApi
  import SosIntents

  /** What the profile read of `loadUsername` did: a document's `name` (maybe null), or a failure. */
  datatype NameRead = Loaded(name: Option<string>) | ReadFailed

  const DefaultUsername := "User"

  /** The name `loadUsername` settles on, and whether it is saved to the preferences. */
  function LoadedName(uid: Option<string>, read: NameRead, prefsName: string): (r: (string, bool))
    ensures r.1 <==> uid.Some? && !IsBlank(uid.value) && read.Loaded? && read.name.Some?
                     && !IsBlank(read.name.value)
    ensures r.1 ==> r.0 == read.name.value
    ensures !r.1 ==> r.0 == prefsName
  {
    if uid.None? || IsBlank(uid.value) then (prefsName, false)
    else match read
      case Loaded(Some(name)) => if !IsBlank(name) then (name, true) else (prefsName, false)
      case _ => (prefsName, false)
  }

  class AppViewModel {
    var result: Option<AnalyzeResponse>
    var isLoading: bool
    var error: Option<string>
    /** The chatbot messages, by their text. */
    var chatbotMessages: seq<string>
    var weather: Option<WeatherResponse>
    var weatherLoading: bool
    var weatherError: Option<string>
    var isDarkMode: bool
    var isHindi: bool
    var username: string
    var prefsUsername: string
    var prefsDarkMode: bool
    var prefsHindi: bool

    constructor (prefsUsername0: string, prefsDarkMode0: bool, prefsHindi0: bool)
      ensures result == None && !isLoading && error == None && chatbotMessages == []
      ensures weather == None && !weatherLoading && weatherError == None
      ensures !isDarkMode && !isHindi && username == DefaultUsername
      ensures prefsUsername == prefsUsername0 && prefsDarkMode == prefsDarkMode0 && prefsHindi == prefsHindi0
    {
      result, isLoading, error, chatbotMessages := None, false, None, [];
      weather, weatherLoading, weatherError := None, false, None;
      isDarkMode, isHindi, username := false, false, DefaultUsername;
      prefsUsername, prefsDarkMode, prefsHindi := prefsUsername0, prefsDarkMode0, prefsHindi0;
    }

    /** `analyze`: as the analysis view-models, over `result`, `isLoading` and `error`. */
    method Analyze(lat: real, lon: real, before: string, after: string,
                   api: AnalyzeRequest -> Fetch<AnalyzeResponse>) returns (sent: AnalyzeRequest)
      modifies this`result, this`isLoading, this`error
      ensures sent == AnalyzeRequest(lat, lon, before, after)
      ensures !isLoading
      ensures api(sent).Returned? ==> result == Some(api(sent).value) && error == None
      ensures api(sent).Threw? ==> result == old(result) && error == api(sent).message
    {
      isLoading := true;
      error := None;
      sent := AnalyzeRequest(lat, lon, before, after);
      var reply := api(sent);
      if reply.Returned? {
        result := Some(reply.value);
      } else {
        error := reply.message;
      }
      isLoading := false;
    }

    /** `fetchWeather`: the same discipline over `weather`, `weatherLoading` and `weatherError`. */
    method FetchWeather(lat: real, lon: real, apiKey: string,
                        api: WeatherQuery -> Fetch<WeatherResponse>) returns (sent: WeatherQuery)
      modifies this`weather, this`weatherLoading, this`weatherError
      ensures sent == WeatherQuery(lat, lon, apiKey, DefaultUnits)
      ensures !weatherLoading
      ensures api(sent).Returned? ==> weather == Some(api(sent).value) && weatherError == None
      ensures api(sent).Threw? ==> weather == old(weather) && weatherError == api(sent).message
    {
      weatherLoading := true;
      weatherError := None;
      sent := WeatherQuery(lat, lon, apiKey, DefaultUnits);
      var reply := api(sent);
      if reply.Returned? {
        weather := Some(reply.value);
      } else {
        weatherError := reply.message;
      }
      weatherLoading := false;
    }

    /** `setUsername`: saved to the preferences only when a context is given. */
    method SetUsername(name: string, withContext: bool)
      modifies this`username, this`prefsUsername
      ensures username == name
      ensures prefsUsername == if withContext then name else old(prefsUsername)
    {
      username := name;
      if withContext {
        prefsUsername := name;
      }
    }

    /**
     * `loadUsername`: without a uid, or when the profile has no usable
     * name or cannot be read, the name saved in the preferences; otherwise
     * the profile's name, which is also saved.
     */
    method LoadUsername(uid: Option<string>, read: NameRead)
      modifies this`username, this`prefsUsername
      ensures var (name, save) := LoadedName(uid, read, old(prefsUsername));
        username == name && prefsUsername == name
    {
      var (name, save) := LoadedName(uid, read, prefsUsername);
      username := name;
      if save {
        prefsUsername := name;
      }
    }

    method ClearChatbotMessages()
      modifies this`chatbotMessages
      ensures chatbotMessages == []
    {
      chatbotMessages := [];
    }

    /** `logout`: the name goes back to "User". */
    method Logout()
      modifies this`username
      ensures username == DefaultUsername
    {
      username := DefaultUsername;
    }

    /** `toggleTheme`: the mode flips and the new value is saved. */
    method ToggleTheme()
      modifies this`isDarkMode, this`prefsDarkMode
      ensures isDarkMode == !old(isDarkMode) && prefsDarkMode == isDarkMode
    {
      var newDark := !isDarkMode;
      isDarkMode := newDark;
      prefsDarkMode := newDark;
    }

    method ToggleLanguage(isHindiSelected: bool)
      modifies this`isHindi, this`prefsHindi
      ensures isHindi == isHindiSelected && prefsHindi == isHindiSelected
    {
      isHindi := isHindiSelected;
      prefsHindi := isHindiSelected;
    }

    /** `sendSOS`: the same text and the same pass over the numbers as the SOS view-model. */
    method SendSos(contacts: seq<string>, location: Option<SosIntents.Position>, timeStamp: string,
                   show: real -> string, fails: string -> bool)
      returns (sent: seq<SosIntents.SmsIntent>, toasts: seq<string>)
      ensures SosIntents.Outcome(sent, toasts)
           == SosIntents.Dispatch(contacts, SosIntents.SosText(location, show), fails)
    {
      sent, toasts := SosIntents.SendSos(contacts, location, timeStamp, show, fails);
    }
  }
}
