// EcoScope_Frontend/app/src/main/java/com/mansi/ecoscope_frontend/ui/screens/RoadScreen.kt:
// the road-network screen: four inputs, the analyze button, the map picker,
// the analysis panel and the SOS button. Kotlin's `toDouble`/`toDoubleOrNull`
// is the parameter `parse` and `Double.toString` the parameter `show`; the
// contacts `PrefsManager.getContacts` returns are the parameter `stored`.

module RoadScreen {
  import opened Wrappers
  import opened Strings
  import opened FrontendApi
  import Display
  import SatelliteCompareVm
  import SosIntents

  /** What a press of the analyze button does; `Crashed` is the exception `toDouble` throws. */
  datatype Click = Refused(toast: string) | Started(fields: CompareFields, toast: string) | Crashed

  const FillAll := "Please fill all fields"
  const StartedToast := "Analysis started..."

  /** The button: all four inputs must be non-blank; then both coordinates are converted unguarded. */
  function OnAnalyze(lat: string, lon: string, beforeDate: string, afterDate: string,
                     parse: string -> Option<real>): (c: Click)
    ensures c == Refused(FillAll) <==> IsBlank(lat) || IsBlank(lon) || IsBlank(beforeDate) || IsBlank(afterDate)
    ensures c.Crashed? <==> !IsBlank(lat) && !IsBlank(lon) && !IsBlank(beforeDate) && !IsBlank(afterDate)
                            && (parse(lat).None? || parse(lon).None?)
    ensures c.Started? ==>
      c.toast == StartedToast && c.fields == CompareFields(parse(lat).value, parse(lon).value, beforeDate, afterDate)
  {
    if !IsBlank(lat) && !IsBlank(lon) && !IsBlank(beforeDate) && !IsBlank(afterDate) then
      match (parse(lat), parse(lon))
      case (Some(x), Some(y)) => Started(CompareFields(x, y, beforeDate, afterDate), StartedToast)
      case _ => Crashed
    else
      Refused(FillAll)
  }

  /** A non-numeric latitude that passes the blank check reaches `toDouble`, which throws. */
  lemma NonNumericCrashes(lat: string, lon: string, beforeDate: string, afterDate: string,
                          parse: string -> Option<real>)
    requires !IsBlank(lat) && !IsBlank(lon) && !IsBlank(beforeDate) && !IsBlank(afterDate)
    requires parse(lat).None?
    ensures OnAnalyze(lat, lon, beforeDate, afterDate, parse) == Crashed
  {
  }

  datatype LatLng = LatLng(latitude: real, longitude: real)

  const FallbackLat := 28.7041
  const FallbackLon := 77.1025

  /** Where the map picker opens: each coordinate that does not parse falls back on its own. */
  function PickerStart(lat: string, lon: string, parse: string -> Option<real>): (p: LatLng)
    ensures p.latitude == (if parse(lat).Some? then parse(lat).value else FallbackLat)
    ensures p.longitude == (if parse(lon).Some? then parse(lon).value else FallbackLon)
  {
    LatLng(parse(lat).GetOr(FallbackLat), parse(lon).GetOr(FallbackLon))
  }

  /** An unreadable longitude does not disturb a readable latitude, and the reverse. */
  lemma FallbacksIndependent(lat: string, lon1: string, lon2: string, parse: string -> Option<real>)
    requires parse(lon1).None?
    ensures PickerStart(lat, lon1, parse).latitude == PickerStart(lat, lon2, parse).latitude
    ensures PickerStart(lat, lon1, parse).longitude == FallbackLon
  {
  }

  /** The analysis panel's two text lines for a reply; a null field shows "-". */
  function ResultLines(r: SatelliteCompareResponse): (lines: (string, string))
    ensures lines.0 == "AI Analysis: " + r.aiAnalysis.GetOr("-")
    ensures lines.1 == "Change Detection: " + r.changeDetection.GetOr("-")
  {
    ("AI Analysis: " + r.aiAnalysis.GetOr("-"), "Change Detection: " + r.changeDetection.GetOr("-"))
  }

  const ReadyText := "Ready for analysis - Connect your data source to begin"

  /** The panel: spinner, then error, then the reply, then `ReadyText`. */
  function Panel(vm: SatelliteCompareVm.SatelliteCompareViewModel): (s: Display.Shown<SatelliteCompareResponse>)
    reads vm
    ensures s == Display.Precedence(vm.isLoading, vm.error, vm.result)
    ensures s.Data? ==> !vm.isLoading && vm.error.None? && vm.result == Some(s.value)
  {
    Display.Precedence(vm.isLoading, vm.error, vm.result)
  }

  class RoadForm {
    var lat: string
    var lon: string
    var beforeDate: string
    var afterDate: string
    var showMapPicker: bool

    constructor ()
      ensures lat == "" && lon == "" && beforeDate == "" && afterDate == "" && !showMapPicker
    {
      lat, lon, beforeDate, afterDate, showMapPicker := "", "", "", "", false;
    }

    method EditLat(value: string)
      modifies this`lat
      ensures lat == value
    {
      lat := value;
    }

    method EditLon(value: string)
      modifies this`lon
      ensures lon == value
    {
      lon := value;
    }

    method PickBefore(date: string)
      modifies this`beforeDate
      ensures beforeDate == date
    {
      beforeDate := date;
    }

    method PickAfter(date: string)
      modifies this`afterDate
      ensures afterDate == date
    {
      afterDate := date;
    }

    /** The map card and the map icon both open the picker. */
    method OpenPicker()
      modifies this`showMapPicker
      ensures showMapPicker
    {
      showMapPicker := true;
    }

    /** A picked location is written into both fields, and the picker closes. */
    method PickLocation(p: LatLng, show: real -> string)
      modifies this`lat, this`lon, this`showMapPicker
      ensures lat == show(p.latitude) && lon == show(p.longitude) && !showMapPicker
    {
      lat := show(p.latitude);
      lon := show(p.longitude);
      showMapPicker := false;
    }

    /** Cancelling or dismissing closes the picker and keeps the fields. */
    method CancelPicker()
      modifies this`showMapPicker
      ensures !showMapPicker
    {
      showMapPicker := false;
    }

    /** The analyze button; the view-model is called only when the click starts an analysis. */
    method Press(vm: SatelliteCompareVm.SatelliteCompareViewModel, parse: string -> Option<real>,
                 api: CompareFields -> Fetch<SatelliteCompareResponse>) returns (c: Click)
      modifies vm
      ensures c == OnAnalyze(lat, lon, beforeDate, afterDate, parse)
      ensures !c.Started? ==> unchanged(vm)
      ensures c.Started? ==> (!vm.isLoading
        && (api(c.fields).Returned? ==> vm.result == Some(api(c.fields).value) && vm.error == None)
        && (api(c.fields).Threw? ==> vm.result == old(vm.result) && vm.error == api(c.fields).message))
    {
      c := OnAnalyze(lat, lon, beforeDate, afterDate, parse);
      if c.Started? {
        var f := c.fields;
        var sent := vm.Analyze(f.latitude, f.longitude, f.startDate, f.endDate, api);
      }
    }

    /** The SOS button hands the stored contacts to `sendSOS` as they are. */
    method PressSos(stored: seq<string>, location: Option<SosIntents.Position>, timeStamp: string,
                    show: real -> string, fails: string -> bool)
      returns (sent: seq<SosIntents.SmsIntent>, toasts: seq<string>)
      ensures SosIntents.Outcome(sent, toasts) == SosIntents.Dispatch(stored, SosIntents.SosText(location, show), fails)
    {
      sent, toasts := SosIntents.SendSos(stored, location, timeStamp, show, fails);
    }
  }

  /** After a pick, reopening the picker starts at the picked location when `show` reads back. */
  lemma PickThenReopen(p: LatLng, show: real -> string, parse: string -> Option<real>)
    requires parse(show(p.latitude)) == Some(p.latitude) && parse(show(p.longitude)) == Some(p.longitude)
    ensures PickerStart(show(p.latitude), show(p.longitude), parse) == p
  {
  }
}
