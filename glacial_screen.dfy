// EcoScope/app/src/main/java/com/himanshu/ecoscope/ui/screens/GlacialScreen.kt:
// the glacial-lake screen's three inputs, its analyze click, its Reset and
// its result panel. `toDoubleOrNull` is the parameter `parse`; the date
// pickers write a formatted date into the date fields.

module GlacialScreen {
  import opened Wrappers
  import opened Strings
  import opened AnalyzeApi

  /** What a click on "Auto-Fetch & Analyze" does. */
  datatype Click = Toast(message: string) | Analyze(request: AnalyzeRequest)

  const WrongShape := "Enter lat,lon correctly"
  const InvalidInput := "Invalid coordinates or dates"

  /**
   * The click handler: the location must split on "," into exactly two
   * parts, both parts must parse and both dates must be non-empty.
   */
  function OnAnalyze(location: string, beforeDate: string, afterDate: string,
                     parse: string -> Option<real>): (c: Click)
    ensures c == Toast(WrongShape) <==> CountChar(location, ',') != 1
    ensures c.Analyze? ==> c.request.before == beforeDate && c.request.after == afterDate
  {
    SplitCount(location, ',');
    var parts := Split(location, ',');
    if |parts| == 2 then
      var lat, lon := parse(parts[0]), parse(parts[1]);
      if lat.Some? && lon.Some? && beforeDate != [] && afterDate != [] then
        Analyze(AnalyzeRequest(lat.value, lon.value, beforeDate, afterDate))
      else
        Toast(InvalidInput)
    else
      Toast(WrongShape)
  }

  /**
   * A location of the form "a,b": analyze is called exactly when both
   * halves parse and both dates are set, with the parsed numbers; otherwise
   * the second toast is shown.
   */
  lemma OnAnalyzePair(a: string, b: string, beforeDate: string, afterDate: string,
                      parse: string -> Option<real>)
    requires ',' !in a && ',' !in b
    ensures var c := OnAnalyze(a + [','] + b, beforeDate, afterDate, parse);
      && (c.Analyze? <==> parse(a).Some? && parse(b).Some? && beforeDate != [] && afterDate != [])
      && (c.Analyze? ==> c.request == AnalyzeRequest(parse(a).value, parse(b).value, beforeDate, afterDate))
      && (!c.Analyze? ==> c == Toast(InvalidInput))
  {
    SplitPair(a, ',', b);
  }

  /** Whatever the location, an unset date never reaches analyze. */
  lemma UnsetDateRefused(location: string, beforeDate: string, afterDate: string,
                         parse: string -> Option<real>)
    requires beforeDate == [] || afterDate == []
    ensures !OnAnalyze(location, beforeDate, afterDate, parse).Analyze?
  {
  }

  /** What the last item of the list shows. */
  datatype Panel = Placeholder | Images(beforeUrl: string, afterUrl: string, changeMapUrl: string,
                                        areaLine: string)

  const AreaPrefix := "\U{1F5FA} Area Type: "

  /** The panel for a response: its three images and area line, or the placeholder. */
  function PanelFor(response: Option<AnalyzeResponse>): (p: Panel)
    ensures p.Placeholder? <==> response.None?
    ensures response.Some? ==> p.beforeUrl == response.value.beforeUrl && p.afterUrl == response.value.afterUrl
                               && p.changeMapUrl == response.value.changeMapUrl
                               && p.areaLine == AreaPrefix + response.value.areaType
  {
    match response
    case None => Placeholder
    case Some(r) => Images(r.beforeUrl, r.afterUrl, r.changeMapUrl, AreaPrefix + r.areaType)
  }

  class GlacialForm {
    var location: string
    var beforeDate: string
    var afterDate: string
    /** The remembered response: initialised to null and never assigned. */
    const response: Option<AnalyzeResponse> := None

    constructor ()
      ensures location == "" && beforeDate == "" && afterDate == ""
    {
      location, beforeDate, afterDate := "", "", "";
    }

    method EditLocation(value: string)
      modifies this`location
      ensures location == value
    {
      location := value;
    }

    /** A date chosen in the "before" picker. */
    method PickBefore(date: string)
      modifies this`beforeDate
      ensures beforeDate == date
    {
      beforeDate := date;
    }

    /** A date chosen in the "after" picker. */
    method PickAfter(date: string)
      modifies this`afterDate
      ensures afterDate == date
    {
      afterDate := date;
    }

    /** Reset empties all three inputs. */
    method Reset()
      modifies this`location, this`beforeDate, this`afterDate
      ensures location == "" && beforeDate == "" && afterDate == ""
    {
      location, beforeDate, afterDate := "", "", "";
    }

    /** Since `response` stays null, the screen always shows the placeholder. */
    function Shown(): (p: Panel)
      ensures p == Placeholder
    {
      PanelFor(response)
    }
  }

  /** After Reset, a click always reports a malformed location. */
  lemma ResetThenClick(parse: string -> Option<real>)
    ensures OnAnalyze("", "", "", parse) == Toast(WrongShape)
  {
    assert CountChar("", ',') == 0;
  }
}
