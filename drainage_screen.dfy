// EcoScope/app/src/main/java/com/himanshu/ecoscope/ui/screens/DrainageScreen.kt:
// the drainage screen's inputs, its analyze click, its Reset and the image
// URLs of its result panel. `toDoubleOrNull` is the parameter `parse`.

module DrainageScreen {
  import opened Wrappers
  import opened Strings
  import opened AnalyzeApi
  import GlacialScreen
  import DrainageVm

  /** What a click on the analyze button does. */
  datatype Click = Toast(message: string) | Analyze(request: AnalyzeRequest)

  const InvalidInput := "Enter valid lat, lon and dates"

  /** `parts.getOrNull(i)?.toDoubleOrNull()`. */
  function PartNumber(parts: seq<string>, i: nat, parse: string -> Option<real>): (r: Option<real>)
    ensures i >= |parts| ==> r.None?
    ensures i < |parts| ==> r == parse(parts[i])
  {
    if i < |parts| then parse(parts[i]) else None
  }

  /**
   * The click handler: the first two parts of the location must parse and
   * both dates must be non-blank; any further parts are ignored.
   */
  function OnAnalyze(location: string, beforeDate: string, afterDate: string,
                     parse: string -> Option<real>): (c: Click)
    ensures c.Toast? ==> c.message == InvalidInput
    ensures c.Analyze? <==> var parts := Split(location, ',');
      && |parts| >= 2 && parse(parts[0]).Some? && parse(parts[1]).Some?
      && !IsBlank(beforeDate) && !IsBlank(afterDate)
    ensures c.Analyze? ==> var parts := Split(location, ',');
      c.request == AnalyzeRequest(parse(parts[0]).value, parse(parts[1]).value, beforeDate, afterDate)
  {
    var parts := Split(location, ',');
    var lat, lon := PartNumber(parts, 0, parse), PartNumber(parts, 1, parse);
    if lat.Some? && lon.Some? && !IsBlank(beforeDate) && !IsBlank(afterDate) then
      Analyze(AnalyzeRequest(lat.value, lon.value, beforeDate, afterDate))
    else
      Toast(InvalidInput)
  }

  /** A location without a comma has no longitude, so the toast is shown. */
  lemma NoCommaRefused(location: string, beforeDate: string, afterDate: string,
                       parse: string -> Option<real>)
    requires ',' !in location
    ensures OnAnalyze(location, beforeDate, afterDate, parse) == Toast(InvalidInput)
  {
    SplitNoDelimiter(location, ',');
  }

  /** Text after a second comma makes no difference: only the first two parts are read. */
  lemma ExtraPartsIgnored(a: string, b: string, rest: string, beforeDate: string, afterDate: string,
                          parse: string -> Option<real>)
    requires ',' !in a && ',' !in b
    ensures OnAnalyze(a + [','] + b + [','] + rest, beforeDate, afterDate, parse)
         == OnAnalyze(a + [','] + b, beforeDate, afterDate, parse)
  {
    SplitFront(a, ',', b + [','] + rest);
    SplitFront(b, ',', rest);
    assert a + [','] + b + [','] + rest == a + [','] + (b + [','] + rest);
    SplitPair(a, ',', b);
  }

  /**
   * "a,b,c" with numbers for a and b and both dates set: the glacial screen
   * rejects the shape, the drainage screen analyzes a and b.
   */
  lemma ScreensDisagreeOnThreeParts(a: string, b: string, c: string, beforeDate: string, afterDate: string,
                                    parse: string -> Option<real>)
    requires ',' !in a && ',' !in b && ',' !in c
    requires parse(a).Some? && parse(b).Some? && !IsBlank(beforeDate) && !IsBlank(afterDate)
    ensures var location := a + [','] + b + [','] + c;
      && GlacialScreen.OnAnalyze(location, beforeDate, afterDate, parse) == GlacialScreen.Toast(GlacialScreen.WrongShape)
      && OnAnalyze(location, beforeDate, afterDate, parse)
         == Analyze(AnalyzeRequest(parse(a).value, parse(b).value, beforeDate, afterDate))
  {
    var location := a + [','] + b + [','] + c;
    SplitFront(a, ',', b + [','] + c);
    SplitPair(b, ',', c);
    assert location == a + [','] + (b + [','] + c);
    assert Split(location, ',') == [a, b, c];
    SplitCount(location, ',');
  }

  /** The server the screen loads images from. */
  const BaseUrl := "http://192.168.31.201:5000"

  /** An image's URL: the server followed by the path in the response. */
  function ImageUrl(path: string): (url: string)
    ensures StartsWith(url, BaseUrl) && url[|BaseUrl|..] == path
  {
    PrefixOfConcat(BaseUrl, path);
    BaseUrl + path
  }

  /** Distinct paths give distinct URLs. */
  lemma ImageUrlInjective(p: string, q: string)
    requires ImageUrl(p) == ImageUrl(q)
    ensures p == q
  {
    assert p == ImageUrl(p)[|BaseUrl|..];
  }

  /** The three images of the result panel: before, after, change map. */
  function ShownImages(result: Option<AnalyzeResponse>): (urls: Option<seq<string>>)
    ensures urls.Some? <==> result.Some?
    ensures result.Some? ==> urls.value == [ImageUrl(result.value.beforeUrl), ImageUrl(result.value.afterUrl),
                                           ImageUrl(result.value.changeMapUrl)]
  {
    match result
    case None => None
    case Some(r) => Some([ImageUrl(r.beforeUrl), ImageUrl(r.afterUrl), ImageUrl(r.changeMapUrl)])
  }

  /** The panel's URLs give back the response's paths. */
  lemma ShownImagesReadBack(r: AnalyzeResponse)
    ensures var urls := ShownImages(Some(r)).value;
      urls[0][|BaseUrl|..] == r.beforeUrl && urls[1][|BaseUrl|..] == r.afterUrl
      && urls[2][|BaseUrl|..] == r.changeMapUrl
  {
  }

  class DrainageForm {
    var location: string
    var beforeDate: string
    var afterDate: string

    constructor ()
      ensures location == "" && beforeDate == "" && afterDate == ""
    {
      location, beforeDate, afterDate := "", "", "";
    }

    method EditLocation(value: string)
      modifies this`location
      ensures location == value
    {
      location := value;
    }

    method PickBefore(date: string)
      modifies this`beforeDate
      ensures beforeDate == date
    {
      beforeDate := date;
    }

    method PickAfter(date: string)
      modifies this`afterDate
      ensures afterDate == date
    {
      afterDate := date;
    }

    /** Reset empties all three inputs. */
    method Reset()
      modifies this`location, this`beforeDate, this`afterDate
      ensures location == "" && beforeDate == "" && afterDate == ""
    {
      location, beforeDate, afterDate := "", "", "";
    }

    /**
     * A click: either the toast, or the view-model's `analyze` with the
     * parsed request. The form itself is left as it is.
     */
    method Press(vm: DrainageVm.DrainageViewModel, parse: string -> Option<real>,
                 api: AnalyzeRequest -> Fetch<AnalyzeResponse>) returns (toast: Option<string>)
      modifies vm
      ensures var c := OnAnalyze(location, beforeDate, afterDate, parse);
        && (c.Toast? ==> toast == Some(c.message) && unchanged(vm))
        && (c.Analyze? ==> (toast == None && !vm.isLoading
              && (api(c.request).Returned? ==> vm.result == Some(api(c.request).value) && vm.error == None)
              && (api(c.request).Threw? ==> vm.result == old(vm.result) && vm.error == api(c.request).message)))
    {
      var c := OnAnalyze(location, beforeDate, afterDate, parse);
      if c.Toast? {
        toast := Some(c.message);
      } else {
        var r := c.request;
        var sent := vm.Analyze(r.lat, r.lon, r.before, r.after, api);
        toast := None;
      }
    }
  }
}
