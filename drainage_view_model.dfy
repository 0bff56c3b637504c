// EcoScope/app/src/main/java/com/himanshu/ecoscope/ui/viewmodel/AppViewModel.kt:
// `DrainageViewModel`. The launched coroutine runs to completion inside
// `Analyze`; the network call is the parameter `api`, applied to the
// request the view-model builds.

module DrainageVm {
  import opened Wrappers
  import opened AnalyzeApi

  class DrainageViewModel {
    var result: Option<AnalyzeResponse>
    var isLoading: bool
    var error: Option<string>

    constructor ()
      ensures result == None && !isLoading && error == None
    {
      result, isLoading, error := None, false, None;
    }

    /**
     * `analyze`: the error is cleared, the request carries the four
     * arguments unchanged, a reply replaces the result, a failure records its
     * message and keeps the previous result, and the spinner ends off.
     */
    method Analyze(lat: real, lon: real, before: string, after: string,
                   api: AnalyzeRequest -> Fetch<AnalyzeResponse>) returns (sent: AnalyzeRequest)
      modifies this
      ensures sent == AnalyzeRequest(lat, lon, before, after)
      ensures !isLoading
      ensures api(sent).Returned? ==> result == Some(api(sent).value) && error == None
      ensures api(sent).Threw? ==> result == old(result) && error == api(sent).message
    {
      isLoading := true;
      error := None;
      sent := AnalyzeRequest(lat, lon, before, after);
      var reply := api(sent);
      if reply.Returned? {
        result := Some(reply.value);
      } else {
        error := reply.message;
      }
      isLoading := false;
    }
  }
}
