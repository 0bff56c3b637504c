// EcoScope_Frontend/app/src/main/java/com/mansi/ecoscope_frontend/AIViewModel.kt:
// the analysis view-model. The Frontend app's own request and reply classes
// are not part of this model; they are taken to have the shape of the
// other app's. The network call is the parameter `api`.

module AiVm {
  import opened Wrappers
  import opened AnalyzeApi

  class AIViewModel {
    var result: Option<AnalyzeResponse>
    var isLoading: bool
    var error: Option<string>

    constructor ()
      ensures result == None && !isLoading && error == None
    {
      result, isLoading, error := None, false, None;
    }

    /**
     * `analyze`: the request carries the four arguments unchanged; a reply
     * replaces the result and leaves no error, a failure records its message
     * and keeps the previous result; the spinner ends off.
     */
    method Analyze(lat: real, lon: real, before: string, after: string,
                   api: AnalyzeRequest -> Fetch<AnalyzeResponse>) returns (sent: AnalyzeRequest)
      modifies this
      ensures sent == AnalyzeRequest(lat, lon, before, after)
      ensures !isLoading
      ensures api(sent).Returned? ==> result == Some(api(sent).value) && error == None
      ensures api(sent).Threw? ==> result == old(result) && error == api(sent).message
    {
      isLoading := true;
      error := None;
      sent := AnalyzeRequest(lat, lon, before, after);
      var reply := api(sent);
      if reply.Returned? {
        result := Some(reply.value);
      } else {
        error := reply.message;
      }
      isLoading := false;
    }
  }
}
