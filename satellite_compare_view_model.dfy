// EcoScope_Frontend/app/src/main/java/com/mansi/ecoscope_frontend/SatelliteCompareViewModel.kt:
// the view-model behind the road screen. `compareSatellite` is the parameter
// `api`, applied to the form fields the view-model posts.

module SatelliteCompareVm {
  import opened Wrappers
  import opened FrontendApi

  class SatelliteCompareViewModel {
    var result: Option<SatelliteCompareResponse>
    var isLoading: bool
    var error: Option<string>

    constructor ()
      ensures result == None && !isLoading && error == None
    {
      result, isLoading, error := None, false, None;
    }

    /**
     * `analyze`: latitude, longitude, start and end date are lat, lon,
     * before and after, in that order; a reply replaces the result, a failure
     * records its message and keeps the previous result; the spinner ends off.
     */
    method Analyze(lat: real, lon: real, before: string, after: string,
                   api: CompareFields -> Fetch<SatelliteCompareResponse>) returns (sent: CompareFields)
      modifies this
      ensures sent == CompareFields(lat, lon, before, after)
      ensures !isLoading
      ensures api(sent).Returned? ==> result == Some(api(sent).value) && error == None
      ensures api(sent).Threw? ==> result == old(result) && error == api(sent).message
    {
      isLoading := true;
      error := None;
      sent := CompareFields(lat, lon, before, after);
      var reply := api(sent);
      if reply.Returned? {
        result := Some(reply.value);
      } else {
        error := reply.message;
      }
      isLoading := false;
    }
  }
}
