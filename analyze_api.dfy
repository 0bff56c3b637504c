// EcoScope/app/src/main/java/com/himanshu/ecoscope/network/: the body the
// analysis screens post to `/analyze`, and the fields of the reply the
// screens read. A Kotlin `Double` is a real number here.

module AnalyzeApi {
  datatype AnalyzeRequest = AnalyzeRequest(lat: real, lon: real, before: string, after: string)

  /** The reply's image paths and area label (the class itself is not part of this model). */
  datatype AnalyzeResponse = AnalyzeResponse(beforeUrl: string, afterUrl: string, changeMapUrl: string,
                                             areaType: string)
}
