// backend/app.py: the HTTP layer's own decisions — error mapping of the
// analysis endpoints, the per-endpoint keyword filters over the model's
// recommendations, the selection of the analysis history, and the satellite
// compare/predict endpoints. Routing, file uploads and JSON files are outside
// the model; their outcomes are inputs.

module Api {
  import opened Wrappers
  import opened Strings
  import opened EcoScopeModel
  import opened KeywordFilter
  import SatelliteService

  /** What an endpoint answers: a JSON body, or an `HTTPException`. */
  datatype Response<T> = Ok(body: T) | HttpError(status: nat, detail: string)

  /**
   * `str()` of an `HTTPException`, as Starlette renders it: the status code
   * in decimal, ": ", then the detail; both read back.
   */
  function HttpExceptionText(status: nat, detail: string): (text: string)
    ensures var n := |NatToString(status)|;
      && n + 2 <= |text| && AllDigits(text[..n]) && DecimalValue(text[..n]) == status
      && text[n..n + 2] == ": " && text[n + 2..] == detail
  {
    var digits := NatToString(status);
    DecimalRoundTrip(status);
    assert (digits + ": " + detail)[..|digits|] == digits;
    digits + ": " + detail
  }

  /**
   * The model's analysis of one upload, or the message of an exception raised
   * while it ran (reading the upload, the network, saving the result).
   */
  datatype AnalysisOutcome = Completed(result: AnalysisResult) | Raised(message: string)

  // ----- /analyze/environmental -----

  /**
   * `/analyze/environmental` as evidently intended. The missing model and a
   * non-image content type are rejected before the `try`; anything raised
   * inside becomes 500 "Analysis failed: …". The analysis, or an error result
   * from the model itself, is returned as an ordinary body.
   */
  function AnalyzeEnvironmental(modelPresent: bool, contentType: string, outcome: AnalysisOutcome)
    : (r: Response<AnalysisResult>)
    ensures !modelPresent ==> r == HttpError(500, "Model not loaded")
    ensures modelPresent && !StartsWith(contentType, "image/") ==> r == HttpError(400, "File must be an image")
    ensures modelPresent && StartsWith(contentType, "image/") ==>
      match outcome
      case Completed(a) => r == Ok(a)
      case Raised(m) => r == HttpError(500, "Analysis failed: " + m)
  {
    if !modelPresent then HttpError(500, "Model not loaded")
    else if !StartsWith(contentType, "image/") then HttpError(400, "File must be an image")
    else
      match outcome
      case Completed(a) => Ok(a)
      case Raised(m) => HttpError(500, "Analysis failed: " + m)
  }

  // ----- /analyze/glaciers, /analyze/drainage, /analyze/roads -----

  datatype Detection = GlacierDetection(g: GlacierInfo) | DrainageDetection(d: DrainageInfo) | RoadDetection(r: RoadInfo)

  datatype FeatureReport = FeatureReport(
    timestamp: string,
    detection: Detection,
    impactLevel: ImpactLevel,
    recommendations: seq<string>)

  datatype FeatureEndpoint = Glaciers | Drainage | Roads {
    function Title(): string {
      match this
      case Glaciers => "Glacier"
      case Drainage => "Drainage"
      case Roads => "Road"
    }
    function Keywords(): (string, string) {
      match this
      case Glaciers => ("glacier", "water")
      case Drainage => ("drainage", "flooding")
      case Roads => ("infrastructure", "habitat")
    }
  }

  /**
   * One feature endpoint, as evidently intended. An error result from the model has no
   * "timestamp" key, so reading it raises `KeyError('timestamp')`, which the
   * endpoint reports as a 500.
   */
  function AnalyzeFeature(endpoint: FeatureEndpoint, modelPresent: bool, outcome: AnalysisOutcome)
    : (r: Response<FeatureReport>)
    ensures !modelPresent ==> r == HttpError(500, "Model not loaded")
    ensures modelPresent && outcome.Raised? ==>
      r == HttpError(500, endpoint.Title() + " analysis failed: " + outcome.message)
    ensures modelPresent && outcome.Completed? && outcome.result.AnalysisError? ==>
      r == HttpError(500, endpoint.Title() + " analysis failed: 'timestamp'")
    ensures r.Ok? ==>
      && modelPresent && outcome.Completed? && outcome.result.Analysis?
      && r.body.timestamp == outcome.result.timestamp
      && r.body.impactLevel == outcome.result.impactLevel
      && r.body.detection == (match endpoint
           case Glaciers => GlacierDetection(outcome.result.features.glaciers)
           case Drainage => DrainageDetection(outcome.result.features.drainageSystems)
           case Roads => RoadDetection(outcome.result.features.roadNetworks))
      && r.body.recommendations
         == FilterRecs(outcome.result.recommendations, endpoint.Keywords().0, endpoint.Keywords().1)
  {
    if !modelPresent then HttpError(500, "Model not loaded")
    else
      match outcome
      case Raised(m) => HttpError(500, endpoint.Title() + " analysis failed: " + m)
      case Completed(AnalysisError(_)) => HttpError(500, endpoint.Title() + " analysis failed: 'timestamp'")
      case Completed(a) =>
        var detection := match endpoint
          case Glaciers => GlacierDetection(a.features.glaciers)
          case Drainage => DrainageDetection(a.features.drainageSystems)
          case Roads => RoadDetection(a.features.roadNetworks);
        var (k1, k2) := endpoint.Keywords();
        Ok(FeatureReport(a.timestamp, detection, a.impactLevel, FilterRecs(a.recommendations, k1, k2)))
  }

  /**
   * For an analysis the model produced, each endpoint's recommendations are
   * its own pair (the roads endpoint also keeps the drainage review), and
   * always a subsequence of the full list.
   */
  lemma FeatureRecommendations(endpoint: FeatureEndpoint, a: AnalysisResult)
    requires a.Analysis? && a.recommendations == Recommendations(a.features, a.impactLevel)
    ensures var r := AnalyzeFeature(endpoint, true, Completed(a));
      && r.Ok?
      && IsSubsequence(r.body.recommendations, a.recommendations)
      && r.body.recommendations == match endpoint
         case Glaciers => if a.features.glaciers.detected then [MonitorGlacier, WaterResources] else []
         case Drainage => if a.features.drainageSystems.detected then [ReviewDrainage, FloodingRisks] else []
         case Roads =>
           (if a.features.drainageSystems.detected then [ReviewDrainage] else [])
           + (if a.features.roadNetworks.detected then [InfrastructureImpact, HabitatFragmentation] else [])
  {
    var (k1, k2) := endpoint.Keywords();
    FilterRecsSpec(a.recommendations, k1, k2);
    match endpoint
    case Glaciers => GlacierFilter(a.features, a.impactLevel);
    case Drainage => DrainageFilter(a.features, a.impactLevel);
    case Roads => RoadFilter(a.features, a.impactLevel);
  }

  // ----- the analysis endpoints as written -----

  /** The `TypeError` message `json.dumps` raises for a value of a type it does not know. */
  function NotSerializable(typeName: string): string {
    "Object of type " + typeName + " is not JSON serializable"
  }

  /** The outcome carries a completed analysis, not an error result. */
  predicate CompletedAnalysis(outcome: AnalysisOutcome) {
    outcome.Completed? && outcome.result.Analysis?
  }

  /**
   * `/analyze/environmental` as written. `JSONResponse` serialises its
   * content in its constructor, inside the `try`, and a completed analysis
   * always holds NumPy scalars that `json.dumps` refuses: the melting
   * indicator and the drainage and road `detected` flags are NumPy booleans.
   * `refused` is the type name of the first such value met. Only the model's
   * error results get through.
   */
  function AnalyzeEnvironmentalAsWritten(modelPresent: bool, contentType: string, outcome: AnalysisOutcome,
                                         refused: string)
    : (r: Response<AnalysisResult>)
    ensures r.Ok? <==> modelPresent && StartsWith(contentType, "image/")
                       && outcome.Completed? && outcome.result.AnalysisError?
    ensures modelPresent && StartsWith(contentType, "image/") && CompletedAnalysis(outcome) ==>
      r == HttpError(500, "Analysis failed: " + NotSerializable(refused))
    ensures !CompletedAnalysis(outcome) ==> r == AnalyzeEnvironmental(modelPresent, contentType, outcome)
  {
    if modelPresent && StartsWith(contentType, "image/") && CompletedAnalysis(outcome) then
      HttpError(500, "Analysis failed: " + NotSerializable(refused))
    else AnalyzeEnvironmental(modelPresent, contentType, outcome)
  }

  /**
   * A feature endpoint as written: each report holds a NumPy boolean (the
   * glaciers' melting indicator, the drainage or road `detected` flag), so
   * building its `JSONResponse` raises and no feature endpoint ever answers
   * a body.
   */
  function AnalyzeFeatureAsWritten(endpoint: FeatureEndpoint, modelPresent: bool, outcome: AnalysisOutcome,
                                   refused: string)
    : (r: Response<FeatureReport>)
    ensures r.HttpError? && r.status == 500
    ensures modelPresent && CompletedAnalysis(outcome) ==>
      r == HttpError(500, endpoint.Title() + " analysis failed: " + NotSerializable(refused))
    ensures !CompletedAnalysis(outcome) ==> r == AnalyzeFeature(endpoint, modelPresent, outcome)
  {
    if modelPresent && CompletedAnalysis(outcome) then
      HttpError(500, endpoint.Title() + " analysis failed: " + NotSerializable(refused))
    else AnalyzeFeature(endpoint, modelPresent, outcome)
  }

  /**
   * For any analysis the model produces from an image, the endpoints as
   * written answer 500 where the intended ones return the analysis and the
   * feature report.
   */
  lemma SerializationFinding(endpoint: FeatureEndpoint, s: PredictionStats, timestamp: string,
                             a: AnalysisResult, contentType: string, refused: string)
    requires s.pixels > 0 && AnalysisOf(s, timestamp, a) && StartsWith(contentType, "image/")
    ensures AnalyzeEnvironmentalAsWritten(true, contentType, Completed(a), refused)
         == HttpError(500, "Analysis failed: " + NotSerializable(refused))
    ensures AnalyzeEnvironmental(true, contentType, Completed(a)) == Ok(a)
    ensures AnalyzeFeatureAsWritten(endpoint, true, Completed(a), refused)
         == HttpError(500, endpoint.Title() + " analysis failed: " + NotSerializable(refused))
    ensures AnalyzeFeature(endpoint, true, Completed(a)).Ok?
  {
  }

  // ----- /analysis/history -----

  const ResultPrefix := "analysis_results_"

  /** `analysis_files[:10]`. */
  const HistoryLimit := 10

  /** The keys a saved analysis file holds; an absent key is `None`. */
  datatype StoredAnalysis = StoredAnalysis(
    timestamp: Option<string>,
    impactLevel: Option<string>,
    affectedArea: Option<real>)

  datatype HistoryEntry = HistoryEntry(file: string, timestamp: string, impactLevel: string, affectedArea: real)

  /** The working directory's file names, or the message of the error listing it raised. */
  datatype Listing = Listed(names: seq<string>) | ListFailed(message: string)

  /** `[f for f in names if f.startswith("analysis_results_")]`. */
  function AnalysisFiles(names: seq<string>): (r: seq<string>)
    ensures |r| <= |names|
  {
    if names == [] then []
    else (if StartsWith(names[0], ResultPrefix) then [names[0]] else []) + AnalysisFiles(names[1..])
  }

  lemma {:induction false} AnalysisFilesMembers(names: seq<string>)
    ensures forall x :: x in AnalysisFiles(names) <==> x in names && StartsWith(x, ResultPrefix)
  {
    if names != [] {
      AnalysisFilesMembers(names[1..]);
      assert names == [names[0]] + names[1..];
    }
  }

  /** Descending in Python's code-point order of strings. */
  predicate SortedDesc(s: seq<string>) {
    forall i, j :: 0 <= i < j < |s| ==> StrLe(s[j], s[i])
  }

  /** Inserting adds exactly the new name. */
  function Insert(x: string, s: seq<string>): (r: seq<string>)
    ensures multiset(r) == multiset(s) + multiset{x}
  {
    if s == [] then [x]
    else if StrLe(s[0], x) then [x] + s
    else
      assert s == [s[0]] + s[1..];
      [s[0]] + Insert(x, s[1..])
  }

  /** `list.sort(reverse=True)` on file names, as an insertion sort. */
  function SortDesc(s: seq<string>): (r: seq<string>)
    ensures multiset(r) == multiset(s)
  {
    if s == [] then []
    else
      assert s == [s[0]] + s[1..];
      Insert(s[0], SortDesc(s[1..]))
  }

  lemma {:induction false} InsertSpec(x: string, s: seq<string>)
    requires SortedDesc(s)
    ensures SortedDesc(Insert(x, s))
    ensures multiset(Insert(x, s)) == multiset(s) + multiset{x}
  {
    if s == [] {
    } else if StrLe(s[0], x) {
      forall k | 0 <= k < |s| ensures StrLe(s[k], x) {
        if k > 0 { StrLeTrans(s[k], s[0], x); }
      }
      ConsSorted(x, s);
    } else {
      TailSorted(s);
      InsertSpec(x, s[1..]);
      StrLeTotal(s[0], x);
      InsertBelow(x, s, Insert(x, s[1..]));
      ConsSorted(s[0], Insert(x, s[1..]));
    }
  }

  /** The tail of a descending list is descending. */
  lemma TailSorted(s: seq<string>)
    requires s != [] && SortedDesc(s)
    ensures SortedDesc(s[1..])
  {
    forall i, j | 0 <= i < j < |s[1..]| ensures StrLe(s[1..][j], s[1..][i]) {
      assert s[1..][i] == s[i + 1] && s[1..][j] == s[j + 1];
    }
  }

  /** A head above every element of a descending list keeps it descending. */
  lemma ConsSorted(h: string, t: seq<string>)
    requires SortedDesc(t) && forall k :: 0 <= k < |t| ==> StrLe(t[k], h)
    ensures SortedDesc([h] + t)
  {
    var r := [h] + t;
    forall i, j | 0 <= i < j < |r| ensures StrLe(r[j], r[i]) {
      assert r[j] == t[j - 1];
      if i > 0 { assert r[i] == t[i - 1]; }
    }
  }

  /** Inserting below the head keeps everything under the head. */
  lemma {:induction false} InsertBelow(x: string, s: seq<string>, t: seq<string>)
    requires s != [] && SortedDesc(s) && StrLe(x, s[0])
    requires multiset(t) == multiset(s[1..]) + multiset{x}
    ensures forall k :: 0 <= k < |t| ==> StrLe(t[k], s[0])
  {
    forall k | 0 <= k < |t| ensures StrLe(t[k], s[0]) {
      var y := t[k];
      assert y in multiset(t);
      if y != x {
        assert y in multiset(s[1..]);
        var m :| 0 <= m < |s[1..]| && s[1..][m] == y;
        assert s[m + 1] == y;
      }
    }
  }

  /** The sorted names are in descending order and are the same names. */
  lemma {:induction false} SortDescSpec(s: seq<string>)
    ensures SortedDesc(SortDesc(s))
    ensures multiset(SortDesc(s)) == multiset(s)
  {
    if s != [] {
      SortDescSpec(s[1..]);
      InsertSpec(s[0], SortDesc(s[1..]));
      assert s == [s[0]] + s[1..];
    }
  }

  /** Python's `s[:n]`. */
  function Take<T>(s: seq<T>, n: nat): seq<T> {
    if |s| <= n then s else s[..n]
  }

  /** The entry read from one file, with the defaults of `data.get`. */
  function Entry(file: string, d: StoredAnalysis): HistoryEntry {
    HistoryEntry(file, d.timestamp.GetOr(""), d.impactLevel.GetOr(""), d.affectedArea.GetOr(0.0))
  }

  /** The entries of the files that could be read, in the order of `files`. */
  function Entries(files: seq<string>, read: string -> Option<StoredAnalysis>): (r: seq<HistoryEntry>)
    ensures |r| <= |files|
  {
    if files == [] then []
    else
      var last := files[|files| - 1];
      Entries(files[..|files| - 1], read) + (if read(last).Some? then [Entry(last, read(last).value)] else [])
  }

  /**
   * `get_analysis_history`. Reading a file is the oracle `read`; `None` is any
   * failure of opening it, parsing it or reading its keys, all of which the
   * bare `except` skips.
   */
  method GetAnalysisHistory(listing: Listing, read: string -> Option<StoredAnalysis>)
    returns (r: Response<seq<HistoryEntry>>)
    ensures listing.ListFailed? ==> r == HttpError(500, "Failed to get history: " + listing.message)
    ensures listing.Listed? ==>
      r == Ok(Entries(Take(SortDesc(AnalysisFiles(listing.names)), HistoryLimit), read))
  {
    match listing
    case ListFailed(m) =>
      r := HttpError(500, "Failed to get history: " + m);
    case Listed(names) =>
      var files := SortDesc(AnalysisFiles(names));
      var chosen := Take(files, HistoryLimit);
      var history: seq<HistoryEntry> := [];
      var i := 0;
      while i < |chosen|
        invariant 0 <= i <= |chosen|
        invariant history == Entries(chosen[..i], read)
      {
        assert chosen[..i + 1][..i] == chosen[..i];
        var file := chosen[i];
        if read(file).Some? {
          history := history + [Entry(file, read(file).value)];
        }
        i := i + 1;
      }
      assert chosen[..|chosen|] == chosen;
      r := Ok(history);
  }

  /**
   * Each entry comes from a readable file of `files`, one per readable file,
   * and never more entries than files.
   */
  lemma {:induction false} EntriesSpec(files: seq<string>, read: string -> Option<StoredAnalysis>)
    ensures |Entries(files, read)| <= |files|
    ensures forall e :: e in Entries(files, read) ==>
      e.file in files && read(e.file).Some? && e == Entry(e.file, read(e.file).value)
    ensures forall f :: f in files && read(f).Some? ==> Entry(f, read(f).value) in Entries(files, read)
  {
    if files != [] {
      var init := files[..|files| - 1];
      EntriesSpec(init, read);
      assert files == init + [files[|files| - 1]];
    }
  }

  /** The entries keep the order of `files`: descending names give descending entries. */
  lemma {:induction false} EntriesOrdered(files: seq<string>, read: string -> Option<StoredAnalysis>)
    requires SortedDesc(files)
    ensures forall i, j :: 0 <= i < j < |Entries(files, read)| ==>
      StrLe(Entries(files, read)[j].file, Entries(files, read)[i].file)
  {
    if files != [] {
      var init, last := files[..|files| - 1], files[|files| - 1];
      assert SortedDesc(init) by {
        forall i, j | 0 <= i < j < |init| ensures StrLe(init[j], init[i]) {
          assert init[i] == files[i] && init[j] == files[j];
        }
      }
      EntriesOrdered(init, read);
      EntriesSpec(init, read);
      var h := Entries(files, read);
      var hi := Entries(init, read);
      forall i, j | 0 <= i < j < |h| ensures StrLe(h[j].file, h[i].file) {
        if j < |hi| {
          assert h[i] == hi[i] && h[j] == hi[j];
        } else {
          assert h[j].file == last && h[i] == hi[i] && hi[i] in hi;
          var k :| 0 <= k < |init| && init[k] == hi[i].file;
          assert files[k] == init[k];
        }
      }
    }
  }

  /**
   * The history holds at most ten entries, all from "analysis_results_" files
   * of the listing, newest name first. Exactly the readable ones of the ten
   * greatest such names appear, so unreadable files make it shorter, and every
   * name left out ranks below all the chosen ones.
   */
  lemma {:induction false} HistorySelection(names: seq<string>, read: string -> Option<StoredAnalysis>)
    ensures var chosen := Take(SortDesc(AnalysisFiles(names)), HistoryLimit);
      var h := Entries(chosen, read);
      && |chosen| <= HistoryLimit
      && |h| <= HistoryLimit
      && (forall e :: e in h ==> e.file in names && StartsWith(e.file, ResultPrefix))
      && (forall i, j :: 0 <= i < j < |h| ==> StrLe(h[j].file, h[i].file))
      && (forall f :: f in chosen ==> (read(f).Some? <==> exists e :: e in h && e.file == f))
      && (forall f, c :: f in names && StartsWith(f, ResultPrefix) && f !in chosen && c in chosen ==> StrLe(f, c))
  {
    var chosen := Take(SortDesc(AnalysisFiles(names)), HistoryLimit);
    ChosenSorted(names);
    ChosenFromNames(names);
    LeftOutBelow(names);
    EntriesSpec(chosen, read);
    EntriesOrdered(chosen, read);
  }

  /** The chosen names are descending. */
  lemma ChosenSorted(names: seq<string>)
    ensures SortedDesc(Take(SortDesc(AnalysisFiles(names)), HistoryLimit))
  {
    var files := SortDesc(AnalysisFiles(names));
    var chosen := Take(files, HistoryLimit);
    SortDescSpec(AnalysisFiles(names));
    forall i, j | 0 <= i < j < |chosen| ensures StrLe(chosen[j], chosen[i]) {
      assert chosen[i] == files[i] && chosen[j] == files[j];
    }
  }

  /** Every chosen name is an "analysis_results_" name of the listing. */
  lemma ChosenFromNames(names: seq<string>)
    ensures forall x :: x in Take(SortDesc(AnalysisFiles(names)), HistoryLimit) ==>
      x in names && StartsWith(x, ResultPrefix)
  {
    var files := SortDesc(AnalysisFiles(names));
    var chosen := Take(files, HistoryLimit);
    AnalysisFilesMembers(names);
    forall x | x in chosen ensures x in names && StartsWith(x, ResultPrefix) {
      var k :| 0 <= k < |chosen| && chosen[k] == x;
      assert files[k] == x && x in multiset(files);
    }
  }

  /** A result name left out ranks below every chosen one. */
  lemma LeftOutBelow(names: seq<string>)
    ensures var chosen := Take(SortDesc(AnalysisFiles(names)), HistoryLimit);
      forall f, c :: f in names && StartsWith(f, ResultPrefix) && f !in chosen && c in chosen ==> StrLe(f, c)
  {
    var files := SortDesc(AnalysisFiles(names));
    SortDescSpec(AnalysisFiles(names));
    AnalysisFilesMembers(names);
    forall f | f in names && StartsWith(f, ResultPrefix) ensures f in files {
      assert f in multiset(AnalysisFiles(names));
    }
    TakeSortedAbove(files, HistoryLimit);
  }

  /** What a prefix of a descending list leaves out is below everything it keeps. */
  lemma TakeSortedAbove(files: seq<string>, n: nat)
    requires SortedDesc(files)
    ensures forall f, c :: f in files && f !in Take(files, n) && c in Take(files, n) ==> StrLe(f, c)
  {
    var chosen := Take(files, n);
    forall f, c | f in files && f !in chosen && c in chosen ensures StrLe(f, c) {
      var k :| 0 <= k < |files| && files[k] == f;
      var i :| 0 <= i < |chosen| && chosen[i] == c;
      assert forall m :: 0 <= m < |chosen| ==> chosen[m] == files[m];
      assert |chosen| <= k;
    }
  }

  // ----- /satellite/compare -----

  /** What `analyze_satellite_changes` answers: its fixed sample, or the missing-model note. */
  datatype AiAnalysis =
    | SampleAnalysis(glaciersDetected: bool, drainageChanges: bool, roadDevelopment: bool,
                     environmentalImpact: string, confidenceScore: real)
    | ModelNotAvailable

  const SampleSatelliteAnalysis := SampleAnalysis(true, true, false, "MODERATE", 0.85)

  datatype Comparison = Comparison(
    timestamp: string,
    location: SatelliteService.Location,
    dateRange: SatelliteService.DateRange,
    satelliteData: map<string, seq<SatelliteService.ImageMeta>>,
    aiAnalysis: AiAnalysis,
    changeDetection: string)

  /**
   * `/satellite/compare`. The fetch result, the model's presence, the clock
   * and the outcome of writing the result file (`Some(message)` when it
   * raised) are inputs. The 400 for an unsuccessful fetch is raised inside the
   * `try`, so it is caught and reported as a 500 carrying its text.
   */
  function CompareSatelliteImages(serviceAvailable: bool, fetched: SatelliteService.ImagesResult,
                                  modelPresent: bool, now: string, saveError: Option<string>)
    : (r: Response<Comparison>)
    ensures !serviceAvailable ==> r == HttpError(500, "Satellite service not available")
    ensures serviceAvailable && fetched.ImagesFailed? ==>
      r == HttpError(500, "Satellite analysis failed: " + HttpExceptionText(400, fetched.error))
    ensures serviceAvailable && fetched.ImagesFound? && saveError.Some? ==>
      r == HttpError(500, "Satellite analysis failed: " + saveError.value)
    ensures r.Ok? <==> serviceAvailable && fetched.ImagesFound? && saveError.None?
    ensures r.Ok? ==>
      && r.body.satelliteData == fetched.images
      && r.body.location == fetched.location
      && r.body.dateRange == fetched.dateRange
      && r.body.aiAnalysis == (if modelPresent then SampleSatelliteAnalysis else ModelNotAvailable)
  {
    if !serviceAvailable then HttpError(500, "Satellite service not available")
    else
      match fetched
      case ImagesFailed(err) =>
        HttpError(500, "Satellite analysis failed: " + HttpExceptionText(400, err))
      case ImagesFound(images, location, dateRange) =>
        var ai := if modelPresent then SampleSatelliteAnalysis else ModelNotAvailable;
        match saveError
        case Some(m) => HttpError(500, "Satellite analysis failed: " + m)
        case None => Ok(Comparison(now, location, dateRange, images, ai, "Satellite comparison completed"))
  }

  /** The compare endpoint never answers 400: every failure is a 500. */
  lemma CompareFailuresAre500(serviceAvailable: bool, fetched: SatelliteService.ImagesResult,
                              modelPresent: bool, now: string, saveError: Option<string>)
    ensures var r := CompareSatelliteImages(serviceAvailable, fetched, modelPresent, now, saveError);
      r.HttpError? ==> r.status == 500
  {
  }

  // ----- /satellite/predict -----

  /** The change analysis the endpoint always passes on. */
  const FixedChangeAnalysis := SatelliteService.ChangeAnalysis(
    Some(15.5), Some([SatelliteService.Deforestation, SatelliteService.Urbanization]))

  datatype ImpactReport = ImpactReport(
    timestamp: string,
    location: SatelliteService.Location,
    analysisPeriod: SatelliteService.DateRange,
    predictionPeriod: string,
    currentChanges: SatelliteService.ChangeAnalysis,
    futurePredictions: SatelliteService.Prediction,
    recommendations: seq<string>)

  /**
   * `/satellite/predict`: whatever the images, the prediction is made from the
   * fixed change analysis, so the risk is always MODERATE with the
   * deforestation and urbanization advice.
   */
  method PredictFutureImpact(serviceAvailable: bool, fetched: SatelliteService.ImagesResult,
                             startDate: string, endDate: string, timePeriod: string, now: string)
    returns (r: Response<ImpactReport>)
    ensures !serviceAvailable ==> r == HttpError(500, "Satellite service not available")
    ensures serviceAvailable && fetched.ImagesFailed? ==>
      r == HttpError(500, "Prediction failed: " + HttpExceptionText(400, fetched.error))
    ensures r.Ok? <==> serviceAvailable && fetched.ImagesFound?
    ensures r.Ok? ==>
      && r.body.location == fetched.location
      && r.body.analysisPeriod == SatelliteService.DateRange(startDate, endDate)
      && r.body.predictionPeriod == timePeriod
      && r.body.currentChanges == FixedChangeAnalysis
      && r.body.futurePredictions.timePeriod == timePeriod
      && r.body.futurePredictions.riskLevel == SatelliteService.Moderate
      && r.body.futurePredictions.predictions
         == [SatelliteService.DeforestationPrediction, SatelliteService.UrbanizationPrediction]
      && r.body.recommendations
         == [SatelliteService.DeforestationAdvice, SatelliteService.UrbanizationAdvice]
      && r.body.recommendations == r.body.futurePredictions.recommendations
  {
    if !serviceAvailable {
      return HttpError(500, "Satellite service not available");
    }
    match fetched
    case ImagesFailed(err) =>
      r := HttpError(500, "Prediction failed: " + HttpExceptionText(400, err));
    case ImagesFound(_, location, _) =>
      var p := SatelliteService.PredictFutureImpact(FixedChangeAnalysis, timePeriod);
      FixedAdvice();
      r := Ok(ImpactReport(now, location, SatelliteService.DateRange(startDate, endDate), timePeriod,
                           FixedChangeAnalysis, p, p.recommendations));
  }

  /** The advice the fixed change types produce. */
  lemma FixedAdvice()
    ensures SatelliteService.Risk(15.5) == SatelliteService.Moderate
    ensures SatelliteService.AdviceFor([SatelliteService.Deforestation, SatelliteService.Urbanization])
      == [(SatelliteService.DeforestationPrediction, SatelliteService.DeforestationAdvice),
          (SatelliteService.UrbanizationPrediction, SatelliteService.UrbanizationAdvice)]
  {
    var types := [SatelliteService.Deforestation, SatelliteService.Urbanization];
    assert SatelliteService.Advice(types[0])
      == Some((SatelliteService.DeforestationPrediction, SatelliteService.DeforestationAdvice));
    assert SatelliteService.Advice(types[1])
      == Some((SatelliteService.UrbanizationPrediction, SatelliteService.UrbanizationAdvice));
    assert types[..1] == [types[0]] && types[..1][..0] == [];
    assert SatelliteService.AdviceFor(types[..1])
      == [(SatelliteService.DeforestationPrediction, SatelliteService.DeforestationAdvice)];
  }
}
