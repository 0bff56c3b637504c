# EcoScope in Dafny

EcoScope is an environmental-monitoring system in three parts:

- a Python backend that segments satellite images, reports changes and keeps SOS contacts and alerts;
- a Kotlin Android app, `com.himanshu.ecoscope`, with Firebase sign-up and login and three analysis screens (glacial lakes, drainage, home dashboard);
- a second Kotlin app, `com.mansi.ecoscope_frontend`, with a dashboard, a road-network screen, view-models that call the backend, weather and SMS-based SOS.

This project models the deterministic logic under the image processing, network calls and UI layout, and proves that logic's properties. The logic covers:

- the backend's rule engines: impact levels, recommendations, change classification, risk prediction, mask reasons, area conversion, reverse-geocode classification, the cloud mask and the date window;
- the HTTP layer's error mapping, keyword filters and history selection;
- the SOS contact registry and its bounded alert history;
- the Android authentication repository, its view-model and the sign-up and login forms;
- the input checks and state updates of the analysis screens, the dashboards and the five fetching view-models;
- SOS SMS construction and the Firestore contact store.

Each foreign call becomes a parameter:

- a network, Firebase or Twilio outcome is a value or a datatype of outcomes;
- `toDoubleOrNull` is `string -> Option<real>`;
- `Double.toString` is `real -> string`;
- `Patterns.EMAIL_ADDRESS` matching is a `bool`;
- the clock is an `int` or a `string`.

State that the source updates in place becomes class fields, and the methods on it carry `modifies` clauses:

- the SOS service's two JSON files;
- the authentication repository's accounts, session and profiles;
- view-model fields;
- screen state;
- the per-user contacts collection.

Code written as expressions becomes functions. Each function is related by lemmas to an independent statement of what it computes.

Files and modules:

- `common.dfy`: `Wrappers` (Option and the outcome of a call that may throw); `Strings` (Kotlin-style blank and trim, ASCII lower and upper case, split, substring search, decimal digits); `Numeric` (Python's `round` to 2 and 4 places).
- `ecoscope_model.dfy`, `keyword_filter.dfy`, `api.dfy`: `backend/ecoscope_model.py` and `backend/app.py`.
- `satellite_service.dfy`, `sos_service.dfy`, `reverse_geo.dfy`, `download_img.dfy`: the backend services of those names.
- `mask_utils.dfy`, `predict.dfy`: `scripts/utlis.py` and `scripts/predict.py`.
- `user.dfy`, `auth_repository.dfy`, `auth_view_model.dfy`, `login_screen.dfy`, `sign_up_screen.dfy`: the authentication layer of the first app.
- `analyze_api.dfy`, `drainage_view_model.dfy`, `glacial_screen.dfy`, `drainage_screen.dfy`, `contact_list.dfy`, `dashboard_screen.dfy`: the analysis screens and the home dashboard of the first app.
- `frontend_api.dfy`: the response records of the second app and the spinner, error, data and placeholder precedence its panels share.
- `ai_view_model.dfy`, `satellite_compare_view_model.dfy`, `app_view_model.dfy`, `sos_view_model.dfy`, `firebase_helper.dfy`, `road_screen.dfy`, `frontend_dashboard.dfy`: the second app.

## Model


| member | source | states |
|---|---|---|
| Numeric.Round2 | scripts/utlis.py:6 | `round(x, 2)` is a multiple of 0.01 within 0.005 of x, and on a tie the even multiple |
| Numeric.RoundHalfEven | scripts/utlis.py:6 | the integer within 0.5 of y, and on a tie the even one |
| Numeric.RoundHalfEvenUnique | scripts/utlis.py:6 | those two properties determine the rounded integer: any integer with both is it |
| Numeric.Round2Unique | scripts/utlis.py:6 | any multiple of 0.01 within 0.005 of x, even on a tie, is `round(x, 2)` |
| Numeric.Round4 | scripts/predict.py:24 | `round(x, 4)` is a multiple of 0.0001 within 0.00005 of x, and on a tie the even multiple |
| Strings.SplitCount | EcoScope/app/src/main/java/com/himanshu/ecoscope/ui/screens/GlacialScreen.kt:180 | `split` gives one more part than there are delimiters |
| Strings.SplitJoin | EcoScope/app/src/main/java/com/himanshu/ecoscope/ui/screens/GlacialScreen.kt:180 | joining the parts with the delimiter gives back the input |
| Strings.SplitPair | EcoScope/app/src/main/java/com/himanshu/ecoscope/ui/screens/GlacialScreen.kt:180-181 | "a,b" without further commas splits into exactly [a, b] |
| EcoScopeModel.AssessImpactLevel | backend/ecoscope_model.py:187-196 | CRITICAL iff area > 50 or intensity > 70; at least HIGH iff area > 30 or intensity > 50; at least MODERATE iff area > 15 or intensity > 30 |
| EcoScopeModel.ImpactMonotone | backend/ecoscope_model.py:187-196 | raising either measurement never lowers the level |
| EcoScopeModel.LargeComponentsMembers | backend/ecoscope_model.py:127-131 | the kept component areas are exactly the areas above 100, and there are no more of them than components |
| EcoScopeModel.LargeComponentsNonEmpty | backend/ecoscope_model.py:127-131 | some area is kept iff some component is above 100 |
| EcoScopeModel.LargeComponents | backend/ecoscope_model.py:127-131 | only areas above 100 are kept, and no more of them than components |
| EcoScopeModel.DetectGlaciers | backend/ecoscope_model.py:119-138 | the glacier count is the number of areas above 100, the total is their sum, detected iff one exists, melting iff the mean prediction > 0.7 |
| EcoScopeModel.DetectDrainageSystems | backend/ecoscope_model.py:140-156 | detected iff linear features > 50; complexity high iff > 100, low iff not detected; density is the percentage of pixels |
| EcoScopeModel.DetectRoadNetworks | backend/ecoscope_model.py:158-173 | detected iff road pixels > 100; dense iff > 200, so dense implies detected; density is the percentage of pixels |
| EcoScopeModel.DetectEnvironmentalChanges | backend/ecoscope_model.py:175-185 | deforestation iff upper mean > 0.6, urbanization iff lower mean > 0.5, vegetation loss iff mean > 0.6, water as a percentage of pixels |
| EcoScopeModel.GenerateRecommendations | backend/ecoscope_model.py:198-218 | the appended list equals the four conditional pairs in order, has twice as many entries as conditions that hold, and is empty iff all are quiet |
| EcoScopeModel.Recommendations | backend/ecoscope_model.py:198-218 | two recommendations per triggered condition; empty iff the level is LOW or MODERATE and no feature is detected |
| EcoScopeModel.RecommendationsMembers | backend/ecoscope_model.py:198-218 | each of the eight texts is present iff its condition holds |
| EcoScopeModel.AnalyzeFeatures | backend/ecoscope_model.py:90-117 | the analysis is stamped with the given time; area and intensity are `Round2` of the exact percentages, and the level is assessed on the unrounded ones; the glacier count, total area, detection and melting flag, the drainage, road and environmental-change reports are the detectors' results; the recommendations are those of the assessed level |
| EcoScopeModel.AnalyzeEnvironmentalChanges | backend/ecoscope_model.py:67-88 | "Model not loaded" without a model, "Failed to preprocess image" without an image, otherwise the full analysis of the prediction, with every field as for AnalyzeFeatures |
| KeywordFilter.FilterRecsSpec | backend/app.py:123-124 | a filter keeps exactly the recommendations whose lower-cased text mentions a keyword, as a subsequence of the input |
| KeywordFilter.FilterRecsAppend | backend/app.py:123-124 | filtering a concatenation filters each part |
| KeywordFilter.MentionsGlacierWater | backend/app.py:123-124 | among the eight recommendation texts, only the two glacier texts mention "glacier" or "water" |
| KeywordFilter.MentionsDrainageFlooding | backend/app.py:147-148 | only the two drainage texts mention "drainage" or "flooding" |
| KeywordFilter.MentionsInfrastructureHabitat | backend/app.py:171-172 | the drainage review and both road texts mention "infrastructure" or "habitat" |
| KeywordFilter.GlacierFilter | backend/app.py:123-124 | the glacier endpoint keeps exactly the glacier pair, and only when glaciers are detected |
| KeywordFilter.DrainageFilter | backend/app.py:147-148 | the drainage endpoint keeps exactly the drainage pair |
| KeywordFilter.RoadFilter | backend/app.py:171-172 | the roads endpoint keeps the road pair, and also "Review urban drainage infrastructure" whenever drainage is detected |
| Api.AnalyzeEnvironmental | backend/app.py:81-106 | as evidently intended (see Findings): 500 "Model not loaded" first, then 400 for a non-`image/` content type, then the analysis or 500 "Analysis failed: ..." |
| Api.AnalyzeFeature | backend/app.py:108-178 | as evidently intended (see Findings): 500 "Model not loaded"; an error result fails with 500 "... analysis failed: 'timestamp'"; a success carries the endpoint's own feature block (glaciers, drainage systems or road networks), the timestamp, the level and the filtered recommendations |
| Api.AnalyzeEnvironmentalAsWritten | backend/app.py:81-106 | as written: a completed analysis fails with 500 "Analysis failed: Object of type ... is not JSON serializable"; only an error result is answered Ok; every other case as AnalyzeEnvironmental |
| Api.AnalyzeFeatureAsWritten | backend/app.py:108-178 | as written: every answer is a 500, and a completed analysis gives "... analysis failed: Object of type ... is not JSON serializable" |
| Api.SerializationFinding | backend/app.py:103 | for every analysis the model produces from an image, the endpoints as written answer 500 while the intended ones answer the analysis and the feature report |
| Api.FeatureRecommendations | backend/app.py:120-126 | as evidently intended (see Findings): each endpoint returns its own pair of the model's list, as a subsequence of it |
| Api.AnalysisFilesMembers | backend/app.py:205 | the candidate files are exactly the listed names starting with "analysis_results_" |
| Api.AnalysisFiles | backend/app.py:205 | never more candidates than listed names |
| Api.InsertSpec | backend/app.py:206 | inserting into a descending list keeps it descending, with the same elements plus one |
| Api.SortDescSpec | backend/app.py:206 | the sort gives a descending permutation of its input |
| Api.SortDesc | backend/app.py:206 | the sorted list holds the same names with the same multiplicities |
| Api.Insert | backend/app.py:206 | insertion adds exactly the new name to the multiset of names |
| Api.GetAnalysisHistory | backend/app.py:201-225 | a failed listing gives 500 "Failed to get history: ..."; otherwise the entries of the readable files among the first ten of the sorted names |
| Api.EntriesSpec | backend/app.py:209-220 | one entry per readable file, with the `data.get` defaults, and no more entries than files |
| Api.EntriesOrdered | backend/app.py:209-220 | the entries keep the files' order, so descending names give descending entries |
| Api.Entries | backend/app.py:209-220 | never more entries than files |
| Api.HistorySelection | backend/app.py:205-220 | at most ten entries, all from result files, newest name first, exactly the readable ones of the ten greatest names, every omitted name below every chosen one |
| Api.CompareSatelliteImages | backend/app.py:229-275 | 500 "Satellite service not available" without the service; an unsuccessful fetch's 400 is caught and re-raised as 500 "Satellite analysis failed: 400: ..."; a failed save gives the same prefix with its message; otherwise Ok, echoing the images, location and dates |
| Api.HttpExceptionText | backend/app.py:247-275 | `str()` of the caught 400 `HTTPException`: the status in decimal, ": ", then the detail; the status digits read back as the status and the rest is the detail |
| Api.CompareFailuresAre500 | backend/app.py:240-275 | the compare endpoint's only error status is 500 |
| Api.PredictFutureImpact | backend/app.py:277-322 | 500 "Satellite service not available", or 500 "Prediction failed: 400: ..." for an unsuccessful fetch; otherwise Ok with the location, both periods and the fixed change analysis (15.5 %, deforestation and urbanization), hence MODERATE risk and those two pieces of advice |
| Api.FixedAdvice | backend/app.py:299-307 | risk 15.5 is MODERATE and the fixed types give exactly the deforestation and urbanization advice |
| SatelliteService.GetSatelliteImages | backend/satellite_service.py:22-56 | a source's key is present iff its fetch returned a non-empty list, with that list; location and dates are echoed |
| SatelliteService.ClassifyChanges | backend/satellite_service.py:209-231 | the appended labels are never empty and are ["minor_environmental_changes"] iff no threshold fires |
| SatelliteService.ChangeLabels | backend/satellite_service.py:209-231 | one to three labels; the fallback label stands alone exactly when no strict threshold fires |
| SatelliteService.ClassifyOrdered | backend/satellite_service.py:213-226 | at most one label per dimension, in the order vegetation, water, urban |
| SatelliteService.ClassifyThresholds | backend/satellite_service.py:213-226 | each label is present iff its strict threshold fires: > 50, < -30, > 40, < -40, > 60, < -50 |
| SatelliteService.Risk | backend/satellite_service.py:284-288 | HIGH iff > 20, LOW iff <= 10, MODERATE otherwise |
| SatelliteService.PredictFutureImpact | backend/satellite_service.py:271-315 | the period is echoed, a missing percentage counts as 0, missing types as none; the predictions and recommendations are the known types' pairs in order |
| SatelliteService.AdviceLockstep | backend/satellite_service.py:290-306 | predictions and recommendations have equal length, one per known change type, each pair belonging to a type of the input |
| SatelliteService.AdviceIgnoresUnknown | backend/satellite_service.py:290-306 | a change type without advice adds nothing |
| SatelliteService.AdviceFor | backend/satellite_service.py:290-306 | one pair per known change type, never more than the types |
| MaskUtils.CountNonzero | scripts/utlis.py:4 | the number of changed pixels is at most the mask's size |
| MaskUtils.PercentBounds | scripts/utlis.py:3-6 | the rounded percentage is within 0.005 of the exact share and lies in [0, 100] |
| MaskUtils.ChangedPercent | scripts/utlis.py:3-6 | the rounded percentage lies in [0, 100] within 0.005 of the exact share |
| MaskUtils.GetChangeArea | scripts/utlis.py:3-6 | a result iff the mask is non-empty, lying in [0, 100] |
| MaskUtils.ChangeAreaBounds | scripts/utlis.py:3-6 | a result exists iff the mask is non-empty, and it lies in [0, 100] |
| MaskUtils.ChangeAreaMonotone | scripts/utlis.py:3-6 | more changed pixels in a mask of the same size never give a smaller area |
| MaskUtils.PercentMonotone | scripts/utlis.py:3-6 | the rounded percentage never falls as the changed count grows in a mask of the same size |
| MaskUtils.UniqueSpec | scripts/utlis.py:9 | `np.unique` lists each value of the mask once, ascending |
| MaskUtils.Unique | scripts/utlis.py:9 | exactly the mask's values, no more of them than pixels |
| MaskUtils.InsertUniqueSpec | scripts/utlis.py:9 | inserting into a strictly ascending list keeps it strictly ascending, with the value added |
| MaskUtils.UniqueIndex | scripts/utlis.py:9 | every mask value has a position in the unique list, and the first entry is the smallest value |
| MaskUtils.FirstMaxSpec | scripts/utlis.py:12 | argmax picks the largest count, and every earlier index has a strictly smaller one |
| MaskUtils.NoChangeIffUniform | scripts/utlis.py:9-11 | at most one distinct value iff all pixels are equal |
| MaskUtils.MainClassSpec | scripts/utlis.py:9-12 | the chosen class is not the smallest value; it has the highest count among the rest, and ties go to the smaller value |
| MaskUtils.MainClass | scripts/utlis.py:9-12 | the chosen class is a value of the mask above the smallest one |
| MaskUtils.MainClassMost | scripts/utlis.py:12 | no value other than the smallest is more frequent than the chosen class |
| MaskUtils.MainClassFirst | scripts/utlis.py:12 | every value between the smallest and the chosen class is strictly less frequent |
| MaskUtils.ImpactOfMask | scripts/utlis.py:13-28 | an impact other than "No major impact" is reported iff the mask has a change whose main class is 1 to 4 |
| MaskUtils.GetReason | scripts/utlis.py:8-19 | "No change" iff the mask has at most one distinct value |
| MaskUtils.GetImpact | scripts/utlis.py:21-28 | "No major impact" iff the reason is none of the four mapped reasons |
| Predict.BinaryMask | scripts/predict.py:41 | a pixel is 255 iff its prediction is > 0.5, else 0 |
| Predict.CountSet | scripts/predict.py:22 | the changed pixels are no more than the mask |
| Predict.CountSetOfBinaryMask | scripts/predict.py:22-41 | the pixels set in the mask are exactly the predictions above 0.5 |
| Predict.CalculateAreaChange | scripts/predict.py:20-24 | the area is non-negative and within 0.00005 of the changed pixels times the pixel area |
| Predict.AreaAtDefaultResolution | scripts/predict.py:20-24 | at 10 m every changed pixel is 0.0001 km², and no changed pixel gives 0 |
| Predict.PixelsAtDefaultResolution | scripts/predict.py:20-24 | before rounding, the area at 10 m is pixels / 10000 km² |
| Predict.PixelsMonotone | scripts/predict.py:20-24 | at any resolution, more pixels never give a smaller unrounded area |
| Predict.AreaMonotone | scripts/predict.py:20-24 | more changed pixels never give a smaller area |
| Predict.ClassifyBands | scripts/predict.py:26-32 | "Glacial Lake Expansion" iff area > 2, "Urban Drainage Shift" iff 0.5 < area <= 2, "Road Network Extension" otherwise; two measures each |
| Predict.ClassifyMonotone | scripts/predict.py:26-32 | the class never falls as the area grows |
| Predict.ClassifyByPixels | scripts/predict.py:20-32 | the class in terms of changed pixels at 10 m: more than 20000 and more than 5000 |
| Predict.ClassifyChangeType | scripts/predict.py:26-32 | one of the three classes, each with two measures |
| Predict.PredictionResultShape | scripts/predict.py:73-81 | change_detected is true, the coordinates are echoed, and type, impact and measures come from the area's class |
| Predict.PredictionReason | scripts/predict.py:79 | the suspected reason is "Likely " + the lower-cased type + " in region" |
| Predict.PredictSingleImage | scripts/predict.py:34-81 | change detected, the coordinates echoed, type, impact and measures from the class of the reported area, and the reason built from the type |
| ReverseGeo.LowerField | backend/reverse_geo.py:13-15 | an absent field is "", a string is lower-cased, a non-string raises |
| ReverseGeo.GetAreaType | backend/reverse_geo.py:3-25 | the answer is always "glacial", "urban" or "rural" |
| ReverseGeo.FailuresAreRural | backend/reverse_geo.py:23-25 | a failed request, or a field whose lowering raises, gives "rural" |
| ReverseGeo.ClassifyCases | backend/reverse_geo.py:17-22 | "glacial" iff "glacier" is in the name or type; "urban" iff not, and "city"/"town" in the type or "urban" in the name; else "rural" |
| ReverseGeo.Classify | backend/reverse_geo.py:17-22 | one of the three names, and "glacial" iff "glacier" is in the name or the type |
| ReverseGeo.FetchedClassification | backend/reverse_geo.py:12-22 | a readable reply is classified on its lower-cased type and display name |
| ReverseGeo.CategoryIgnored | backend/reverse_geo.py:13 | the category's value never matters, only whether it can be lowered |
| ReverseGeo.GlacierPrecedence | backend/reverse_geo.py:17-20 | a glacier mention wins over every urban mention |
| ReverseGeo.CaseInsensitive | backend/reverse_geo.py:13-19 | an upper-case reply is classified like its lower-case form |
| DownloadImg.KeepPixel | backend/download_img.py:8-13 | a pixel is kept iff QA60 bits 10 and 11 are both 0 |
| DownloadImg.EitherBitMasks | backend/download_img.py:10-12 | setting either bit masks the pixel |
| DownloadImg.OtherBitsIrrelevant | backend/download_img.py:10-12 | the other fourteen bits never matter |
| DownloadImg.OrdinalBounds | backend/download_img.py:32-34 | a valid date's day number lies within its year, between 1 and the day number of 9999-12-31 |
| DownloadImg.AddDaysForward | backend/download_img.py:34 | adding k >= 0 days succeeds iff the day number stays at most that of 9999-12-31, and moves it by k |
| DownloadImg.AddDaysBackward | backend/download_img.py:33 | subtracting days succeeds iff the day number stays at least 1, and moves it by k |
| DownloadImg.OrdinalInjective | backend/download_img.py:32-34 | different valid dates have different day numbers |
| DownloadImg.AddDaysSpec | backend/download_img.py:33-34 | adding k days succeeds iff the result stays in years 1..9999, and moves the day number by k |
| DownloadImg.AddDays | backend/download_img.py:33-34 | a result is a valid date |
| DownloadImg.ParseDate | backend/download_img.py:15-16 | a parsed date is a valid calendar date |
| DownloadImg.MonthToken | backend/download_img.py:15-16 | a month field is one or two digits in 1..12 followed by '-' |
| DownloadImg.DayToken | backend/download_img.py:15-16 | a day field is one or two digits in 1..31 |
| DownloadImg.ParseFormatRoundTrip | backend/download_img.py:15-34 | a formatted date with a four-digit year parses back to itself |
| DownloadImg.ParseShortFields | backend/download_img.py:15-16 | single-digit month and day are accepted |
| DownloadImg.ParseLeapDay | backend/download_img.py:15-16 | February 29th parses in a leap year |
| DownloadImg.ParseNonLeapDay | backend/download_img.py:15-16 | February 29th is refused in a common year |
| DownloadImg.ParseShortYear | backend/download_img.py:15-16 | a two-digit year does not match `%Y` |
| DownloadImg.SearchWindow | backend/download_img.py:24-34 | both ends of the window are valid dates |
| DownloadImg.WindowSymmetric | backend/download_img.py:24-34 | when it exists, the window runs from target − tol to target + tol days, 2·tol wide |
| DownloadImg.SearchOutcomes | backend/download_img.py:44-52 | no images raise the "No Sentinel‑2 images found" error, an image without bands raises the invalid-image error, otherwise the export proceeds |
| DownloadImg.NoImagesNamesCoordinates | backend/download_img.py:44-48 | the empty-search message starts with the coordinates as written |
| DownloadImg.DownloadOutcomes | backend/download_img.py:18-52 | with valid inputs, the search runs over the window around the parsed date |
| DownloadImg.ExportedWindowReadsBack | backend/download_img.py:33-34 | the window's formatted ends parse back as its ends |
| DownloadImg.DownloadImage | backend/download_img.py:18-52 | the download stops before any search iff a coordinate does not parse or the date is malformed; an export needs an image with bands |
| SosService.AddContact | backend/sos_service.py:57-69 | one contact appended with id = previous length + 1 and the given fields; the rest is unchanged |
| SosService.WithoutIdContents | backend/sos_service.py:71-77 | every contact with the id goes, every other one stays with its multiplicity |
| SosService.WithoutIdAppend | backend/sos_service.py:71-77 | removal keeps the survivors' order |
| SosService.WithoutAbsentId | backend/sos_service.py:71-77 | removing an id nobody carries changes nothing |
| SosService.WithoutId | backend/sos_service.py:71-77 | removal never adds contacts |
| SosService.IdCollision | backend/sos_service.py:60-76 | add, add, remove(1), add leaves two contacts with id 2, and remove(2) deletes both |
| SosService.ServiceFor | backend/sos_service.py:113-122 | the listed service is one of the default services |
| SosService.ServiceCases | backend/sos_service.py:113-122 | medical gives ambulance, fire gives fire, crime gives police, everything else disaster_management |
| SosService.Notified | backend/sos_service.py:105-111 | no more names than contacts |
| SosService.NoGatewayNoneNotified | backend/sos_service.py:144-146 | without a Twilio client nobody is notified |
| SosService.NotifiedAppend | backend/sos_service.py:105-111 | notification goes contact by contact, in order |
| SosService.NotifiedAreDelivered | backend/sos_service.py:105-111 | each notified name belongs to a contact whose SMS went out |
| SosService.AllDelivered | backend/sos_service.py:105-111 | when every SMS goes out, every contact is named, in order |
| SosService.AlertText | backend/sos_service.py:171 | an empty message becomes "Emergency assistance needed!" |
| SosService.CreateSosMessage | backend/sos_service.py:167-185 | the SMS starts with the SOS heading and ends with the footer |
| SosService.SosMessageType | backend/sos_service.py:177 | the SMS names the alert type upper-cased |
| SosService.SosMessageText | backend/sos_service.py:171-178 | the SMS carries the user's text, or the stock sentence when it is empty |
| SosService.KeepLast | backend/sos_service.py:200-202 | the last `cap` items, and all of them when there are fewer |
| SosService.HistoryAfterSave | backend/sos_service.py:198-202 | after a save the history holds at most 100 alerts, ends with the new one and keeps its order |
| SosService.HistorySliceCases | backend/sos_service.py:218 | `alerts[-limit:]`: the last `limit` for a positive limit, everything for 0, Python's slice for a negative one |
| SosService.HistorySlice | backend/sos_service.py:218 | a suffix of the history; for a positive limit, exactly the last `limit` alerts or all of them |
| SosService.AlertId | backend/sos_service.py:92 | the id starts with "sos_" |
| SosService.SosService.constructor | backend/sos_service.py:12-47 | a missing contacts file gives no contacts and the default services; a stored one is loaded as it is; an unreadable one leaves both empty; the stored history is kept |
| SosService.SosService.AddEmergencyContact | backend/sos_service.py:57-69 | the stored list gains the new contact at its end, numbered by the old length, with relationship "Emergency Contact" when none is given |
| SosService.SosService.RemoveEmergencyContact | backend/sos_service.py:71-77 | the stored list keeps exactly the contacts with another id |
| SosService.SosService.GetEmergencyContacts | backend/sos_service.py:79-81 | the stored contacts |
| SosService.SosService.GetEmergencyServices | backend/sos_service.py:225-227 | the stored services |
| SosService.SosService.SendSmsAlert | backend/sos_service.py:142-165 | true iff a client is configured and the SMS built by CreateSosMessage goes out |
| SosService.SosService.SaveAlertHistory | backend/sos_service.py:187-208 | append, then keep the last 100 |
| SosService.SosService.GetAlertHistory | backend/sos_service.py:210-223 | the `limit` slice of the history |
| SosService.SosService.SendSosAlert | backend/sos_service.py:83-140 | the alert is recorded in the history, the notified names are those whose SMS went out, and the one service is named by the alert type |
| UserModel.TimeValue | EcoScope/app/src/main/java/com/himanshu/ecoscope/user.kt:27-28 | a set date is stored as a time, a missing one as null |
| UserModel.ToMap | EcoScope/app/src/main/java/com/himanshu/ecoscope/user.kt:19-30 | exactly the eight keys, each holding its field's value |
| UserModel.ToMapInjective | EcoScope/app/src/main/java/com/himanshu/ecoscope/user.kt:19-30 | two users with the same map are the same user |
| AuthRepo.GetString | EcoScope/app/src/main/java/com/himanshu/ecoscope/FirebaseAuth.kt:76-81 | null for an absent or null field, the text of a string field, a raise for a field of another type |
| AuthRepo.GetDate | EcoScope/app/src/main/java/com/himanshu/ecoscope/FirebaseAuth.kt:82-83 | the same for dates |
| AuthRepo.DecodeToMap | EcoScope/app/src/main/java/com/himanshu/ecoscope/FirebaseAuth.kt:75-84 | decoding a written map gives back the user, with each missing date replaced by now |
| AuthRepo.DecodeToMapStamped | EcoScope/app/src/main/java/com/himanshu/ecoscope/FirebaseAuth.kt:75-84 | with both dates set, decoding gives back exactly the user |
| AuthRepo.DecodeEmpty | EcoScope/app/src/main/java/com/himanshu/ecoscope/FirebaseAuth.kt:75-84 | an empty document decodes to empty texts, "English" and now |
| AuthRepo.DecodeFails | EcoScope/app/src/main/java/com/himanshu/ecoscope/FirebaseAuth.kt:75-84 | decoding fails iff one of the eight fields has the wrong type |
| AuthRepo.DecodeUser | EcoScope/app/src/main/java/com/himanshu/ecoscope/FirebaseAuth.kt:75-84 | a decoded user has both dates set, and "English" when the language is absent |
| AuthRepo.NewUser | EcoScope/app/src/main/java/com/himanshu/ecoscope/FirebaseAuth.kt:41-50 | the new profile has the account's uid and both dates set to now |
| AuthRepo.PasswordNotStored | EcoScope/app/src/main/java/com/himanshu/ecoscope/FirebaseAuth.kt:41-52 | the stored map does not depend on the password |
| AuthRepo.SignUpReadsBack | EcoScope/app/src/main/java/com/himanshu/ecoscope/FirebaseAuth.kt:52-84 | the profile sign-up writes reads back as the user it returned |
| AuthRepo.AuthRepository.constructor | EcoScope/app/src/main/java/com/himanshu/ecoscope/FirebaseAuth.kt:17-20 | the repository starts from the given accounts, session and profiles |
| AuthRepo.AuthRepository.SignUp | EcoScope/app/src/main/java/com/himanshu/ecoscope/FirebaseAuth.kt:32-60 | a raise gives its message or "Unknown signup error"; a null user gives "User creation failed"; otherwise the account exists and is signed in, and a successful write stores the profile; a failed write leaves no profile |
| AuthRepo.AuthRepository.SignIn | EcoScope/app/src/main/java/com/himanshu/ecoscope/FirebaseAuth.kt:63-95 | a raise gives its message or "Login error"; a null user "Firebase auth failed"; a missing profile "User data not found in Firestore"; otherwise the decoded user |
| AuthRepo.AuthRepository.SignOut | EcoScope/app/src/main/java/com/himanshu/ecoscope/FirebaseAuth.kt:98-105 | true and no session, or false and the session unchanged |
| AuthRepo.AuthRepository.GetCurrentUserData | EcoScope/app/src/main/java/com/himanshu/ecoscope/FirebaseAuth.kt:108-129 | the current user's decoded profile |
| AuthRepo.AuthRepository.CurrentUserData | EcoScope/app/src/main/java/com/himanshu/ecoscope/FirebaseAuth.kt:108-129 | a user iff there is a session, the read succeeds, the document exists and decodes |
| AuthRepo.AuthRepository.IsUserSignedIn | EcoScope/app/src/main/java/com/himanshu/ecoscope/FirebaseAuth.kt:145-147 | `auth.currentUser != null`: when it is false no user data can be read, whatever the store answers |
| AuthRepo.AuthRepository.UpdateUserData | EcoScope/app/src/main/java/com/himanshu/ecoscope/FirebaseAuth.kt:132-142 | on success the whole document is replaced by the user with updatedAt set to now; on failure nothing changes |
| AuthRepo.UpdateReadsBack | EcoScope/app/src/main/java/com/himanshu/ecoscope/FirebaseAuth.kt:132-142 | an update reads back as the user stamped with the update time |
| AuthViewModel.SignUpRequestOf | EcoScope/app/src/main/java/com/himanshu/ecoscope/FirestoreViewModel.kt:64-71 | the language and the password are passed as typed |
| AuthViewModel.LoginRequestOf | EcoScope/app/src/main/java/com/himanshu/ecoscope/FirestoreViewModel.kt:89-92 | the password is passed as typed |
| AuthViewModel.SignUpPaddingIgnored | EcoScope/app/src/main/java/com/himanshu/ecoscope/FirestoreViewModel.kt:64-71 | padding around the four trimmed fields does not change the request |
| AuthViewModel.SignUpRequestTrimmed | EcoScope/app/src/main/java/com/himanshu/ecoscope/FirestoreViewModel.kt:64-71 | the trimmed fields have no whitespace at their ends |
| AuthViewModel.LoginPaddingIgnored | EcoScope/app/src/main/java/com/himanshu/ecoscope/FirestoreViewModel.kt:89-92 | padding around the email does not change the request |
| AuthViewModel.IsSignedOutNotice | EcoScope/app/src/main/java/com/himanshu/ecoscope/ui/screens/LoginScreen.kt:58 | the two signed-out messages that the login and sign-up screens hide; every fixed failure text of the repository and the view-model is not one of them, so it is shown |
| AuthViewModel.IsValidPassword | EcoScope/app/src/main/java/com/himanshu/ecoscope/FirestoreViewModel.kt:128-130 | `length >= 6` in UTF-16 code units: six characters always pass, fewer than three never do |
| AuthViewModel.IsValidPhoneNumber | EcoScope/app/src/main/java/com/himanshu/ecoscope/FirestoreViewModel.kt:132-134 | `length >= 10` in UTF-16 code units: ten characters always pass, fewer than five never do |
| AuthViewModel.ValidatorsOnBmp | EcoScope/app/src/main/java/com/himanshu/ecoscope/FirestoreViewModel.kt:128-134 | without characters above U+FFFF the two checks are exactly "at least 6" and "at least 10" characters |
| AuthViewModel.PasswordsMatch | EcoScope/app/src/main/java/com/himanshu/ecoscope/FirestoreViewModel.kt:136-138 | Kotlin `==` on strings: the same length and the same character at every position |
| Strings.Utf16Length | EcoScope/app/src/main/java/com/himanshu/ecoscope/FirestoreViewModel.kt:128-134 | Kotlin's `length`: between the number of characters and twice it |
| Strings.Utf16LengthBmp | EcoScope/app/src/main/java/com/himanshu/ecoscope/FirestoreViewModel.kt:128-134 | without characters above U+FFFF it is the number of characters |
| Strings.Utf16LengthAstral | EcoScope/app/src/main/java/com/himanshu/ecoscope/FirestoreViewModel.kt:128-134 | with only characters above U+FFFF it is twice the number of characters |
| AuthViewModel.AstralPasswordAccepted | EcoScope/app/src/main/java/com/himanshu/ecoscope/FirestoreViewModel.kt:128-130 | a password of three characters above U+FFFF is six code units long and passes the check |
| AuthViewModel.AuthViewModel.constructor | EcoScope/app/src/main/java/com/himanshu/ecoscope/FirestoreViewModel.kt:20-29 | Loading, not loading, no user |
| AuthViewModel.AuthViewModel.CheckAuthState | EcoScope/app/src/main/java/com/himanshu/ecoscope/FirestoreViewModel.kt:36-50 | "User not signed in", "User data not found", or Success with the user set; an error is a hidden signed-out notice exactly when nobody is signed in |
| AuthViewModel.AuthViewModel.SignUp | EcoScope/app/src/main/java/com/himanshu/ecoscope/FirestoreViewModel.kt:53-83 | the state is the repository's result: the raise message or "Unknown signup error" and "User creation failed" leave the repository unchanged; a created account is signed in, and the profile is stored only on a successful write; the user changes only on success; loading ends false |
| AuthViewModel.AuthViewModel.SignIn | EcoScope/app/src/main/java/com/himanshu/ecoscope/FirestoreViewModel.kt:85-104 | a raise gives its message or "Login error" and "Firebase auth failed" keeps the session; otherwise the session is the uid, and the state is the read error, "User data not found in Firestore", the decode error or "Login error", or Success with the decoded user; the user changes only on success; loading ends false |
| AuthViewModel.AuthViewModel.SignOut | EcoScope/app/src/main/java/com/himanshu/ecoscope/FirestoreViewModel.kt:106-117 | on success there is no user and the state is "User signed out"; on failure neither changes |
| AuthViewModel.AuthViewModel.ClearAuthState | EcoScope/app/src/main/java/com/himanshu/ecoscope/FirestoreViewModel.kt:119-121 | the state is Loading |
| LoginScreen.SubmitCases | EcoScope/app/src/main/java/com/himanshu/ecoscope/ui/screens/LoginScreen.kt:290-300 | a blank field gives "Please fill in all fields"; an invalid email "Please enter a valid email address"; signIn is called iff neither applies |
| LoginScreen.Submit | EcoScope/app/src/main/java/com/himanshu/ecoscope/ui/screens/LoginScreen.kt:290-300 | a call passes the typed email and password and needs a valid email; a refusal is one of the two messages |
| LoginScreen.LoginForm.constructor | EcoScope/app/src/main/java/com/himanshu/ecoscope/ui/screens/LoginScreen.kt:43-45 | all fields empty |
| LoginScreen.LoginForm.EditEmail | EcoScope/app/src/main/java/com/himanshu/ecoscope/ui/screens/LoginScreen.kt:190-193 | the email is stored and the error cleared |
| LoginScreen.LoginForm.EditPassword | EcoScope/app/src/main/java/com/himanshu/ecoscope/ui/screens/LoginScreen.kt:239-242 | the password is stored and the error cleared |
| LoginScreen.LoginForm.Press | EcoScope/app/src/main/java/com/himanshu/ecoscope/ui/screens/LoginScreen.kt:290-300 | a refusal shows its message, a call keeps the error |
| LoginScreen.LoginForm.OnAuthState | EcoScope/app/src/main/java/com/himanshu/ecoscope/ui/screens/LoginScreen.kt:51-66 | success proceeds; success and Loading clear the error; "User not signed in" and "User signed out" leave it; any other error is shown |
| LoginScreen.EnabledNeverBlank | EcoScope/app/src/main/java/com/himanshu/ecoscope/ui/screens/LoginScreen.kt:309 | an enabled button never reports a blank field |
| SignUpScreen.SubmitCascade | EcoScope/app/src/main/java/com/himanshu/ecoscope/ui/screens/SignUpScreen.kt:566-588 | the first failing check decides the message (email, password, match, phone), lengths counted in UTF-16 code units as Kotlin does; signUp is called iff all pass, with the untrimmed values |
| SignUpScreen.Submit | EcoScope/app/src/main/java/com/himanshu/ecoscope/ui/screens/SignUpScreen.kt:566-588 | a call passes the typed fields and needs all four checks to pass |
| SignUpScreen.EnabledButRefused | EcoScope/app/src/main/java/com/himanshu/ecoscope/ui/screens/SignUpScreen.kt:559-598 | with a short password the button is enabled but the press is refused |
| SignUpScreen.SignUpForm.constructor | EcoScope/app/src/main/java/com/himanshu/ecoscope/ui/screens/SignUpScreen.kt:39-47 | empty fields and "English" |
| SignUpScreen.SignUpForm.Edit | EcoScope/app/src/main/java/com/himanshu/ecoscope/ui/screens/SignUpScreen.kt:204-207 | one field is stored, the error cleared, the rest unchanged |
| SignUpScreen.SignUpForm.ChooseLanguage | EcoScope/app/src/main/java/com/himanshu/ecoscope/ui/screens/SignUpScreen.kt:434-436 | the language becomes one of the seven offered |
| SignUpScreen.SignUpForm.Press | EcoScope/app/src/main/java/com/himanshu/ecoscope/ui/screens/SignUpScreen.kt:564-590 | a refusal shows its message, a call keeps the error |
| SignUpScreen.SignUpForm.OnAuthState | EcoScope/app/src/main/java/com/himanshu/ecoscope/ui/screens/SignUpScreen.kt:54-68 | the same reaction to the auth state as the login form |
| DrainageVm.DrainageViewModel.constructor | EcoScope/app/src/main/java/com/himanshu/ecoscope/ui/viewmodel/AppViewModel.kt:13-15 | no result, not loading, no error |
| DrainageVm.DrainageViewModel.Analyze | EcoScope/app/src/main/java/com/himanshu/ecoscope/ui/viewmodel/AppViewModel.kt:17-30 | the request carries the four inputs; success sets the result and no error; failure sets the error and keeps the result; loading ends false |
| GlacialScreen.OnAnalyze | EcoScope/app/src/main/java/com/himanshu/ecoscope/ui/screens/GlacialScreen.kt:180-196 | "Enter lat,lon correctly" iff the location does not split into exactly two parts; an analysis carries the dates |
| GlacialScreen.OnAnalyzePair | EcoScope/app/src/main/java/com/himanshu/ecoscope/ui/screens/GlacialScreen.kt:182-192 | with two parts, analyze is called iff both parse and both dates are non-empty, else "Invalid coordinates or dates" |
| GlacialScreen.UnsetDateRefused | EcoScope/app/src/main/java/com/himanshu/ecoscope/ui/screens/GlacialScreen.kt:184 | an unset date never reaches analyze |
| GlacialScreen.PanelFor | EcoScope/app/src/main/java/com/himanshu/ecoscope/ui/screens/GlacialScreen.kt:225-251 | the placeholder iff there is no response; otherwise its images and area type |
| GlacialScreen.GlacialForm.constructor | EcoScope/app/src/main/java/com/himanshu/ecoscope/ui/screens/GlacialScreen.kt:40-45 | empty inputs |
| GlacialScreen.GlacialForm.EditLocation | EcoScope/app/src/main/java/com/himanshu/ecoscope/ui/screens/GlacialScreen.kt:100 | the location is stored |
| GlacialScreen.GlacialForm.PickBefore | EcoScope/app/src/main/java/com/himanshu/ecoscope/ui/screens/GlacialScreen.kt:135 | the before date is stored |
| GlacialScreen.GlacialForm.PickAfter | EcoScope/app/src/main/java/com/himanshu/ecoscope/ui/screens/GlacialScreen.kt:159 | the after date is stored |
| GlacialScreen.GlacialForm.Reset | EcoScope/app/src/main/java/com/himanshu/ecoscope/ui/screens/GlacialScreen.kt:209-213 | all three inputs are "" |
| GlacialScreen.GlacialForm.Shown | EcoScope/app/src/main/java/com/himanshu/ecoscope/ui/screens/GlacialScreen.kt:225-251 | `response` is never assigned, so the placeholder is always shown |
| GlacialScreen.ResetThenClick | EcoScope/app/src/main/java/com/himanshu/ecoscope/ui/screens/GlacialScreen.kt:180-213 | after Reset a click reports the malformed location |
| DrainageScreen.PartNumber | EcoScope/app/src/main/java/com/himanshu/ecoscope/ui/screens/DrainageScreen.kt:162-163 | a missing part is null, a present one is parsed |
| DrainageScreen.OnAnalyze | EcoScope/app/src/main/java/com/himanshu/ecoscope/ui/screens/DrainageScreen.kt:160-168 | analyze is called iff the first two parts parse and both dates are non-blank, with those values; otherwise "Enter valid lat, lon and dates" |
| DrainageScreen.NoCommaRefused | EcoScope/app/src/main/java/com/himanshu/ecoscope/ui/screens/DrainageScreen.kt:162-167 | input without a comma has no longitude, so only the toast |
| DrainageScreen.ExtraPartsIgnored | EcoScope/app/src/main/java/com/himanshu/ecoscope/ui/screens/DrainageScreen.kt:161-163 | text after a second comma makes no difference |
| DrainageScreen.ScreensDisagreeOnThreeParts | EcoScope/app/src/main/java/com/himanshu/ecoscope/ui/screens/DrainageScreen.kt:161-165 | "a,b,c" is analysed here but refused by the glacial screen |
| DrainageScreen.ImageUrl | EcoScope/app/src/main/java/com/himanshu/ecoscope/ui/screens/DrainageScreen.kt:197-209 | the URL is "http://192.168.31.201:5000" followed by the path |
| DrainageScreen.ImageUrlInjective | EcoScope/app/src/main/java/com/himanshu/ecoscope/ui/screens/DrainageScreen.kt:197-209 | distinct paths give distinct URLs |
| DrainageScreen.ShownImages | EcoScope/app/src/main/java/com/himanshu/ecoscope/ui/screens/DrainageScreen.kt:193-213 | images are shown iff there is a result: before, after, change map |
| DrainageScreen.ShownImagesReadBack | EcoScope/app/src/main/java/com/himanshu/ecoscope/ui/screens/DrainageScreen.kt:193-213 | the shown URLs give back the response's three paths |
| DrainageScreen.DrainageForm.constructor | EcoScope/app/src/main/java/com/himanshu/ecoscope/ui/screens/DrainageScreen.kt:38-40 | empty inputs |
| DrainageScreen.DrainageForm.EditLocation | EcoScope/app/src/main/java/com/himanshu/ecoscope/ui/screens/DrainageScreen.kt:97 | the location is stored |
| DrainageScreen.DrainageForm.PickBefore | EcoScope/app/src/main/java/com/himanshu/ecoscope/ui/screens/DrainageScreen.kt:121 | the before date is stored |
| DrainageScreen.DrainageForm.PickAfter | EcoScope/app/src/main/java/com/himanshu/ecoscope/ui/screens/DrainageScreen.kt:141 | the after date is stored |
| DrainageScreen.DrainageForm.Reset | EcoScope/app/src/main/java/com/himanshu/ecoscope/ui/screens/DrainageScreen.kt:178-182 | all three inputs are "" |
| DrainageScreen.DrainageForm.Press | EcoScope/app/src/main/java/com/himanshu/ecoscope/ui/screens/DrainageScreen.kt:160-168 | the view-model is called only for an accepted click, with the parsed request; otherwise only the toast |
| ContactList.Formatted | EcoScope/app/src/main/java/com/himanshu/ecoscope/ui/screens/HomeScreen.kt:152 | one "name::number" string per contact, in order |
| ContactList.FormatReadsBack | EcoScope/app/src/main/java/com/himanshu/ecoscope/ui/screens/HomeScreen.kt:152 | a name without ':' is read back before the "::" |
| ContactList.FormatInjective | EcoScope/app/src/main/java/com/himanshu/ecoscope/ui/screens/HomeScreen.kt:152 | names without ':' give different strings for different contacts |
| ContactList.RemoveFirstContents | EcoScope/app/src/main/java/com/himanshu/ecoscope/ui/screens/HomeScreen.kt:151 | a saved contact loses exactly one copy; a contact not in the list changes nothing |
| ContactList.RemoveFirstAt | EcoScope/app/src/main/java/com/himanshu/ecoscope/ui/screens/HomeScreen.kt:151 | removal at the first occurrence keeps the parts before and after |
| ContactList.RemoveFirst | EcoScope/app/src/main/java/com/himanshu/ecoscope/ui/screens/HomeScreen.kt:151 | a saved contact is removed once, shortening the list by one; an absent one changes nothing |
| DashboardScreen.SosTarget | EcoScope/app/src/main/java/com/himanshu/ecoscope/ui/screens/HomeScreen.kt:189-196 | saved mode: the first saved contact iff any; custom mode: the custom number (name or "Unknown") iff it is non-blank |
| DashboardScreen.OnSos | EcoScope/app/src/main/java/com/himanshu/ecoscope/ui/screens/HomeScreen.kt:198-210 | no target gives only the "No valid contact selected" toast; a target triggers sendSOS with exactly its number |
| DashboardScreen.CustomModeIgnoresSaved | EcoScope/app/src/main/java/com/himanshu/ecoscope/ui/screens/HomeScreen.kt:189-196 | in custom mode the saved list plays no part |
| DashboardScreen.WelcomeName | EcoScope/app/src/main/java/com/himanshu/ecoscope/ui/screens/HomeScreen.kt:88 | the profile's firstName, or "User" |
| DashboardScreen.Dashboard.constructor | EcoScope/app/src/main/java/com/himanshu/ecoscope/ui/screens/HomeScreen.kt:73-77 | "User", no saved contacts, so "Add Contact" is offered |
| DashboardScreen.Dashboard.LoadFirstName | EcoScope/app/src/main/java/com/himanshu/ecoscope/ui/screens/HomeScreen.kt:80-90 | without a signed-in user the name stays; otherwise it is the welcome name |
| DashboardScreen.Dashboard.Delete | EcoScope/app/src/main/java/com/himanshu/ecoscope/ui/screens/HomeScreen.kt:150-153 | the contact is removed and the rest persisted in order as "name::number"; deleting the only contact brings "Add Contact" back, and with two or more it stays hidden |
| DashboardScreen.Dashboard.AddButtonShown | EcoScope/app/src/main/java/com/himanshu/ecoscope/ui/screens/HomeScreen.kt:165 | `savedContacts.size < 1`: offered exactly when no contact is saved |
| DashboardScreen.Dashboard.OnPicked | EcoScope/app/src/main/java/com/himanshu/ecoscope/ui/screens/HomeScreen.kt:67-71 | the picker callback changes nothing |
| DashboardScreen.Dashboard.PressSos | EcoScope/app/src/main/java/com/himanshu/ecoscope/ui/screens/HomeScreen.kt:188-211 | the press is OnSos of the screen state, and with no saved contact it is the no-contact toast |
| Display.Precedence | EcoScope_Frontend/app/src/main/java/com/mansi/ecoscope_frontend/ui/screens/RoadScreen.kt:244-262 | spinner iff loading; else "Error: " + error iff there is one; else the data iff present; else the placeholder |
| AiVm.AIViewModel.constructor | EcoScope_Frontend/app/src/main/java/com/mansi/ecoscope_frontend/AIViewModel.kt:14-16 | no result, not loading, no error |
| AiVm.AIViewModel.Analyze | EcoScope_Frontend/app/src/main/java/com/mansi/ecoscope_frontend/AIViewModel.kt:18-32 | the request carries the four inputs; success sets the result; failure sets the error and keeps the result; loading ends false |
| SatelliteCompareVm.SatelliteCompareViewModel.constructor | EcoScope_Frontend/app/src/main/java/com/mansi/ecoscope_frontend/SatelliteCompareViewModel.kt:13-15 | no result, not loading, no error |
| SatelliteCompareVm.SatelliteCompareViewModel.Analyze | EcoScope_Frontend/app/src/main/java/com/mansi/ecoscope_frontend/SatelliteCompareViewModel.kt:17-29 | lat, lon, before and after are sent in that order; success sets the result; failure sets the error and keeps it; loading ends false |
| FrontendAppVm.LoadedName | EcoScope_Frontend/app/src/main/java/com/mansi/ecoscope_frontend/ui/viewmodel/AppViewModel.kt:105-131 | a non-blank Firestore name is used and saved iff there is a uid and the read succeeds; otherwise the preferences' name |
| FrontendAppVm.AppViewModel.constructor | EcoScope_Frontend/app/src/main/java/com/mansi/ecoscope_frontend/ui/viewmodel/AppViewModel.kt:37-91 | no result or weather, nothing loading, light theme, English, "User" |
| FrontendAppVm.AppViewModel.Analyze | EcoScope_Frontend/app/src/main/java/com/mansi/ecoscope_frontend/ui/viewmodel/AppViewModel.kt:41-55 | success sets the result; failure sets the error and keeps the result; loading ends false |
| FrontendAppVm.AppViewModel.FetchWeather | EcoScope_Frontend/app/src/main/java/com/mansi/ecoscope_frontend/ui/viewmodel/AppViewModel.kt:66-79 | the same discipline over weather, weatherLoading and weatherError |
| FrontendAppVm.AppViewModel.SetUsername | EcoScope_Frontend/app/src/main/java/com/mansi/ecoscope_frontend/ui/viewmodel/AppViewModel.kt:96-102 | the name is set, and saved only with a context |
| FrontendAppVm.AppViewModel.LoadUsername | EcoScope_Frontend/app/src/main/java/com/mansi/ecoscope_frontend/ui/viewmodel/AppViewModel.kt:105-131 | the username is the loaded name, saved to the preferences only when it came from Firestore |
| FrontendAppVm.AppViewModel.ClearChatbotMessages | EcoScope_Frontend/app/src/main/java/com/mansi/ecoscope_frontend/ui/viewmodel/AppViewModel.kt:142-144 | no messages remain |
| FrontendAppVm.AppViewModel.Logout | EcoScope_Frontend/app/src/main/java/com/mansi/ecoscope_frontend/ui/viewmodel/AppViewModel.kt:147-150 | the username is "User" |
| FrontendAppVm.AppViewModel.ToggleTheme | EcoScope_Frontend/app/src/main/java/com/mansi/ecoscope_frontend/ui/viewmodel/AppViewModel.kt:153-157 | the mode flips and the new value is saved |
| FrontendAppVm.AppViewModel.ToggleLanguage | EcoScope_Frontend/app/src/main/java/com/mansi/ecoscope_frontend/ui/viewmodel/AppViewModel.kt:159-162 | the language flag is set and saved |
| FrontendAppVm.AppViewModel.SendSos | EcoScope_Frontend/app/src/main/java/com/mansi/ecoscope_frontend/ui/viewmodel/AppViewModel.kt:173-199 | one intent per non-blank number with the SOS text, a toast per failure |
| SosIntents.MapsUrl | EcoScope_Frontend/app/src/main/java/com/mansi/ecoscope_frontend/SosViewModel.kt:17 | "https://maps.google.com/?q=" followed by "lat,lon" |
| SosIntents.Located | EcoScope_Frontend/app/src/main/java/com/mansi/ecoscope_frontend/SosViewModel.kt:17 | the located text ends with the maps link |
| SosIntents.SosText | EcoScope_Frontend/app/src/main/java/com/mansi/ecoscope_frontend/SosViewModel.kt:15-20 | the SOS lead, then the maps link when located, else "Location unavailable."; no timestamp |
| SosIntents.SosTextLinksIffLocated | EcoScope_Frontend/app/src/main/java/com/mansi/ecoscope_frontend/SosViewModel.kt:16-20 | the text carries a map link iff a location is known |
| SosIntents.Dispatch | EcoScope_Frontend/app/src/main/java/com/mansi/ecoscope_frontend/SosViewModel.kt:22-35 | no more intents and toasts than numbers |
| SosIntents.NonBlank | EcoScope_Frontend/app/src/main/java/com/mansi/ecoscope_frontend/SosViewModel.kt:23 | exactly the non-blank numbers |
| SosIntents.DispatchAttempts | EcoScope_Frontend/app/src/main/java/com/mansi/ecoscope_frontend/SosViewModel.kt:22-35 | exactly one attempt per non-blank number |
| SosIntents.DispatchTargets | EcoScope_Frontend/app/src/main/java/com/mansi/ecoscope_frontend/SosViewModel.kt:25-30 | every intent carries the same body and goes to a non-blank number of the list that did not fail |
| SosIntents.DispatchAppend | EcoScope_Frontend/app/src/main/java/com/mansi/ecoscope_frontend/SosViewModel.kt:31-33 | a failure does not stop the rest: a list's outcome is its parts' outcomes |
| SosIntents.DispatchAllStarted | EcoScope_Frontend/app/src/main/java/com/mansi/ecoscope_frontend/SosViewModel.kt:22-30 | when nothing fails, the intents are the non-blank numbers in order and there is no toast |
| SosIntents.SendSos | EcoScope_Frontend/app/src/main/java/com/mansi/ecoscope_frontend/SosViewModel.kt:13-37 | the loop's intents and toasts are the dispatch of the SOS text over the numbers |
| FirebaseHelper.WithoutNumber | EcoScope_Frontend/app/src/main/java/com/mansi/ecoscope_frontend/FirebaseHelper.kt:55-60 | never more documents than before |
| FirebaseHelper.WithoutNumberContents | EcoScope_Frontend/app/src/main/java/com/mansi/ecoscope_frontend/FirebaseHelper.kt:52-60 | every document with the number goes, every other stays with its multiplicity |
| FirebaseHelper.WithoutNumberIdempotent | EcoScope_Frontend/app/src/main/java/com/mansi/ecoscope_frontend/FirebaseHelper.kt:52-60 | deleting twice is deleting once |
| FirebaseHelper.WithoutAbsent | EcoScope_Frontend/app/src/main/java/com/mansi/ecoscope_frontend/FirebaseHelper.kt:52-60 | a collection without the number is unchanged |
| FirebaseHelper.ContactStore.constructor | EcoScope_Frontend/app/src/main/java/com/mansi/ecoscope_frontend/FirebaseHelper.kt:18 | the store starts from the given uid and collections |
| FirebaseHelper.ContactStore.SaveContact | EcoScope_Frontend/app/src/main/java/com/mansi/ecoscope_frontend/FirebaseHelper.kt:20-43 | without a uid, or when the add fails, nothing is written; otherwise a new document (number, name or "Unknown", time) is added, never overwriting |
| FirebaseHelper.ContactStore.DeleteContact | EcoScope_Frontend/app/src/main/java/com/mansi/ecoscope_frontend/FirebaseHelper.kt:45-68 | "User not logged in" without a uid, "Failed to delete contact" for a failed query, both changing nothing; otherwise every matching document goes and the toast is "Contact deleted" |
| FirebaseHelper.DeleteAfterSaves | EcoScope_Frontend/app/src/main/java/com/mansi/ecoscope_frontend/FirebaseHelper.kt:33-60 | two saves of a number are both removed by one delete; earlier documents stay |
| RoadScreen.OnAnalyze | EcoScope_Frontend/app/src/main/java/com/mansi/ecoscope_frontend/ui/screens/RoadScreen.kt:212-218 | "Please fill all fields" iff a field is blank; with all filled, the conversion crashes iff a coordinate does not parse; a start carries the parsed request |
| RoadScreen.NonNumericCrashes | EcoScope_Frontend/app/src/main/java/com/mansi/ecoscope_frontend/ui/screens/RoadScreen.kt:214 | a non-numeric non-blank latitude reaches `toDouble` and throws |
| RoadScreen.PickerStart | EcoScope_Frontend/app/src/main/java/com/mansi/ecoscope_frontend/ui/screens/RoadScreen.kt:308-311 | each coordinate is parsed, or falls back on its own to 28.7041 / 77.1025 |
| RoadScreen.FallbacksIndependent | EcoScope_Frontend/app/src/main/java/com/mansi/ecoscope_frontend/ui/screens/RoadScreen.kt:308-311 | an unreadable longitude does not disturb the latitude |
| RoadScreen.ResultLines | EcoScope_Frontend/app/src/main/java/com/mansi/ecoscope_frontend/ui/screens/RoadScreen.kt:251-259 | the two text lines, with "-" for a null field |
| RoadScreen.Panel | EcoScope_Frontend/app/src/main/java/com/mansi/ecoscope_frontend/ui/screens/RoadScreen.kt:244-262 | loading, then error, then result, then the ready text |
| RoadScreen.RoadForm.constructor | EcoScope_Frontend/app/src/main/java/com/mansi/ecoscope_frontend/ui/screens/RoadScreen.kt:44-49 | empty fields, picker closed |
| RoadScreen.RoadForm.EditLat | EcoScope_Frontend/app/src/main/java/com/mansi/ecoscope_frontend/ui/screens/RoadScreen.kt:137 | the latitude text is stored |
| RoadScreen.RoadForm.EditLon | EcoScope_Frontend/app/src/main/java/com/mansi/ecoscope_frontend/ui/screens/RoadScreen.kt:154 | the longitude text is stored |
| RoadScreen.RoadForm.PickBefore | EcoScope_Frontend/app/src/main/java/com/mansi/ecoscope_frontend/ui/screens/RoadScreen.kt:179 | the before date is stored |
| RoadScreen.RoadForm.PickAfter | EcoScope_Frontend/app/src/main/java/com/mansi/ecoscope_frontend/ui/screens/RoadScreen.kt:197 | the after date is stored |
| RoadScreen.RoadForm.OpenPicker | EcoScope_Frontend/app/src/main/java/com/mansi/ecoscope_frontend/ui/screens/RoadScreen.kt:111 | the picker opens |
| RoadScreen.RoadForm.PickLocation | EcoScope_Frontend/app/src/main/java/com/mansi/ecoscope_frontend/ui/screens/RoadScreen.kt:312-316 | both fields are written as strings and the picker closes |
| RoadScreen.RoadForm.CancelPicker | EcoScope_Frontend/app/src/main/java/com/mansi/ecoscope_frontend/ui/screens/RoadScreen.kt:303-317 | the picker closes and the fields stay |
| RoadScreen.RoadForm.Press | EcoScope_Frontend/app/src/main/java/com/mansi/ecoscope_frontend/ui/screens/RoadScreen.kt:211-219 | the view-model is called only when the click starts an analysis |
| RoadScreen.RoadForm.PressSos | EcoScope_Frontend/app/src/main/java/com/mansi/ecoscope_frontend/ui/screens/RoadScreen.kt:285-288 | the stored contact list is handed to sendSOS unchanged |
| RoadScreen.PickThenReopen | EcoScope_Frontend/app/src/main/java/com/mansi/ecoscope_frontend/ui/screens/RoadScreen.kt:308-316 | reopening after a pick starts at the picked location when the numbers read back |
| FrontendDashboard.SecondPickRefused | EcoScope_Frontend/app/src/main/java/com/mansi/ecoscope_frontend/ui/screens/HomeScreen.kt:349-350 | a non-empty list refuses every pick |
| FrontendDashboard.DuplicateRefused | EcoScope_Frontend/app/src/main/java/com/mansi/ecoscope_frontend/ui/screens/HomeScreen.kt:349-350 | a number already saved is refused |
| FrontendDashboard.Accepts | EcoScope_Frontend/app/src/main/java/com/mansi/ecoscope_frontend/ui/screens/HomeScreen.kt:349-350 | a pick is accepted only into an empty list |
| FrontendDashboard.ShouldFetchWeather | EcoScope_Frontend/app/src/main/java/com/mansi/ecoscope_frontend/ui/screens/HomeScreen.kt:527-531 | fetch iff there is no weather and none is loading |
| FrontendDashboard.ConditionText | EcoScope_Frontend/app/src/main/java/com/mansi/ecoscope_frontend/ui/screens/HomeScreen.kt:553 | the first condition's `main`, or "-" |
| FrontendDashboard.WeatherPanel | EcoScope_Frontend/app/src/main/java/com/mansi/ecoscope_frontend/ui/screens/HomeScreen.kt:543-567 | loading, then error, then data, then the dash placeholders |
| FrontendDashboard.ResultText | EcoScope_Frontend/app/src/main/java/com/mansi/ecoscope_frontend/ui/screens/HomeScreen.kt:776-784 | the body or "No response"; an I/O failure gives "Error: " + its message |
| FrontendDashboard.Dashboard.constructor | EcoScope_Frontend/app/src/main/java/com/mansi/ecoscope_frontend/ui/screens/HomeScreen.kt:338-342 | "User", no contacts, the default coordinates, empty dates and result; "Add Contact" is offered and no result line is drawn |
| FrontendDashboard.Dashboard.OnPicked | EcoScope_Frontend/app/src/main/java/com/mansi/ecoscope_frontend/ui/screens/HomeScreen.kt:344-359 | an accepted pick is added, persisted as "name::number" and, when the Firestore add succeeds, saved there, and "Add Contact" is no longer offered; a refused one leaves everything and shows "Contact already added or max limit reached"; the list never exceeds one |
| FrontendDashboard.Dashboard.Delete | EcoScope_Frontend/app/src/main/java/com/mansi/ecoscope_frontend/ui/screens/HomeScreen.kt:436-440 | the contact is removed and the rest persisted; the Firestore copy stays |
| FrontendDashboard.Dashboard.LoadFirstName | EcoScope_Frontend/app/src/main/java/com/mansi/ecoscope_frontend/ui/screens/HomeScreen.kt:360-370 | without a signed-in user the name stays; otherwise firstName or "User" |
| FrontendDashboard.Dashboard.EditLat | EcoScope_Frontend/app/src/main/java/com/mansi/ecoscope_frontend/ui/screens/HomeScreen.kt:688 | a parsable entry replaces the latitude, another keeps it |
| FrontendDashboard.Dashboard.EditLon | EcoScope_Frontend/app/src/main/java/com/mansi/ecoscope_frontend/ui/screens/HomeScreen.kt:705 | the same for the longitude |
| FrontendDashboard.Dashboard.PickLocation | EcoScope_Frontend/app/src/main/java/com/mansi/ecoscope_frontend/ui/screens/HomeScreen.kt:805-809 | both coordinates are replaced and the picker closes |
| FrontendDashboard.Dashboard.OnBackendReply | EcoScope_Frontend/app/src/main/java/com/mansi/ecoscope_frontend/ui/screens/HomeScreen.kt:776-784 | the reply becomes the result text; a failure or a missing body is always drawn, a body exactly when it is not blank |
| FrontendDashboard.Dashboard.AddButtonShown | EcoScope_Frontend/app/src/main/java/com/mansi/ecoscope_frontend/ui/screens/HomeScreen.kt:451 | `savedContacts.size < 1`: offered exactly when no contact is saved |
| FrontendDashboard.Dashboard.ResultShown | EcoScope_Frontend/app/src/main/java/com/mansi/ecoscope_frontend/ui/screens/HomeScreen.kt:791 | `resultText.isNotBlank()`: something is left after the leading whitespace |
| Strings.BlankIffTrimStartEmpty | EcoScope_Frontend/app/src/main/java/com/mansi/ecoscope_frontend/ui/screens/HomeScreen.kt:791 | Kotlin `isBlank()` holds iff dropping the leading whitespace leaves nothing |
| FrontendDashboard.WeatherOnEntry | EcoScope_Frontend/app/src/main/java/com/mansi/ecoscope_frontend/ui/screens/HomeScreen.kt:516-531 | a fetch for the default coordinates happens iff the guard holds; otherwise the view-model is unchanged |

## Findings

| source | as written | input that shows it | evidently intended | confidence | as-written member | corrected member |
|---|---|---|---|---|---|---|
| backend/app.py:103 | `JSONResponse(content=analysis)` serialises the analysis, which always holds NumPy scalars: the melting, drainage and road flags are `numpy.bool_` (backend/ecoscope_model.py:137, :153, :170), the glaciers' total area is a NumPy integer whenever a glacier is found (:136) and the rounded impact intensity a `numpy.float32` (:113); `json.dumps` raises `TypeError`, caught as 500 "Analysis failed: Object of type ... is not JSON serializable" | any image the model analyses; Api.SerializationFinding states it for every analysis | the analysis answered with status 200 | high; not executed | Api.AnalyzeEnvironmentalAsWritten | Api.AnalyzeEnvironmental |
| backend/app.py:127 | the glacier, drainage and road reports each hold one of those NumPy booleans, so their `JSONResponse` raises the same way and every feature endpoint answers 500 | any image the model analyses; Api.SerializationFinding | the feature report with its filtered recommendations | high; not executed | Api.AnalyzeFeatureAsWritten | Api.AnalyzeFeature |

## Left out

- PyTorch, OpenCV, NumPy and SciPy numerics are taken as inputs to the rule functions. These include the network, preprocessing, connected components, dilation, Canny, image comparison and the visualisations, as well as `train.py`, `models/unet.py`, `inference.py`, the training and dataset scripts and `generate_dummy_data.py`.
- Floating point: thresholds and percentages are over `real`. Python's `round` is round-half-even on exact reals.
- `lower()`, `upper()` and `trim` act on ASCII letters and ASCII or Kotlin whitespace only. There is no Unicode case mapping.
- Network calls are outcome parameters: NASA, Landsat, Sentinel, Nominatim, Earth Engine and geemap exports, Retrofit and OkHttp.
- The satellite fetchers' own JSON handling is not modelled.
- Twilio delivery is the parameter `delivered`. The "Failed to notify" path of `send_sos_alert` is not modelled. `send_sms_alert` catches its own exceptions, so that path is taken only when the lookup `contact["phone"]` raises `KeyError`, for a stored contact without a "phone" key. A modelled contact always has a phone, so such a contact cannot be represented.
- JSON file persistence is in-memory fields. The contacts and alert files, and the `analysis_results_*.json` reads, are an oracle.
- An alert-history file that exists but cannot be parsed is not modelled. Such a file makes a save do nothing.
- `list.sort(reverse=True)` is an insertion sort over code-point order. Only its result is modelled, not Timsort.
- `strftime("%Y")` is modelled unpadded, so round trips are stated for four-digit years. `strptime` is modelled on ASCII digits.
- `timedelta` overflow is the `None` result. Earth Engine initialisation is left out.
- FastAPI routing, CORS, startup, uploads, `/health`, `/model/info`, `/satellite/available-dates` and the SOS HTTP wrappers are left out.
- The Firebase SDKs are outcome parameters: Auth, Firestore, Realtime Database and Messaging. `FirebaseUtils.kt` and `FirebaseServices.kt` are not part of this model, and neither is the `callbackFlow` listener.
- An error while reading a profile document is an outcome parameter. `decodeMessage` is the message a mistyped field raises. `Date()` is `now`.
- Coroutines are atomic steps: each `viewModelScope.launch`, `addOnSuccessListener` or `LaunchedEffect` runs to completion. Spinner states in the middle of a call and races between calls are not modelled.
- `Patterns.EMAIL_ADDRESS`, `toDouble`/`toDoubleOrNull`, `Double.toString` and `SimpleDateFormat` are parameters.
- `PrefsManager`, `ContactPicker`, `LocationUtils` and `LocaleHelper` are not part of this model. Their effects are fields or parameters: the saved preferences, the picked contact and the last location.
- The first app's `AppViewModel` class is not part of this model. GlacialScreen and the first HomeScreen use it, but its source file holds only `DrainageViewModel`. The glacial click is therefore modelled as the request it would send. The first HomeScreen's `sendSOS` is modelled as the number list it receives.
- The second app's `AnalyzeRequest` and `AnalyzeResponse` classes are not part of this model. The first app's shapes are used for them.
- The second app's SOS dialog only shows "SOS Alert Sent!" and is not modelled. `restartAppWithLocale`, `ensureLocationOn`, the chatbot's typing animation and `debugPrintUserName` are left out.
- FrontendAppVm.AppViewModel.Logout: `FirebaseService.logout()` is not part of this model. Only the username reset is stated.
- FirebaseHelper.ContactStore.DeleteContact: each document's delete is taken to succeed. The per-document delete futures are not awaited in the source, and their failures are not modelled.
- Compose layout, navigation, `MainActivity` (both apps), the themes, `MapPicker.kt`, `LiveMapCard.kt`, `SettingScreen.kt`, the root-level `LoginScreen.kt` and `build.gradle.kts` are left out.
- Text rendering is left out: the himanshu dashboard's toast texts appear mis-encoded in its source, and the model uses the intended emoji. Temperatures, humidity and wind are shown by `toString`, which is not modelled.
- Api.AnalyzeEnvironmentalAsWritten: the refused type name is the parameter `refused`. In key order the first unserialisable value is `impact_intensity_percentage`, a `float32` (backend/ecoscope_model.py:113, from the network's float32 output); `affected_area_percentage` is a `float64`, which `json` accepts. The name depends on the NumPy build, so it is not fixed in the model.
- Api.AnalyzeEnvironmental: `content_type` is modelled as a string. A missing content type (`None`) makes `startswith` raise `AttributeError` before the `try`, which FastAPI answers with its own 500. That answer is not modelled.
- DownloadImg.DownloadImage: the export itself is not modelled. For an `out_path` without a directory, `os.makedirs("")` raises `FileNotFoundError` before the export, and that failure is not modelled either.
