// backend/ecoscope_model.py: the rules that turn the segmentation network's
// output statistics into an impact level, detected features and
// recommendations. The network, preprocessing and the image operations
// (thresholding, connected components, dilation, edge detection) are outside
// the model; their numeric results are the inputs here.

module EcoScopeModel {
  import opened Wrappers
  import opened Numeric

  // ----- _assess_impact_level -----

  datatype ImpactLevel = Low | Moderate | High | Critical {
    function Name(): string {
      match this
      case Low => "LOW"
      case Moderate => "MODERATE"
      case High => "HIGH"
      case Critical => "CRITICAL"
    }

    /** Severity order LOW < MODERATE < HIGH < CRITICAL. */
    function Rank(): nat {
      match this
      case Low => 0
      case Moderate => 1
      case High => 2
      case Critical => 3
    }
  }

  /**
   * `_assess_impact_level`: each level is reached when either the affected
   * area or the intensity passes that level's strict threshold.
   */
  function AssessImpactLevel(affectedArea: real, impactIntensity: real): (level: ImpactLevel)
    ensures level.Rank() >= 3 <==> affectedArea > 50.0 || impactIntensity > 70.0
    ensures level.Rank() >= 2 <==> affectedArea > 30.0 || impactIntensity > 50.0
    ensures level.Rank() >= 1 <==> affectedArea > 15.0 || impactIntensity > 30.0
  {
    if affectedArea > 50.0 || impactIntensity > 70.0 then Critical
    else if affectedArea > 30.0 || impactIntensity > 50.0 then High
    else if affectedArea > 15.0 || impactIntensity > 30.0 then Moderate
    else Low
  }

  /** Increasing either measurement never lowers the impact level. */
  lemma ImpactMonotone(area1: real, intensity1: real, area2: real, intensity2: real)
    requires area1 <= area2 && intensity1 <= intensity2
    ensures AssessImpactLevel(area1, intensity1).Rank() <= AssessImpactLevel(area2, intensity2).Rank()
  {
  }

  // ----- feature detectors -----

  datatype GlacierInfo = GlacierInfo(detected: bool, count: nat, totalArea: nat, meltingIndicators: bool)

  datatype Complexity = LowComplexity | MediumComplexity | HighComplexity {
    function Name(): string {
      match this
      case LowComplexity => "low"
      case MediumComplexity => "medium"
      case HighComplexity => "high"
    }
  }

  datatype DrainageInfo = DrainageInfo(detected: bool, drainageDensity: real, networkComplexity: Complexity)

  datatype NetworkType = Sparse | Dense {
    function Name(): string {
      match this
      case Sparse => "sparse"
      case Dense => "dense"
    }
  }

  datatype RoadInfo = RoadInfo(detected: bool, roadDensity: real, networkType: NetworkType)

  datatype ChangeInfo = ChangeInfo(deforestation: bool, urbanization: bool, waterBodies: real, vegetationLoss: bool)

  datatype Features = Features(
    glaciers: GlacierInfo,
    drainageSystems: DrainageInfo,
    roadNetworks: RoadInfo,
    environmentalChanges: ChangeInfo)

  /** The component areas above the 100-pixel threshold, in labelling order. */
  function LargeComponents(areas: seq<nat>): (r: seq<nat>)
    ensures |r| <= |areas|
    ensures forall a :: a in r ==> a > 100
  {
    if areas == [] then []
    else
      var last := areas[|areas| - 1];
      LargeComponents(areas[..|areas| - 1]) + (if last > 100 then [last] else [])
  }

  function Sum(xs: seq<nat>): nat {
    if xs == [] then 0 else Sum(xs[..|xs| - 1]) + xs[|xs| - 1]
  }

  /** The kept areas are exactly the areas above 100, and no more of them than there are components. */
  lemma {:induction false} LargeComponentsMembers(areas: seq<nat>)
    ensures |LargeComponents(areas)| <= |areas|
    ensures forall a :: a in LargeComponents(areas) <==> a in areas && a > 100
  {
    if areas != [] {
      var init := areas[..|areas| - 1];
      LargeComponentsMembers(init);
      assert areas == init + [areas[|areas| - 1]];
    }
  }

  /** Some component is kept exactly when some component is above 100. */
  lemma {:induction false} LargeComponentsNonEmpty(areas: seq<nat>)
    ensures |LargeComponents(areas)| <= |areas|
    ensures LargeComponents(areas) != [] <==> exists i :: 0 <= i < |areas| && areas[i] > 100
  {
    LargeComponentsMembers(areas);
    var large := LargeComponents(areas);
    if large != [] {
      assert large[0] in areas;
    }
    forall k | 0 <= k < |areas| && areas[k] > 100 ensures large != [] {
      assert areas[k] in large;
    }
  }

  /** One more component extends the kept areas by at most that component. */
  lemma LargeComponentsStep(areas: seq<nat>, i: nat)
    requires i < |areas|
    ensures LargeComponents(areas[..i + 1])
         == LargeComponents(areas[..i]) + (if areas[i] > 100 then [areas[i]] else [])
  {
    assert areas[..i + 1][..i] == areas[..i];
  }

  lemma SumAppend(xs: seq<nat>, x: nat)
    ensures Sum(xs + [x]) == Sum(xs) + x
  {
    assert (xs + [x])[..|xs|] == xs;
  }

  /**
   * `_detect_glaciers` after connected-component labelling: `componentAreas[i]`
   * is the pixel count of component i + 1, `meanPrediction` the mean network output.
   */
  method DetectGlaciers(componentAreas: seq<nat>, meanPrediction: real) returns (g: GlacierInfo)
    ensures g.count == |LargeComponents(componentAreas)| <= |componentAreas|
    ensures g.totalArea == Sum(LargeComponents(componentAreas))
    ensures g.detected <==> exists i :: 0 <= i < |componentAreas| && componentAreas[i] > 100
    ensures g.meltingIndicators <==> meanPrediction > 0.7
  {
    var glacierAreas: seq<nat> := [];
    var total := 0;
    var i := 0;
    while i < |componentAreas|
      invariant 0 <= i <= |componentAreas|
      invariant glacierAreas == LargeComponents(componentAreas[..i])
      invariant total == Sum(glacierAreas)
    {
      LargeComponentsStep(componentAreas, i);
      var area := componentAreas[i];
      if area > 100 {
        SumAppend(glacierAreas, area);
        glacierAreas := glacierAreas + [area];
        total := total + area;
      }
      i := i + 1;
    }
    assert componentAreas[..i] == componentAreas;
    LargeComponentsNonEmpty(componentAreas);
    g := GlacierInfo(|glacierAreas| > 0, |glacierAreas|, total, meanPrediction > 0.7);
  }

  /**
   * `_detect_drainage_systems`: the linear features are the pixels added by
   * a 3x3 dilation of the mask; `pixels` is the prediction's size, positive
   * because the network answers a 256x256 map.
   */
  function DetectDrainageSystems(dilatedCount: nat, maskCount: nat, pixels: nat): (d: DrainageInfo)
    requires pixels > 0
    ensures d.detected <==> dilatedCount - maskCount > 50
    ensures d.networkComplexity == HighComplexity <==> dilatedCount - maskCount > 100
    ensures d.networkComplexity == LowComplexity <==> !d.detected
    ensures d.drainageDensity * (pixels as real) == (dilatedCount - maskCount) as real * 100.0
  {
    var linear := dilatedCount - maskCount;
    DrainageInfo(
      linear > 50,
      linear as real / pixels as real * 100.0,
      if linear > 100 then HighComplexity else if linear > 50 then MediumComplexity else LowComplexity)
  }

  /** `_detect_road_networks`: `roadPixels` is the number of Canny edge pixels. */
  function DetectRoadNetworks(roadPixels: nat, pixels: nat): (r: RoadInfo)
    requires pixels > 0
    ensures r.detected <==> roadPixels > 100
    ensures r.networkType == Dense <==> roadPixels > 200
    ensures r.networkType == Dense ==> r.detected
    ensures r.roadDensity * (pixels as real) == roadPixels as real * 100.0
  {
    RoadInfo(roadPixels > 100, roadPixels as real / pixels as real * 100.0,
             if roadPixels > 200 then Dense else Sparse)
  }

  /**
   * `_detect_environmental_changes` over the means of the upper and lower
   * halves, the count of pixels below 0.2 and the overall mean.
   */
  function DetectEnvironmentalChanges(upperMean: real, lowerMean: real, lowPixels: nat,
                                      meanPrediction: real, pixels: nat): (c: ChangeInfo)
    requires pixels > 0
    ensures c.deforestation <==> upperMean > 0.6
    ensures c.urbanization <==> lowerMean > 0.5
    ensures c.vegetationLoss <==> meanPrediction > 0.6
    ensures c.waterBodies * (pixels as real) == lowPixels as real * 100.0
  {
    ChangeInfo(upperMean > 0.6, lowerMean > 0.5, lowPixels as real / pixels as real * 100.0,
               meanPrediction > 0.6)
  }

  // ----- _generate_recommendations -----

  const ImmediateAssessment := "Immediate environmental assessment required"
  const ConservationMeasures := "Consider implementing conservation measures"
  const MonitorGlacier := "Monitor glacier melting patterns"
  const WaterResources := "Assess impact on water resources"
  const ReviewDrainage := "Review urban drainage infrastructure"
  const FloodingRisks := "Check for flooding risks"
  const InfrastructureImpact := "Assess infrastructure development impact"
  const HabitatFragmentation := "Monitor habitat fragmentation"

  predicate Severe(level: ImpactLevel) {
    level == Critical || level == High
  }

  /**
   * The four fixed pairs, each present when its condition holds, in this
   * order: two recommendations per condition that holds, and none when all
   * are quiet.
   */
  function Recommendations(f: Features, level: ImpactLevel): (r: seq<string>)
    ensures |r| == 2 * TriggeredCount(f, level)
    ensures r == [] <==>
      !Severe(level) && !f.glaciers.detected && !f.drainageSystems.detected && !f.roadNetworks.detected
  {
    (if Severe(level) then [ImmediateAssessment, ConservationMeasures] else [])
    + (if f.glaciers.detected then [MonitorGlacier, WaterResources] else [])
    + (if f.drainageSystems.detected then [ReviewDrainage, FloodingRisks] else [])
    + (if f.roadNetworks.detected then [InfrastructureImpact, HabitatFragmentation] else [])
  }

  function B(b: bool): nat { if b then 1 else 0 }

  /** How many of the four conditions hold. */
  function TriggeredCount(f: Features, level: ImpactLevel): nat {
    B(Severe(level)) + B(f.glaciers.detected) + B(f.drainageSystems.detected) + B(f.roadNetworks.detected)
  }

  /** `_generate_recommendations`: appends the pairs one condition at a time. */
  method GenerateRecommendations(f: Features, level: ImpactLevel) returns (recs: seq<string>)
    ensures recs == Recommendations(f, level)
    ensures |recs| == 2 * TriggeredCount(f, level)
    ensures recs == [] <==>
      !Severe(level) && !f.glaciers.detected && !f.drainageSystems.detected && !f.roadNetworks.detected
  {
    recs := [];
    if level == Critical || level == High {
      recs := recs + [ImmediateAssessment];
      recs := recs + [ConservationMeasures];
    }
    assert recs == (if Severe(level) then [ImmediateAssessment, ConservationMeasures] else []);
    if f.glaciers.detected {
      recs := recs + [MonitorGlacier];
      recs := recs + [WaterResources];
    }
    assert recs == (if Severe(level) then [ImmediateAssessment, ConservationMeasures] else []) + (if f.glaciers.detected then [MonitorGlacier, WaterResources] else []);
    if f.drainageSystems.detected {
      recs := recs + [ReviewDrainage];
      recs := recs + [FloodingRisks];
    }
    assert recs == (if Severe(level) then [ImmediateAssessment, ConservationMeasures] else []) + (if f.glaciers.detected then [MonitorGlacier, WaterResources] else []) + (if f.drainageSystems.detected then [ReviewDrainage, FloodingRisks] else []);
    if f.roadNetworks.detected {
      recs := recs + [InfrastructureImpact];
      recs := recs + [HabitatFragmentation];
    }
  }

  /** Each recommendation is present exactly when the condition it belongs to holds. */
  lemma RecommendationsMembers(f: Features, level: ImpactLevel)
    ensures var r := Recommendations(f, level);
      && (ImmediateAssessment in r <==> Severe(level))
      && (ConservationMeasures in r <==> Severe(level))
      && (MonitorGlacier in r <==> f.glaciers.detected)
      && (WaterResources in r <==> f.glaciers.detected)
      && (ReviewDrainage in r <==> f.drainageSystems.detected)
      && (FloodingRisks in r <==> f.drainageSystems.detected)
      && (InfrastructureImpact in r <==> f.roadNetworks.detected)
      && (HabitatFragmentation in r <==> f.roadNetworks.detected)
  {
    var r := Recommendations(f, level);
    var all := [ImmediateAssessment, ConservationMeasures, MonitorGlacier, WaterResources,
                ReviewDrainage, FloodingRisks, InfrastructureImpact, HabitatFragmentation];
    assert forall i, j :: 0 <= i < j < 8 ==> all[i] != all[j] by {
      assert |ImmediateAssessment| == 43 && |ConservationMeasures| == 43;
      assert ImmediateAssessment[0] != ConservationMeasures[0];
      assert |MonitorGlacier| == 32 && |WaterResources| == 32;
      assert MonitorGlacier[0] != WaterResources[0];
      assert |ReviewDrainage| == 36 && |FloodingRisks| == 24;
      assert |InfrastructureImpact| == 40 && |HabitatFragmentation| == 29;
    }
  }

  // ----- analyze_environmental_changes / _analyze_features -----

  /**
   * The numbers the image operations extract from one prediction map: its
   * size, the pixels above 0.5, the mean, the connected-component areas of
   * the mask above 0.6, the dilated mask size, the edge pixels, the half
   * means and the pixels below 0.2.
   */
  datatype PredictionStats = PredictionStats(
    pixels: nat,
    aboveHalf: nat,
    meanPrediction: real,
    componentAreas: seq<nat>,
    dilatedCount: nat,
    edgePixels: nat,
    upperMean: real,
    lowerMean: real,
    lowPixels: nat)

  datatype AnalysisResult =
    | Analysis(
        timestamp: string,
        affectedAreaPercentage: real,
        impactIntensityPercentage: real,
        impactLevel: ImpactLevel,
        features: Features,
        recommendations: seq<string>)
    | AnalysisError(error: string)

  /**
   * What `_analyze_features` promises about its result for these statistics:
   * the impact level is judged on the unrounded percentages, the reported
   * percentages are those rounded to two places, every detector's findings
   * are reported, and the recommendations follow from them.
   */
  predicate AnalysisOf(s: PredictionStats, timestamp: string, a: AnalysisResult)
    requires s.pixels > 0
  {
    var area := s.aboveHalf as real / s.pixels as real * 100.0;
    && a.Analysis? && a.timestamp == timestamp
    && a.impactLevel == AssessImpactLevel(area, s.meanPrediction * 100.0)
    && a.affectedAreaPercentage == Round2(area)
    && a.impactIntensityPercentage == Round2(s.meanPrediction * 100.0)
    && a.features.glaciers.count == |LargeComponents(s.componentAreas)|
    && a.features.glaciers.totalArea == Sum(LargeComponents(s.componentAreas))
    && (a.features.glaciers.detected <==> exists i :: 0 <= i < |s.componentAreas| && s.componentAreas[i] > 100)
    && (a.features.glaciers.meltingIndicators <==> s.meanPrediction > 0.7)
    && a.features.drainageSystems == DetectDrainageSystems(s.dilatedCount, s.aboveHalf, s.pixels)
    && a.features.roadNetworks == DetectRoadNetworks(s.edgePixels, s.pixels)
    && a.features.environmentalChanges
       == DetectEnvironmentalChanges(s.upperMean, s.lowerMean, s.lowPixels, s.meanPrediction, s.pixels)
    && a.recommendations == Recommendations(a.features, a.impactLevel)
  }

  /** `_analyze_features`. */
  method AnalyzeFeatures(s: PredictionStats, timestamp: string) returns (a: AnalysisResult)
    requires s.pixels > 0
    ensures AnalysisOf(s, timestamp, a)
  {
    var affectedArea := s.aboveHalf as real / s.pixels as real * 100.0;
    var impactIntensity := s.meanPrediction * 100.0;
    var glaciers := DetectGlaciers(s.componentAreas, s.meanPrediction);
    var features := Features(
      glaciers,
      DetectDrainageSystems(s.dilatedCount, s.aboveHalf, s.pixels),
      DetectRoadNetworks(s.edgePixels, s.pixels),
      DetectEnvironmentalChanges(s.upperMean, s.lowerMean, s.lowPixels, s.meanPrediction, s.pixels));
    var level := AssessImpactLevel(affectedArea, impactIntensity);
    var recs := GenerateRecommendations(features, level);
    a := Analysis(timestamp, Round2(affectedArea), Round2(impactIntensity), level, features, recs);
  }

  /**
   * `analyze_environmental_changes`: an unloaded network and a failed
   * preprocessing step give error results instead of an analysis.
   */
  method AnalyzeEnvironmentalChanges(modelLoaded: bool, preprocessed: Option<PredictionStats>,
                                     timestamp: string) returns (a: AnalysisResult)
    requires preprocessed.Some? ==> preprocessed.value.pixels > 0
    ensures !modelLoaded ==> a == AnalysisError("Model not loaded")
    ensures modelLoaded && preprocessed.None? ==> a == AnalysisError("Failed to preprocess image")
    ensures modelLoaded && preprocessed.Some? ==> AnalysisOf(preprocessed.value, timestamp, a)
  {
    if !modelLoaded {
      return AnalysisError("Model not loaded");
    }
    if preprocessed.None? {
      return AnalysisError("Failed to preprocess image");
    }
    a := AnalyzeFeatures(preprocessed.value, timestamp);
  }
}
