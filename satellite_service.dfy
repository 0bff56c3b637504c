// backend/satellite_service.py: result assembly of the satellite image
// search, classification of measured changes into labels, and the rule-based
// future-impact prediction.

module SatelliteService {
  import opened Wrappers

  /** One image record as returned by a satellite catalogue, kept as its JSON text. */
  type ImageMeta = string

  datatype Location = Location(lat: real, lon: real)
  datatype DateRange = DateRange(start: string, end: string)

  /** The dictionary returned by `get_satellite_images`. */
  datatype ImagesResult =
    | ImagesFound(images: map<string, seq<ImageMeta>>, location: Location, dateRange: DateRange)
    | ImagesFailed(error: string)
  {
    predicate Success() { ImagesFound? }
  }

  const NasaEpicKey := "nasa_epic"
  const LandsatKey := "landsat"
  const SentinelKey := "sentinel"

  /**
   * `get_satellite_images`: the three catalogue fetches are given as their
   * results (each fetcher catches its own errors and answers `[]`), and a
   * source appears in `images` exactly when its list is non-empty.
   */
  method GetSatelliteImages(lat: real, lon: real, start: string, end: string,
                            epic: seq<ImageMeta>, landsat: seq<ImageMeta>, sentinel: seq<ImageMeta>)
    returns (r: ImagesResult)
    ensures r.ImagesFound?
    ensures r.location == Location(lat, lon) && r.dateRange == DateRange(start, end)
    ensures r.images.Keys <= {NasaEpicKey, LandsatKey, SentinelKey}
    ensures NasaEpicKey in r.images <==> epic != []
    ensures LandsatKey in r.images <==> landsat != []
    ensures SentinelKey in r.images <==> sentinel != []
    ensures NasaEpicKey in r.images ==> r.images[NasaEpicKey] == epic
    ensures LandsatKey in r.images ==> r.images[LandsatKey] == landsat
    ensures SentinelKey in r.images ==> r.images[SentinelKey] == sentinel
  {
    var images: map<string, seq<ImageMeta>> := map[];
    if epic != [] {
      images := images[NasaEpicKey := epic];
    }
    if landsat != [] {
      images := images[LandsatKey := landsat];
    }
    if sentinel != [] {
      images := images[SentinelKey := sentinel];
    }
    r := ImagesFound(images, Location(lat, lon), DateRange(start, end));
  }

  // ----- _classify_changes -----

  const Deforestation := "deforestation"
  const VegetationGrowth := "vegetation_growth"
  const WaterBodyReduction := "water_body_reduction"
  const WaterBodyExpansion := "water_body_expansion"
  const Urbanization := "urbanization"
  const UrbanDegradation := "urban_degradation"
  const MinorChanges := "minor_environmental_changes"

  /** The dimension a label belongs to: vegetation 0, water 1, urban 2, none 3. */
  function Dimension(tag: string): nat {
    if tag == Deforestation || tag == VegetationGrowth then 0
    else if tag == WaterBodyReduction || tag == WaterBodyExpansion then 1
    else if tag == Urbanization || tag == UrbanDegradation then 2
    else 3
  }

  /** Whether any of the six strict thresholds fires. */
  predicate AnyThreshold(vegetation: real, water: real, urban: real) {
    vegetation > 50.0 || vegetation < -30.0 || water > 40.0 || water < -40.0
    || urban > 60.0 || urban < -50.0
  }

  function VegetationLabels(vegetation: real): seq<string> {
    if vegetation > 50.0 then [Deforestation]
    else if vegetation < -30.0 then [VegetationGrowth]
    else []
  }

  function WaterLabels(water: real): seq<string> {
    if water > 40.0 then [WaterBodyReduction]
    else if water < -40.0 then [WaterBodyExpansion]
    else []
  }

  function UrbanLabels(urban: real): seq<string> {
    if urban > 60.0 then [Urbanization]
    else if urban < -50.0 then [UrbanDegradation]
    else []
  }

  /**
   * The labels `_classify_changes` produces, one dimension after the other;
   * the fallback label stands alone exactly when no threshold fires.
   */
  function ChangeLabels(vegetation: real, water: real, urban: real): (r: seq<string>)
    ensures 1 <= |r| <= 3
    ensures r == [MinorChanges] <==> !AnyThreshold(vegetation, water, urban)
  {
    var found := VegetationLabels(vegetation) + WaterLabels(water) + UrbanLabels(urban);
    assert |MinorChanges| == 27 && |found| <= 3;
    assert forall x :: x in found ==> |x| < 27;
    if found == [] then [MinorChanges] else found
  }

  /**
   * `_classify_changes`: appends at most one label per dimension, then the
   * fallback label when nothing was appended.
   */
  method ClassifyChanges(vegetation: real, water: real, urban: real) returns (changes: seq<string>)
    ensures changes == ChangeLabels(vegetation, water, urban)
    ensures |changes| >= 1
    ensures changes == [MinorChanges] <==> !AnyThreshold(vegetation, water, urban)
  {
    changes := [];
    if vegetation > 50.0 {
      changes := changes + [Deforestation];
    } else if vegetation < -30.0 {
      changes := changes + [VegetationGrowth];
    }
    assert changes == VegetationLabels(vegetation);
    if water > 40.0 {
      changes := changes + [WaterBodyReduction];
    } else if water < -40.0 {
      changes := changes + [WaterBodyExpansion];
    }
    assert changes == VegetationLabels(vegetation) + WaterLabels(water);
    if urban > 60.0 {
      changes := changes + [Urbanization];
    } else if urban < -50.0 {
      changes := changes + [UrbanDegradation];
    }
    assert changes == VegetationLabels(vegetation) + WaterLabels(water) + UrbanLabels(urban);
    if changes == [] {
      changes := changes + [MinorChanges];
    }
  }

  /**
   * Labels come in the order vegetation, water, urban, with strictly
   * increasing dimension, hence at most one label per dimension.
   */
  lemma ClassifyOrdered(vegetation: real, water: real, urban: real)
    ensures var c := ChangeLabels(vegetation, water, urban);
      forall i, j :: 0 <= i < j < |c| ==> Dimension(c[i]) < Dimension(c[j])
  {
    var v, w, u := VegetationLabels(vegetation), WaterLabels(water), UrbanLabels(urban);
    assert forall x :: x in v ==> Dimension(x) == 0;
    assert forall x :: x in w ==> Dimension(x) == 1;
    assert forall x :: x in u ==> Dimension(x) == 2;
    var c := ChangeLabels(vegetation, water, urban);
    if v + w + u != [] {
      assert c == v + w + u;
      forall k | 0 <= k < |c|
        ensures Dimension(c[k]) == if k < |v| then 0 else if k < |v| + |w| then 1 else 2
      {
        if k < |v| {
          assert c[k] in v;
        } else if k < |v| + |w| {
          assert c[k] == w[k - |v|];
        } else {
          assert c[k] == u[k - |v| - |w|];
        }
      }
    }
  }

  /** Each label appears exactly when its strict threshold fires. */
  lemma ClassifyThresholds(vegetation: real, water: real, urban: real)
    ensures var c := ChangeLabels(vegetation, water, urban);
      && (Deforestation in c <==> vegetation > 50.0)
      && (VegetationGrowth in c <==> vegetation < -30.0)
      && (WaterBodyReduction in c <==> water > 40.0)
      && (WaterBodyExpansion in c <==> water < -40.0)
      && (Urbanization in c <==> urban > 60.0)
      && (UrbanDegradation in c <==> urban < -50.0)
      && (MinorChanges in c <==> !AnyThreshold(vegetation, water, urban))
  {
    var v, w, u := VegetationLabels(vegetation), WaterLabels(water), UrbanLabels(urban);
    var c := ChangeLabels(vegetation, water, urban);
    assert forall x :: x in v + w + u <==> x in v || x in w || x in u;
    assert MinorChanges !in v + w + u;
  }

  // ----- predict_future_impact -----

  datatype RiskLevel = Low | Moderate | High {
    function Name(): string {
      match this
      case Low => "LOW"
      case Moderate => "MODERATE"
      case High => "HIGH"
    }
  }

  /** The input dictionary; absent keys are `None`. */
  datatype ChangeAnalysis = ChangeAnalysis(changePercentage: Option<real>, changeTypes: Option<seq<string>>)

  datatype Prediction = Prediction(
    timePeriod: string,
    riskLevel: RiskLevel,
    predictions: seq<string>,
    recommendations: seq<string>)

  /** The strict risk thresholds on the change percentage. */
  function Risk(changePercentage: real): (level: RiskLevel)
    ensures level == High <==> changePercentage > 20.0
    ensures level == Low <==> changePercentage <= 10.0
  {
    if changePercentage > 20.0 then High
    else if changePercentage > 10.0 then Moderate
    else Low
  }

  const DeforestationPrediction := "Continued deforestation may lead to soil erosion and biodiversity loss"
  const DeforestationAdvice := "Implement reforestation programs and stricter logging regulations"
  const UrbanizationPrediction := "Urban expansion may increase pollution and reduce green spaces"
  const UrbanizationAdvice := "Plan sustainable urban development with green infrastructure"
  const WaterReductionPrediction := "Water body reduction may affect local ecosystems and water availability"
  const WaterReductionAdvice := "Monitor water usage and implement conservation measures"
  const VegetationGrowthPrediction := "Vegetation growth indicates positive environmental recovery"
  const VegetationGrowthAdvice := "Continue current conservation efforts"

  /** The (prediction, recommendation) pair a change type contributes, if any. */
  function Advice(changeType: string): Option<(string, string)> {
    if changeType == Deforestation then
      Some((DeforestationPrediction,
            DeforestationAdvice))
    else if changeType == Urbanization then
      Some((UrbanizationPrediction,
            UrbanizationAdvice))
    else if changeType == WaterBodyReduction then
      Some((WaterReductionPrediction,
            WaterReductionAdvice))
    else if changeType == VegetationGrowth then
      Some((VegetationGrowthPrediction,
            VegetationGrowthAdvice))
    else None
  }

  /** The pairs contributed by a list of change types, in order. */
  function AdviceFor(types: seq<string>): (r: seq<(string, string)>)
    ensures |r| == KnownCount(types) <= |types|
  {
    if types == [] then []
    else
      var last := types[|types| - 1];
      AdviceFor(types[..|types| - 1]) + (if Advice(last).Some? then [Advice(last).value] else [])
  }

  /** How many entries of `types` have advice. */
  function KnownCount(types: seq<string>): nat {
    if types == [] then 0
    else KnownCount(types[..|types| - 1]) + (if Advice(types[|types| - 1]).Some? then 1 else 0)
  }

  function Firsts(pairs: seq<(string, string)>): (r: seq<string>)
    ensures |r| == |pairs| && forall i :: 0 <= i < |pairs| ==> r[i] == pairs[i].0
  {
    seq(|pairs|, i requires 0 <= i < |pairs| => pairs[i].0)
  }

  function Seconds(pairs: seq<(string, string)>): (r: seq<string>)
    ensures |r| == |pairs| && forall i :: 0 <= i < |pairs| ==> r[i] == pairs[i].1
  {
    seq(|pairs|, i requires 0 <= i < |pairs| => pairs[i].1)
  }

  /**
   * `predict_future_impact`: a missing change percentage counts as 0 and a
   * missing type list as empty; the loop adds one prediction and its matching
   * recommendation for each change type that has advice, in input order.
   */
  method PredictFutureImpact(analysis: ChangeAnalysis, timePeriod: string) returns (p: Prediction)
    ensures p.timePeriod == timePeriod
    ensures p.riskLevel == Risk(analysis.changePercentage.GetOr(0.0))
    ensures p.predictions == Firsts(AdviceFor(analysis.changeTypes.GetOr([])))
    ensures p.recommendations == Seconds(AdviceFor(analysis.changeTypes.GetOr([])))
  {
    var changePercentage := analysis.changePercentage.GetOr(0.0);
    var types := analysis.changeTypes.GetOr([]);
    var risk := Low;
    if changePercentage > 20.0 {
      risk := High;
    } else if changePercentage > 10.0 {
      risk := Moderate;
    }
    var predictions: seq<string> := [];
    var recommendations: seq<string> := [];
    var i := 0;
    while i < |types|
      invariant 0 <= i <= |types|
      invariant predictions == Firsts(AdviceFor(types[..i]))
      invariant recommendations == Seconds(AdviceFor(types[..i]))
    {
      AdviceStep(types, i);
      var t := types[i];
      if t == Deforestation {
        predictions := predictions + [DeforestationPrediction];
        recommendations := recommendations + [DeforestationAdvice];
      } else if t == Urbanization {
        predictions := predictions + [UrbanizationPrediction];
        recommendations := recommendations + [UrbanizationAdvice];
      } else if t == WaterBodyReduction {
        predictions := predictions + [WaterReductionPrediction];
        recommendations := recommendations + [WaterReductionAdvice];
      } else if t == VegetationGrowth {
        predictions := predictions + [VegetationGrowthPrediction];
        recommendations := recommendations + [VegetationGrowthAdvice];
      }
      i := i + 1;
    }
    assert types[..|types|] == types;
    p := Prediction(timePeriod, risk, predictions, recommendations);
  }

  lemma AdviceStep(types: seq<string>, i: nat)
    requires i < |types|
    ensures Firsts(AdviceFor(types[..i + 1])) == Firsts(AdviceFor(types[..i]))
      + (if Advice(types[i]).Some? then [Advice(types[i]).value.0] else [])
    ensures Seconds(AdviceFor(types[..i + 1])) == Seconds(AdviceFor(types[..i]))
      + (if Advice(types[i]).Some? then [Advice(types[i]).value.1] else [])
  {
    assert types[..i + 1][..i] == types[..i];
  }

  /**
   * Predictions and recommendations grow in lockstep: one of each per change
   * type that has advice, and the k-th recommendation answers the k-th prediction.
   */
  lemma {:induction false} AdviceLockstep(types: seq<string>)
    ensures |Firsts(AdviceFor(types))| == |Seconds(AdviceFor(types))| == KnownCount(types)
    ensures forall k :: 0 <= k < KnownCount(types) ==>
      exists t :: t in types && Advice(t) == Some((Firsts(AdviceFor(types))[k], Seconds(AdviceFor(types))[k]))
  {
    if types != [] {
      var init := types[..|types| - 1];
      AdviceLockstep(init);
      var pairs := AdviceFor(types);
      forall k | 0 <= k < KnownCount(types)
        ensures exists t :: t in types && Advice(t) == Some((Firsts(pairs)[k], Seconds(pairs)[k]))
      {
        if k < KnownCount(init) {
          var t :| t in init && Advice(t) == Some((Firsts(AdviceFor(init))[k], Seconds(AdviceFor(init))[k]));
          assert t in types;
        } else {
          assert types[|types| - 1] in types;
        }
      }
    }
  }

  /** Change types without advice (such as "water_body_expansion") add nothing. */
  lemma {:induction false} AdviceIgnoresUnknown(types: seq<string>, t: string)
    requires Advice(t).None?
    ensures AdviceFor(types + [t]) == AdviceFor(types)
    ensures AdviceFor([t] + types) == AdviceFor(types)
    decreases |types|
  {
    assert (types + [t])[..|types|] == types;
    if types != [] {
      var init := types[..|types| - 1];
      assert ([t] + types)[..|types|] == [t] + init;
      AdviceIgnoresUnknown(init, t);
    } else {
      assert [t] + types == [t];
      assert [t][..0] == [];
    }
  }
}
