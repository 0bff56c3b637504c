// scripts/predict.py: thresholding the network's prediction into a binary
// mask, the changed area in square kilometres, the rule that names the
// change, and the result record of one prediction. The network itself,
// image loading and plotting are outside the model; the prediction is an
// input, seen flat as one value per pixel.

module Predict {
  import opened Strings
  import opened Numeric

  /** `(pred_mask > 0.5).astype(np.uint8) * 255`. */
  function BinaryMask(pred: seq<real>): (mask: seq<int>)
    ensures |mask| == |pred|
    ensures forall i :: 0 <= i < |pred| ==> (mask[i] == 255 <==> pred[i] > 0.5)
    ensures forall i :: 0 <= i < |pred| ==> (mask[i] == 0 <==> pred[i] <= 0.5)
  {
    seq(|pred|, i requires 0 <= i < |pred| => if pred[i] > 0.5 then 255 else 0)
  }

  /** `np.sum(binary_mask == 255)`. */
  function CountSet(mask: seq<int>): (n: nat)
    ensures n <= |mask|
  {
    if mask == [] then 0 else (if mask[0] == 255 then 1 else 0) + CountSet(mask[1..])
  }

  /** The default ground resolution of a pixel, in metres. */
  const DefaultResolution := 10

  /**
   * `calculate_area_change`: changed pixels times the pixel area
   * `resolution_m ** 2 / 1e6` km², rounded to four places.
   */
  function CalculateAreaChange(mask: seq<int>, resolutionM: int): (a: real)
    ensures 0.0 <= a
    ensures -0.00005 <= a - CountSet(mask) as real * PixelArea(resolutionM) <= 0.00005
  {
    AreaOfPixels(CountSet(mask), resolutionM)
  }

  /** The area of `count` pixels, rounded to four places. */
  function AreaOfPixels(count: nat, resolutionM: int): real {
    Round4(count as real * PixelArea(resolutionM))
  }

  /** `resolution_m ** 2 / 1e6`: the area of one pixel in km². */
  function PixelArea(resolutionM: int): (a: real)
    ensures 0.0 <= a
  {
    var r := resolutionM as real;
    r * r / 1000000.0
  }

  /** At the default 10 m resolution every changed pixel is exactly 0.0001 km². */
  lemma {:induction false} AreaAtDefaultResolution(mask: seq<int>)
    ensures CalculateAreaChange(mask, DefaultResolution) == CountSet(mask) as real / 10000.0
    ensures CountSet(mask) == 0 ==> CalculateAreaChange(mask, DefaultResolution) == 0.0
  {
    PixelsAtDefaultResolution(CountSet(mask));
  }

  lemma PixelsAtDefaultResolution(c: nat)
    ensures AreaOfPixels(c, DefaultResolution) == c as real / 10000.0
  {
    assert PixelArea(DefaultResolution) == 0.0001;
    assert c as real * PixelArea(DefaultResolution) == c as real / 10000.0;
    RoundHalfEvenWhole(c);
    assert c as real / 10000.0 * 10000.0 == c as real;
  }

  /** More changed pixels never give a smaller area. */
  lemma {:induction false} AreaMonotone(m1: seq<int>, m2: seq<int>, resolutionM: int)
    requires CountSet(m1) <= CountSet(m2)
    ensures CalculateAreaChange(m1, resolutionM) <= CalculateAreaChange(m2, resolutionM)
  {
    PixelsMonotone(CountSet(m1), CountSet(m2), resolutionM);
  }

  lemma PixelsMonotone(c1: nat, c2: nat, resolutionM: int)
    requires c1 <= c2
    ensures AreaOfPixels(c1, resolutionM) <= AreaOfPixels(c2, resolutionM)
  {
    ScaledRound4Monotone(c1, c2, resolutionM);
    assert AreaOfPixels(c1, resolutionM) == Round4(c1 as real * PixelArea(resolutionM));
  }

  lemma ScaledRound4Monotone(c1: nat, c2: nat, resolutionM: int)
    requires c1 <= c2
    ensures Round4(c1 as real * PixelArea(resolutionM)) <= Round4(c2 as real * PixelArea(resolutionM))
  {
    Round4ScaledMonotone(c1 as real, c2 as real, PixelArea(resolutionM));
  }

  datatype ChangeClass = ChangeClass(changeType: string, impact: string, measures: seq<string>)

  const GlacialLakeName := "Glacial" + " Lake" + " Expansion"
  const UrbanDrainageName := "Urban" + " Drainage" + " Shift"
  const RoadNetworkName := "Road" + " Network" + " Extension"

  const GlacialLakeExpansion := ChangeClass(GlacialLakeName, "Risk of flooding",
                                            ["Evacuate nearby zones", "Monitor water levels"])
  const UrbanDrainageShift := ChangeClass(UrbanDrainageName, "Urban flood risk",
                                          ["Unblock drainage", "Increase monitoring"])
  const RoadNetworkExtension := ChangeClass(RoadNetworkName, "Construction impact",
                                            ["Review construction permits", "Check water flow"])

  /** `classify_change_type`: two strict thresholds on the area. */
  function ClassifyChangeType(areaKm2: real): (k: ChangeClass)
    ensures k == GlacialLakeExpansion || k == UrbanDrainageShift || k == RoadNetworkExtension
    ensures |k.measures| == 2
  {
    if areaKm2 > 2.0 then GlacialLakeExpansion
    else if areaKm2 > 0.5 then UrbanDrainageShift
    else RoadNetworkExtension
  }

  /**
   * The three classes split the area line at 0.5 and 2 with the boundaries
   * going to the lower class, and each comes with exactly two measures.
   */
  lemma ClassifyBands(areaKm2: real)
    ensures ClassifyChangeType(areaKm2) == GlacialLakeExpansion <==> areaKm2 > 2.0
    ensures ClassifyChangeType(areaKm2) == UrbanDrainageShift <==> 0.5 < areaKm2 <= 2.0
    ensures ClassifyChangeType(areaKm2) == RoadNetworkExtension <==> areaKm2 <= 0.5
    ensures |ClassifyChangeType(areaKm2).measures| == 2
  {
  }

  /** The class never falls as the area grows. */
  lemma ClassifyMonotone(a1: real, a2: real)
    requires a1 <= a2
    ensures ClassifyChangeType(a1) == GlacialLakeExpansion ==> ClassifyChangeType(a2) == GlacialLakeExpansion
    ensures ClassifyChangeType(a2) == RoadNetworkExtension ==> ClassifyChangeType(a1) == RoadNetworkExtension
  {
  }

  /**
   * At the default resolution the class is decided by the pixel count alone:
   * more than 20000 changed pixels is a glacial lake expansion, more than
   * 5000 an urban drainage shift.
   */
  lemma {:induction false} ClassifyByPixels(mask: seq<int>)
    ensures var k := ClassifyChangeType(CalculateAreaChange(mask, DefaultResolution));
      && (k == GlacialLakeExpansion <==> CountSet(mask) > 20000)
      && (k == UrbanDrainageShift <==> 5000 < CountSet(mask) <= 20000)
      && (k == RoadNetworkExtension <==> CountSet(mask) <= 5000)
  {
    AreaAtDefaultResolution(mask);
    ClassifyBands(CalculateAreaChange(mask, DefaultResolution));
  }

  datatype Location = Location(lat: real, lon: real)

  /** The dictionary `predict_single_image` returns. */
  datatype PredictionResult = PredictionResult(
    location: Location,
    changeDetected: bool,
    changeType: string,
    areaChangedKm2: real,
    suspectedReason: string,
    impact: string,
    suggestedMeasures: seq<string>)

  const DefaultLat := 27.0120
  const DefaultLon := 88.1230

  /** `predict_single_image` from the network's per-pixel output `pred`. */
  function PredictSingleImage(pred: seq<real>, lat: real, lon: real): (r: PredictionResult)
    ensures r.changeDetected && r.location == Location(lat, lon)
    ensures var k := ClassifyChangeType(r.areaChangedKm2);
      r.changeType == k.changeType && r.impact == k.impact && r.suggestedMeasures == k.measures
    ensures r.suspectedReason == SuspectedReason(r.changeType)
  {
    var mask := BinaryMask(pred);
    var area := CalculateAreaChange(mask, DefaultResolution);
    var k := ClassifyChangeType(area);
    PredictionResult(Location(lat, lon), true, k.changeType, area,
                     SuspectedReason(k.changeType), k.impact, k.measures)
  }

  /** `f"Likely {change_type.lower()} in region"`. */
  function SuspectedReason(changeType: string): string {
    "Likely " + Lower(changeType) + " in region"
  }

  /** The number of prediction values above 0.5. */
  function CountAbove(pred: seq<real>): nat {
    if pred == [] then 0 else (if pred[0] > 0.5 then 1 else 0) + CountAbove(pred[1..])
  }

  /** The mask sets exactly the pixels predicted above 0.5. */
  lemma {:induction false} CountSetOfBinaryMask(pred: seq<real>)
    ensures CountSet(BinaryMask(pred)) == CountAbove(pred)
  {
    if pred != [] {
      CountSetOfBinaryMask(pred[1..]);
      assert BinaryMask(pred)[1..] == BinaryMask(pred[1..]);
    }
  }

  /**
   * Every result reports a change, at the given location, with an area of
   * 0.0001 km² per pixel predicted above 0.5, and carries the impact and
   * measures of the class that area falls in.
   */
  lemma {:induction false} PredictionResultShape(pred: seq<real>, lat: real, lon: real)
    ensures var r := PredictSingleImage(pred, lat, lon);
      var k := ClassifyChangeType(CountAbove(pred) as real / 10000.0);
      && r.changeDetected
      && r.location == Location(lat, lon)
      && r.areaChangedKm2 == CountAbove(pred) as real / 10000.0
      && r.changeType == k.changeType && r.impact == k.impact && r.suggestedMeasures == k.measures
  {
    CountSetOfBinaryMask(pred);
    AreaAtDefaultResolution(BinaryMask(pred));
  }

  /**
   * The change type is one of the three class names, and the suspected
   * reason names it in lower case.
   */
  lemma {:induction false} PredictionReason(pred: seq<real>, lat: real, lon: real)
    ensures var r := PredictSingleImage(pred, lat, lon);
      || (r.changeType == GlacialLakeName && r.suspectedReason == "Likely " + GlacialLakeLowered + " in region")
      || (r.changeType == UrbanDrainageName && r.suspectedReason == "Likely " + UrbanDrainageLowered + " in region")
      || (r.changeType == RoadNetworkName && r.suspectedReason == "Likely " + RoadNetworkLowered + " in region")
  {
    GlacialLakeLower();
    UrbanDrainageLower();
    RoadNetworkLower();
  }

  const GlacialLakeLowered := "glacial" + " lake" + " expansion"
  const UrbanDrainageLowered := "urban" + " drainage" + " shift"
  const RoadNetworkLowered := "road" + " network" + " extension"

  lemma GlacialLakeLower()
    ensures Lower(GlacialLakeName) == GlacialLakeLowered
  {
    LowerOfPieces(GlacialLakeName, "Glacial", " Lake", " Expansion", "",
                  GlacialLakeLowered, "glacial", " lake", " expansion", "");
  }

  lemma UrbanDrainageLower()
    ensures Lower(UrbanDrainageName) == UrbanDrainageLowered
  {
    LowerOfPieces(UrbanDrainageName, "Urban", " Drainage", " Shift", "",
                  UrbanDrainageLowered, "urban", " drainage", " shift", "");
  }

  lemma RoadNetworkLower()
    ensures Lower(RoadNetworkName) == RoadNetworkLowered
  {
    LowerOfPieces(RoadNetworkName, "Road", " Network", " Extension", "",
                  RoadNetworkLowered, "road", " network", " extension", "");
  }
}
