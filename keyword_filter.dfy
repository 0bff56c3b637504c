// backend/app.py: the keyword filters the glacier, drainage and roads
// endpoints apply to the model's recommendations, and what each filter keeps
// of the recommendation texts backend/ecoscope_model.py produces.

module KeywordFilter {
  import opened Strings
  import opened EcoScopeModel

  /** `k1 in rec.lower() or k2 in rec.lower()`. */
  predicate Mentions(rec: string, k1: string, k2: string) {
    Contains(Lower(rec), k1) || Contains(Lower(rec), k2)
  }

  /** `[rec for rec in recs if k1 in rec.lower() or k2 in rec.lower()]`. */
  function FilterRecs(recs: seq<string>, k1: string, k2: string): seq<string> {
    if recs == [] then []
    else (if Mentions(recs[0], k1, k2) then [recs[0]] else []) + FilterRecs(recs[1..], k1, k2)
  }

  /** `a` occurs in `b` with its order kept, possibly with gaps. */
  predicate IsSubsequence(a: seq<string>, b: seq<string>)
    decreases |b|
  {
    a == [] || (b != [] && (if a[0] == b[0] then IsSubsequence(a[1..], b[1..]) else IsSubsequence(a, b[1..])))
  }

  /**
   * A filter keeps exactly the recommendations that mention a keyword, in
   * their original order.
   */
  lemma {:induction false} FilterRecsSpec(recs: seq<string>, k1: string, k2: string)
    ensures forall x :: x in FilterRecs(recs, k1, k2) <==> x in recs && Mentions(x, k1, k2)
    ensures IsSubsequence(FilterRecs(recs, k1, k2), recs)
  {
    if recs != [] {
      FilterRecsSpec(recs[1..], k1, k2);
      assert recs == [recs[0]] + recs[1..];
      var rest := FilterRecs(recs[1..], k1, k2);
      if Mentions(recs[0], k1, k2) {
        assert FilterRecs(recs, k1, k2) == [recs[0]] + rest;
        assert ([recs[0]] + rest)[1..] == rest;
      } else {
        assert FilterRecs(recs, k1, k2) == rest;
        if rest != [] {
          assert rest[0] in rest;
          assert rest[0] != recs[0];
        }
      }
    }
  }

  lemma {:induction false} FilterRecsAppend(a: seq<string>, b: seq<string>, k1: string, k2: string)
    ensures FilterRecs(a + b, k1, k2) == FilterRecs(a, k1, k2) + FilterRecs(b, k1, k2)
  {
    if a == [] {
      assert a + b == b;
    } else {
      assert (a + b)[0] == a[0];
      assert (a + b)[1..] == a[1..] + b;
      FilterRecsAppend(a[1..], b, k1, k2);
    }
  }

  /** `Mentions` depends only on the lower-cased text. */
  lemma {:induction false} MentionsVia(rec: string, low: string, k1: string, k2: string)
    requires Lower(rec) == low
    ensures Mentions(rec, k1, k2) <==> Contains(low, k1) || Contains(low, k2)
  {
  }

  /** `sub` occurs in `x + sub + y`. */
  lemma {:induction false} ContainsMid(x: string, sub: string, y: string)
    ensures Contains(x + sub + y, sub)
  {
    var s := x + sub + y;
    assert s[|x|..][..|sub|] == sub;
  }

  // ------------------------------------------------------ proof helpers
  //
  // Everything from here down to MentionsGlacierWater is proof plumbing with
  // no counterpart in the source. Lower-casing a whole recommendation literal
  // and searching it for a keyword in one step is too costly for the solver,
  // so each literal is lowered word by word (the Lower* lemmas), reassembled
  // (the *Pieces and *Lowered lemmas), and searched one keyword at a time
  // (the *Around*, *Glacier, *Water, ... lemmas). The Mentions* lemmas below
  // collect these facts.

  // The lower-cased recommendation texts, word by word.

  lemma LowerImmediate() ensures Lower("Immediate") == "immediate" {}
  lemma LowerSpaceEnvironmental() ensures Lower(" environmental") == " environmental" {}
  lemma LowerSpaceAssessment() ensures Lower(" assessment") == " assessment" {}
  lemma LowerSpaceRequired() ensures Lower(" required") == " required" {}
  lemma LowerConsider() ensures Lower("Consider") == "consider" {}
  lemma LowerSpaceImplementing() ensures Lower(" implementing") == " implementing" {}
  lemma LowerSpaceConservation() ensures Lower(" conservation") == " conservation" {}
  lemma LowerSpaceMeasures() ensures Lower(" measures") == " measures" {}
  lemma LowerMonitor() ensures Lower("Monitor") == "monitor" {}
  lemma LowerSpaceGlacier() ensures Lower(" glacier") == " glacier" {}
  lemma LowerSpaceMelting() ensures Lower(" melting") == " melting" {}
  lemma LowerSpacePatterns() ensures Lower(" patterns") == " patterns" {}
  lemma LowerAssess() ensures Lower("Assess") == "assess" {}
  lemma LowerSpaceImpact() ensures Lower(" impact") == " impact" {}
  lemma LowerSpaceOnWater() ensures Lower(" on water") == " on water" {}
  lemma LowerSpaceResources() ensures Lower(" resources") == " resources" {}
  lemma LowerReview() ensures Lower("Review") == "review" {}
  lemma LowerSpaceUrban() ensures Lower(" urban") == " urban" {}
  lemma LowerSpaceDrainage() ensures Lower(" drainage") == " drainage" {}
  lemma LowerSpaceInfrastructure() ensures Lower(" infrastructure") == " infrastructure" {}
  lemma LowerCheck() ensures Lower("Check") == "check" {}
  lemma LowerSpaceFor() ensures Lower(" for") == " for" {}
  lemma LowerSpaceFlooding() ensures Lower(" flooding") == " flooding" {}
  lemma LowerSpaceRisks() ensures Lower(" risks") == " risks" {}
  lemma LowerSpaceDevelopment() ensures Lower(" development") == " development" {}
  lemma LowerSpaceHabitat() ensures Lower(" habitat") == " habitat" {}
  lemma LowerSpaceFragmentation() ensures Lower(" fragmentation") == " fragmentation" {}

  const ImmediateAssessmentLower := "immediate" + " environmental" + " assessment" + " required"
  const ConservationMeasuresLower := "consider" + " implementing" + " conservation" + " measures"
  const MonitorGlacierLower := "monitor" + " glacier" + " melting" + " patterns"
  const WaterResourcesLower := "assess" + " impact" + " on water" + " resources"
  const ReviewDrainageLower := "review" + " urban" + " drainage" + " infrastructure"
  const FloodingRisksLower := "check" + " for" + " flooding" + " risks"
  const InfrastructureImpactLower := "assess" + " infrastructure" + " development" + " impact"
  const HabitatFragmentationLower := "monitor" + " habitat" + " fragmentation"

  lemma ImmediateAssessmentPieces()
    ensures ImmediateAssessment == "Immediate" + " environmental" + " assessment" + " required"
  {
  }

  lemma ImmediateAssessmentLowered()
    ensures Lower(ImmediateAssessment) == ImmediateAssessmentLower
  {
    ImmediateAssessmentPieces();
    LowerImmediate();
    LowerSpaceEnvironmental();
    LowerSpaceAssessment();
    LowerSpaceRequired();
    LowerOfPieces(ImmediateAssessment, "Immediate", " environmental", " assessment", " required",
                  ImmediateAssessmentLower, "immediate", " environmental", " assessment", " required");
  }

  lemma ImmediateAssessmentGlacier()
    ensures !Contains(ImmediateAssessmentLower, "glacier")
  {
    NotContainsMissingChar(ImmediateAssessmentLower, "glacier", 'g');
  }

  lemma ImmediateAssessmentWater()
    ensures !Contains(ImmediateAssessmentLower, "water")
  {
    NotContainsMissingChar(ImmediateAssessmentLower, "water", 'w');
  }

  lemma ImmediateAssessmentDrainage()
    ensures !Contains(ImmediateAssessmentLower, "drainage")
  {
    NotContainsMissingChar(ImmediateAssessmentLower, "drainage", 'g');
  }

  lemma ImmediateAssessmentFlooding()
    ensures !Contains(ImmediateAssessmentLower, "flooding")
  {
    NotContainsMissingChar(ImmediateAssessmentLower, "flooding", 'f');
  }

  lemma ImmediateAssessmentInfrastructure()
    ensures !Contains(ImmediateAssessmentLower, "infrastructure")
  {
    NotContainsMissingChar(ImmediateAssessmentLower, "infrastructure", 'f');
  }

  lemma ImmediateAssessmentHabitat()
    ensures !Contains(ImmediateAssessmentLower, "habitat")
  {
    NotContainsMissingChar(ImmediateAssessmentLower, "habitat", 'h');
  }

  lemma ConservationMeasuresPieces()
    ensures ConservationMeasures == "Consider" + " implementing" + " conservation" + " measures"
  {
  }

  lemma ConservationMeasuresLowered()
    ensures Lower(ConservationMeasures) == ConservationMeasuresLower
  {
    ConservationMeasuresPieces();
    LowerConsider();
    LowerSpaceImplementing();
    LowerSpaceConservation();
    LowerSpaceMeasures();
    LowerOfPieces(ConservationMeasures, "Consider", " implementing", " conservation", " measures",
                  ConservationMeasuresLower, "consider", " implementing", " conservation", " measures");
  }

  lemma ConservationMeasuresAroundG()
    ensures ConservationMeasuresLower == "consider implementin" + ['g'] + " conservation measures"
  {
  }

  lemma ConservationMeasuresGlacier()
    ensures !Contains(ConservationMeasuresLower, "glacier")
  {
    ConservationMeasuresAroundG();
    NotContainsSingleOccurrence("consider implementin", 'g', " conservation measures", "glacier", 1);
  }

  lemma ConservationMeasuresWater()
    ensures !Contains(ConservationMeasuresLower, "water")
  {
    NotContainsMissingChar(ConservationMeasuresLower, "water", 'w');
  }

  lemma ConservationMeasuresAroundD()
    ensures ConservationMeasuresLower == "consi" + ['d'] + "er implementing conservation measures"
  {
  }

  lemma ConservationMeasuresDrainage()
    ensures !Contains(ConservationMeasuresLower, "drainage")
  {
    ConservationMeasuresAroundD();
    NotContainsSingleOccurrence("consi", 'd', "er implementing conservation measures", "drainage", 1);
  }

  lemma ConservationMeasuresFlooding()
    ensures !Contains(ConservationMeasuresLower, "flooding")
  {
    NotContainsMissingChar(ConservationMeasuresLower, "flooding", 'f');
  }

  lemma ConservationMeasuresInfrastructure()
    ensures !Contains(ConservationMeasuresLower, "infrastructure")
  {
    NotContainsMissingChar(ConservationMeasuresLower, "infrastructure", 'f');
  }

  lemma ConservationMeasuresHabitat()
    ensures !Contains(ConservationMeasuresLower, "habitat")
  {
    NotContainsMissingChar(ConservationMeasuresLower, "habitat", 'h');
  }

  lemma MonitorGlacierPieces()
    ensures MonitorGlacier == "Monitor" + " glacier" + " melting" + " patterns"
  {
  }

  lemma MonitorGlacierLowered()
    ensures Lower(MonitorGlacier) == MonitorGlacierLower
  {
    MonitorGlacierPieces();
    LowerMonitor();
    LowerSpaceGlacier();
    LowerSpaceMelting();
    LowerSpacePatterns();
    LowerOfPieces(MonitorGlacier, "Monitor", " glacier", " melting", " patterns",
                  MonitorGlacierLower, "monitor", " glacier", " melting", " patterns");
  }

  lemma MonitorGlacierAroundGlacier()
    ensures MonitorGlacierLower == "monitor " + "glacier" + " melting patterns"
  {
  }

  lemma MonitorGlacierGlacier()
    ensures Contains(MonitorGlacierLower, "glacier")
  {
    MonitorGlacierAroundGlacier();
    ContainsMid("monitor ", "glacier", " melting patterns");
  }

  lemma MonitorGlacierWater()
    ensures !Contains(MonitorGlacierLower, "water")
  {
    NotContainsMissingChar(MonitorGlacierLower, "water", 'w');
  }

  lemma MonitorGlacierDrainage()
    ensures !Contains(MonitorGlacierLower, "drainage")
  {
    NotContainsMissingChar(MonitorGlacierLower, "drainage", 'd');
  }

  lemma MonitorGlacierFlooding()
    ensures !Contains(MonitorGlacierLower, "flooding")
  {
    NotContainsMissingChar(MonitorGlacierLower, "flooding", 'f');
  }

  lemma MonitorGlacierInfrastructure()
    ensures !Contains(MonitorGlacierLower, "infrastructure")
  {
    NotContainsMissingChar(MonitorGlacierLower, "infrastructure", 'f');
  }

  lemma MonitorGlacierHabitat()
    ensures !Contains(MonitorGlacierLower, "habitat")
  {
    NotContainsMissingChar(MonitorGlacierLower, "habitat", 'h');
  }

  lemma WaterResourcesPieces()
    ensures WaterResources == "Assess" + " impact" + " on water" + " resources"
  {
  }

  lemma WaterResourcesLowered()
    ensures Lower(WaterResources) == WaterResourcesLower
  {
    WaterResourcesPieces();
    LowerAssess();
    LowerSpaceImpact();
    LowerSpaceOnWater();
    LowerSpaceResources();
    LowerOfPieces(WaterResources, "Assess", " impact", " on water", " resources",
                  WaterResourcesLower, "assess", " impact", " on water", " resources");
  }

  lemma WaterResourcesGlacier()
    ensures !Contains(WaterResourcesLower, "glacier")
  {
    NotContainsMissingChar(WaterResourcesLower, "glacier", 'g');
  }

  lemma WaterResourcesAroundWater()
    ensures WaterResourcesLower == "assess impact on " + "water" + " resources"
  {
  }

  lemma WaterResourcesWater()
    ensures Contains(WaterResourcesLower, "water")
  {
    WaterResourcesAroundWater();
    ContainsMid("assess impact on ", "water", " resources");
  }

  lemma WaterResourcesDrainage()
    ensures !Contains(WaterResourcesLower, "drainage")
  {
    NotContainsMissingChar(WaterResourcesLower, "drainage", 'd');
  }

  lemma WaterResourcesFlooding()
    ensures !Contains(WaterResourcesLower, "flooding")
  {
    NotContainsMissingChar(WaterResourcesLower, "flooding", 'f');
  }

  lemma WaterResourcesInfrastructure()
    ensures !Contains(WaterResourcesLower, "infrastructure")
  {
    NotContainsMissingChar(WaterResourcesLower, "infrastructure", 'f');
  }

  lemma WaterResourcesHabitat()
    ensures !Contains(WaterResourcesLower, "habitat")
  {
    NotContainsMissingChar(WaterResourcesLower, "habitat", 'h');
  }

  lemma ReviewDrainagePieces()
    ensures ReviewDrainage == "Review" + " urban" + " drainage" + " infrastructure"
  {
  }

  lemma ReviewDrainageLowered()
    ensures Lower(ReviewDrainage) == ReviewDrainageLower
  {
    ReviewDrainagePieces();
    LowerReview();
    LowerSpaceUrban();
    LowerSpaceDrainage();
    LowerSpaceInfrastructure();
    LowerOfPieces(ReviewDrainage, "Review", " urban", " drainage", " infrastructure",
                  ReviewDrainageLower, "review", " urban", " drainage", " infrastructure");
  }

  lemma ReviewDrainageGlacier()
    ensures !Contains(ReviewDrainageLower, "glacier")
  {
    NotContainsMissingChar(ReviewDrainageLower, "glacier", 'l');
  }

  lemma ReviewDrainageAroundW()
    ensures ReviewDrainageLower == "revie" + ['w'] + " urban drainage infrastructure"
  {
  }

  lemma ReviewDrainageWater()
    ensures !Contains(ReviewDrainageLower, "water")
  {
    ReviewDrainageAroundW();
    NotContainsSingleOccurrence("revie", 'w', " urban drainage infrastructure", "water", 1);
  }

  lemma ReviewDrainageAroundDrainage()
    ensures ReviewDrainageLower == "review urban " + "drainage" + " infrastructure"
  {
  }

  lemma ReviewDrainageDrainage()
    ensures Contains(ReviewDrainageLower, "drainage")
  {
    ReviewDrainageAroundDrainage();
    ContainsMid("review urban ", "drainage", " infrastructure");
  }

  lemma ReviewDrainageFlooding()
    ensures !Contains(ReviewDrainageLower, "flooding")
  {
    NotContainsMissingChar(ReviewDrainageLower, "flooding", 'l');
  }

  lemma ReviewDrainageAroundInfrastructure()
    ensures ReviewDrainageLower == "review urban drainage " + "infrastructure" + ""
  {
  }

  lemma ReviewDrainageInfrastructure()
    ensures Contains(ReviewDrainageLower, "infrastructure")
  {
    ReviewDrainageAroundInfrastructure();
    ContainsMid("review urban drainage ", "infrastructure", "");
  }

  lemma ReviewDrainageHabitat()
    ensures !Contains(ReviewDrainageLower, "habitat")
  {
    NotContainsMissingChar(ReviewDrainageLower, "habitat", 'h');
  }

  lemma FloodingRisksPieces()
    ensures FloodingRisks == "Check" + " for" + " flooding" + " risks"
  {
  }

  lemma FloodingRisksLowered()
    ensures Lower(FloodingRisks) == FloodingRisksLower
  {
    FloodingRisksPieces();
    LowerCheck();
    LowerSpaceFor();
    LowerSpaceFlooding();
    LowerSpaceRisks();
    LowerOfPieces(FloodingRisks, "Check", " for", " flooding", " risks",
                  FloodingRisksLower, "check", " for", " flooding", " risks");
  }

  lemma FloodingRisksGlacier()
    ensures !Contains(FloodingRisksLower, "glacier")
  {
    NotContainsMissingChar(FloodingRisksLower, "glacier", 'a');
  }

  lemma FloodingRisksWater()
    ensures !Contains(FloodingRisksLower, "water")
  {
    NotContainsMissingChar(FloodingRisksLower, "water", 'w');
  }

  lemma FloodingRisksDrainage()
    ensures !Contains(FloodingRisksLower, "drainage")
  {
    NotContainsMissingChar(FloodingRisksLower, "drainage", 'a');
  }

  lemma FloodingRisksAroundFlooding()
    ensures FloodingRisksLower == "check for " + "flooding" + " risks"
  {
  }

  lemma FloodingRisksFlooding()
    ensures Contains(FloodingRisksLower, "flooding")
  {
    FloodingRisksAroundFlooding();
    ContainsMid("check for ", "flooding", " risks");
  }

  lemma FloodingRisksInfrastructure()
    ensures !Contains(FloodingRisksLower, "infrastructure")
  {
    NotContainsMissingChar(FloodingRisksLower, "infrastructure", 'a');
  }

  lemma FloodingRisksHabitat()
    ensures !Contains(FloodingRisksLower, "habitat")
  {
    NotContainsMissingChar(FloodingRisksLower, "habitat", 'a');
  }

  lemma InfrastructureImpactPieces()
    ensures InfrastructureImpact == "Assess" + " infrastructure" + " development" + " impact"
  {
  }

  lemma InfrastructureImpactLowered()
    ensures Lower(InfrastructureImpact) == InfrastructureImpactLower
  {
    InfrastructureImpactPieces();
    LowerAssess();
    LowerSpaceInfrastructure();
    LowerSpaceDevelopment();
    LowerSpaceImpact();
    LowerOfPieces(InfrastructureImpact, "Assess", " infrastructure", " development", " impact",
                  InfrastructureImpactLower, "assess", " infrastructure", " development", " impact");
  }

  lemma InfrastructureImpactGlacier()
    ensures !Contains(InfrastructureImpactLower, "glacier")
  {
    NotContainsMissingChar(InfrastructureImpactLower, "glacier", 'g');
  }

  lemma InfrastructureImpactWater()
    ensures !Contains(InfrastructureImpactLower, "water")
  {
    NotContainsMissingChar(InfrastructureImpactLower, "water", 'w');
  }

  lemma InfrastructureImpactDrainage()
    ensures !Contains(InfrastructureImpactLower, "drainage")
  {
    NotContainsMissingChar(InfrastructureImpactLower, "drainage", 'g');
  }

  lemma InfrastructureImpactFlooding()
    ensures !Contains(InfrastructureImpactLower, "flooding")
  {
    NotContainsMissingChar(InfrastructureImpactLower, "flooding", 'g');
  }

  lemma InfrastructureImpactAroundInfrastructure()
    ensures InfrastructureImpactLower == "assess " + "infrastructure" + " development impact"
  {
  }

  lemma InfrastructureImpactInfrastructure()
    ensures Contains(InfrastructureImpactLower, "infrastructure")
  {
    InfrastructureImpactAroundInfrastructure();
    ContainsMid("assess ", "infrastructure", " development impact");
  }

  lemma InfrastructureImpactHabitat()
    ensures !Contains(InfrastructureImpactLower, "habitat")
  {
    NotContainsMissingChar(InfrastructureImpactLower, "habitat", 'h');
  }

  lemma HabitatFragmentationPieces()
    ensures HabitatFragmentation == "Monitor" + " habitat" + " fragmentation" + ""
  {
  }

  lemma HabitatFragmentationLowered()
    ensures Lower(HabitatFragmentation) == HabitatFragmentationLower
  {
    HabitatFragmentationPieces();
    LowerMonitor();
    LowerSpaceHabitat();
    LowerSpaceFragmentation();
    LowerOfPieces(HabitatFragmentation, "Monitor", " habitat", " fragmentation", "",
                  HabitatFragmentationLower, "monitor", " habitat", " fragmentation", "");
  }

  lemma HabitatFragmentationGlacier()
    ensures !Contains(HabitatFragmentationLower, "glacier")
  {
    NotContainsMissingChar(HabitatFragmentationLower, "glacier", 'l');
  }

  lemma HabitatFragmentationWater()
    ensures !Contains(HabitatFragmentationLower, "water")
  {
    NotContainsMissingChar(HabitatFragmentationLower, "water", 'w');
  }

  lemma HabitatFragmentationDrainage()
    ensures !Contains(HabitatFragmentationLower, "drainage")
  {
    NotContainsMissingChar(HabitatFragmentationLower, "drainage", 'd');
  }

  lemma HabitatFragmentationFlooding()
    ensures !Contains(HabitatFragmentationLower, "flooding")
  {
    NotContainsMissingChar(HabitatFragmentationLower, "flooding", 'l');
  }

  lemma HabitatFragmentationInfrastructure()
    ensures !Contains(HabitatFragmentationLower, "infrastructure")
  {
    NotContainsMissingChar(HabitatFragmentationLower, "infrastructure", 's');
  }

  lemma HabitatFragmentationAroundHabitat()
    ensures HabitatFragmentationLower == "monitor " + "habitat" + " fragmentation"
  {
  }

  lemma HabitatFragmentationHabitat()
    ensures Contains(HabitatFragmentationLower, "habitat")
  {
    HabitatFragmentationAroundHabitat();
    ContainsMid("monitor ", "habitat", " fragmentation");
  }

  // ------------------------------------------------------ keyword matches

  /** Which recommendation texts mention "glacier" or "water". */
  lemma MentionsGlacierWater()
    ensures !Mentions(ImmediateAssessment, "glacier", "water")
    ensures !Mentions(ConservationMeasures, "glacier", "water")
    ensures Mentions(MonitorGlacier, "glacier", "water")
    ensures Mentions(WaterResources, "glacier", "water")
    ensures !Mentions(ReviewDrainage, "glacier", "water")
    ensures !Mentions(FloodingRisks, "glacier", "water")
    ensures !Mentions(InfrastructureImpact, "glacier", "water")
    ensures !Mentions(HabitatFragmentation, "glacier", "water")
  {
    ImmediateAssessmentLowered();
    ImmediateAssessmentGlacier();
    ImmediateAssessmentWater();
    MentionsVia(ImmediateAssessment, ImmediateAssessmentLower, "glacier", "water");
    ConservationMeasuresLowered();
    ConservationMeasuresGlacier();
    ConservationMeasuresWater();
    MentionsVia(ConservationMeasures, ConservationMeasuresLower, "glacier", "water");
    MonitorGlacierLowered();
    MonitorGlacierGlacier();
    MonitorGlacierWater();
    MentionsVia(MonitorGlacier, MonitorGlacierLower, "glacier", "water");
    WaterResourcesLowered();
    WaterResourcesGlacier();
    WaterResourcesWater();
    MentionsVia(WaterResources, WaterResourcesLower, "glacier", "water");
    ReviewDrainageLowered();
    ReviewDrainageGlacier();
    ReviewDrainageWater();
    MentionsVia(ReviewDrainage, ReviewDrainageLower, "glacier", "water");
    FloodingRisksLowered();
    FloodingRisksGlacier();
    FloodingRisksWater();
    MentionsVia(FloodingRisks, FloodingRisksLower, "glacier", "water");
    InfrastructureImpactLowered();
    InfrastructureImpactGlacier();
    InfrastructureImpactWater();
    MentionsVia(InfrastructureImpact, InfrastructureImpactLower, "glacier", "water");
    HabitatFragmentationLowered();
    HabitatFragmentationGlacier();
    HabitatFragmentationWater();
    MentionsVia(HabitatFragmentation, HabitatFragmentationLower, "glacier", "water");
  }

  /** Which recommendation texts mention "drainage" or "flooding". */
  lemma MentionsDrainageFlooding()
    ensures !Mentions(ImmediateAssessment, "drainage", "flooding")
    ensures !Mentions(ConservationMeasures, "drainage", "flooding")
    ensures !Mentions(MonitorGlacier, "drainage", "flooding")
    ensures !Mentions(WaterResources, "drainage", "flooding")
    ensures Mentions(ReviewDrainage, "drainage", "flooding")
    ensures Mentions(FloodingRisks, "drainage", "flooding")
    ensures !Mentions(InfrastructureImpact, "drainage", "flooding")
    ensures !Mentions(HabitatFragmentation, "drainage", "flooding")
  {
    ImmediateAssessmentLowered();
    ImmediateAssessmentDrainage();
    ImmediateAssessmentFlooding();
    MentionsVia(ImmediateAssessment, ImmediateAssessmentLower, "drainage", "flooding");
    ConservationMeasuresLowered();
    ConservationMeasuresDrainage();
    ConservationMeasuresFlooding();
    MentionsVia(ConservationMeasures, ConservationMeasuresLower, "drainage", "flooding");
    MonitorGlacierLowered();
    MonitorGlacierDrainage();
    MonitorGlacierFlooding();
    MentionsVia(MonitorGlacier, MonitorGlacierLower, "drainage", "flooding");
    WaterResourcesLowered();
    WaterResourcesDrainage();
    WaterResourcesFlooding();
    MentionsVia(WaterResources, WaterResourcesLower, "drainage", "flooding");
    ReviewDrainageLowered();
    ReviewDrainageDrainage();
    ReviewDrainageFlooding();
    MentionsVia(ReviewDrainage, ReviewDrainageLower, "drainage", "flooding");
    FloodingRisksLowered();
    FloodingRisksDrainage();
    FloodingRisksFlooding();
    MentionsVia(FloodingRisks, FloodingRisksLower, "drainage", "flooding");
    InfrastructureImpactLowered();
    InfrastructureImpactDrainage();
    InfrastructureImpactFlooding();
    MentionsVia(InfrastructureImpact, InfrastructureImpactLower, "drainage", "flooding");
    HabitatFragmentationLowered();
    HabitatFragmentationDrainage();
    HabitatFragmentationFlooding();
    MentionsVia(HabitatFragmentation, HabitatFragmentationLower, "drainage", "flooding");
  }

  /** Which recommendation texts mention "infrastructure" or "habitat". */
  lemma MentionsInfrastructureHabitat()
    ensures !Mentions(ImmediateAssessment, "infrastructure", "habitat")
    ensures !Mentions(ConservationMeasures, "infrastructure", "habitat")
    ensures !Mentions(MonitorGlacier, "infrastructure", "habitat")
    ensures !Mentions(WaterResources, "infrastructure", "habitat")
    ensures Mentions(ReviewDrainage, "infrastructure", "habitat")
    ensures !Mentions(FloodingRisks, "infrastructure", "habitat")
    ensures Mentions(InfrastructureImpact, "infrastructure", "habitat")
    ensures Mentions(HabitatFragmentation, "infrastructure", "habitat")
  {
    ImmediateAssessmentLowered();
    ImmediateAssessmentInfrastructure();
    ImmediateAssessmentHabitat();
    MentionsVia(ImmediateAssessment, ImmediateAssessmentLower, "infrastructure", "habitat");
    ConservationMeasuresLowered();
    ConservationMeasuresInfrastructure();
    ConservationMeasuresHabitat();
    MentionsVia(ConservationMeasures, ConservationMeasuresLower, "infrastructure", "habitat");
    MonitorGlacierLowered();
    MonitorGlacierInfrastructure();
    MonitorGlacierHabitat();
    MentionsVia(MonitorGlacier, MonitorGlacierLower, "infrastructure", "habitat");
    WaterResourcesLowered();
    WaterResourcesInfrastructure();
    WaterResourcesHabitat();
    MentionsVia(WaterResources, WaterResourcesLower, "infrastructure", "habitat");
    ReviewDrainageLowered();
    ReviewDrainageInfrastructure();
    ReviewDrainageHabitat();
    MentionsVia(ReviewDrainage, ReviewDrainageLower, "infrastructure", "habitat");
    FloodingRisksLowered();
    FloodingRisksInfrastructure();
    FloodingRisksHabitat();
    MentionsVia(FloodingRisks, FloodingRisksLower, "infrastructure", "habitat");
    InfrastructureImpactLowered();
    InfrastructureImpactInfrastructure();
    InfrastructureImpactHabitat();
    MentionsVia(InfrastructureImpact, InfrastructureImpactLower, "infrastructure", "habitat");
    HabitatFragmentationLowered();
    HabitatFragmentationInfrastructure();
    HabitatFragmentationHabitat();
    MentionsVia(HabitatFragmentation, HabitatFragmentationLower, "infrastructure", "habitat");
  }

  /** Filtering the full list one condition's pair at a time. */
  lemma FilterBlocks(f: Features, level: ImpactLevel, k1: string, k2: string)
    ensures FilterRecs(Recommendations(f, level), k1, k2)
      == FilterRecs(if Severe(level) then [ImmediateAssessment, ConservationMeasures] else [], k1, k2)
       + FilterRecs(if f.glaciers.detected then [MonitorGlacier, WaterResources] else [], k1, k2)
       + FilterRecs(if f.drainageSystems.detected then [ReviewDrainage, FloodingRisks] else [], k1, k2)
       + FilterRecs(if f.roadNetworks.detected then [InfrastructureImpact, HabitatFragmentation] else [], k1, k2)
  {
    var a := if Severe(level) then [ImmediateAssessment, ConservationMeasures] else [];
    var b := if f.glaciers.detected then [MonitorGlacier, WaterResources] else [];
    var c := if f.drainageSystems.detected then [ReviewDrainage, FloodingRisks] else [];
    var d := if f.roadNetworks.detected then [InfrastructureImpact, HabitatFragmentation] else [];
    FilterRecsAppend(a + b + c, d, k1, k2);
    FilterRecsAppend(a + b, c, k1, k2);
    FilterRecsAppend(a, b, k1, k2);
  }

  /** Filtering a pair whose two verdicts are known. */
  lemma FilterPair(x: string, y: string, k1: string, k2: string, mx: bool, my: bool)
    requires Mentions(x, k1, k2) == mx && Mentions(y, k1, k2) == my
    ensures FilterRecs([x, y], k1, k2) == (if mx then [x] else []) + (if my then [y] else [])
  {
    assert [x, y][1..] == [y];
    assert [y][1..] == [];
    assert FilterRecs([y], k1, k2) == (if Mentions(y, k1, k2) then [y] else []) + FilterRecs([], k1, k2);
  }

  /** The glacier endpoint keeps exactly the glacier pair. */
  lemma GlacierFilter(f: Features, level: ImpactLevel)
    ensures FilterRecs(Recommendations(f, level), "glacier", "water")
      == if f.glaciers.detected then [MonitorGlacier, WaterResources] else []
  {
    MentionsGlacierWater();
    FilterBlocks(f, level, "glacier", "water");
    FilterPair(ImmediateAssessment, ConservationMeasures, "glacier", "water", false, false);
    FilterPair(MonitorGlacier, WaterResources, "glacier", "water", true, true);
    FilterPair(ReviewDrainage, FloodingRisks, "glacier", "water", false, false);
    FilterPair(InfrastructureImpact, HabitatFragmentation, "glacier", "water", false, false);
  }

  /** The drainage endpoint keeps exactly the drainage pair. */
  lemma DrainageFilter(f: Features, level: ImpactLevel)
    ensures FilterRecs(Recommendations(f, level), "drainage", "flooding")
      == if f.drainageSystems.detected then [ReviewDrainage, FloodingRisks] else []
  {
    MentionsDrainageFlooding();
    FilterBlocks(f, level, "drainage", "flooding");
    FilterPair(ImmediateAssessment, ConservationMeasures, "drainage", "flooding", false, false);
    FilterPair(MonitorGlacier, WaterResources, "drainage", "flooding", false, false);
    FilterPair(ReviewDrainage, FloodingRisks, "drainage", "flooding", true, true);
    FilterPair(InfrastructureImpact, HabitatFragmentation, "drainage", "flooding", false, false);
  }

  /**
   * The roads endpoint keeps the road pair and also the drainage review,
   * whose text contains "infrastructure".
   */
  lemma RoadFilter(f: Features, level: ImpactLevel)
    ensures FilterRecs(Recommendations(f, level), "infrastructure", "habitat")
      == (if f.drainageSystems.detected then [ReviewDrainage] else [])
       + (if f.roadNetworks.detected then [InfrastructureImpact, HabitatFragmentation] else [])
  {
    MentionsInfrastructureHabitat();
    FilterBlocks(f, level, "infrastructure", "habitat");
    FilterPair(ImmediateAssessment, ConservationMeasures, "infrastructure", "habitat", false, false);
    FilterPair(MonitorGlacier, WaterResources, "infrastructure", "habitat", false, false);
    FilterPair(ReviewDrainage, FloodingRisks, "infrastructure", "habitat", true, false);
    FilterPair(InfrastructureImpact, HabitatFragmentation, "infrastructure", "habitat", true, true);
  }

}
