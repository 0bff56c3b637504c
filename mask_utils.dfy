// scripts/utlis.py: the changed-area percentage of a class mask, the reason
// named after its dominant change class, and the impact of a reason. A mask
// is seen flat, as the sequence of its pixel values.

module MaskUtils {
  import opened Wrappers
  import opened Numeric

  /** `np.count_nonzero(mask)`. */
  function CountNonzero(mask: seq<int>): (n: nat)
    ensures n <= |mask|
  {
    if mask == [] then 0 else (if mask[0] != 0 then 1 else 0) + CountNonzero(mask[1..])
  }

  /**
   * `get_change_area`: the share of non-zero pixels in percent, rounded to two
   * places. An empty mask divides by zero, which is `None`.
   */
  function GetChangeArea(mask: seq<int>): (r: Option<real>)
    ensures r.Some? <==> mask != []
    ensures r.Some? ==> 0.0 <= r.value <= 100.0
  {
    if |mask| == 0 then None else Some(ChangedPercent(mask))
  }

  /** `round((changed / total) * 100, 2)` for a non-empty mask. */
  function ChangedPercent(mask: seq<int>): (p: real)
    requires mask != []
    ensures 0.0 <= p <= 100.0
    ensures -0.005 <= p - CountNonzero(mask) as real / |mask| as real * 100.0 <= 0.005
  {
    RoundedShare(CountNonzero(mask) as real, |mask| as real);
    Round2(CountNonzero(mask) as real / |mask| as real * 100.0)
  }

  lemma {:induction false} PercentBounds(mask: seq<int>)
    requires mask != []
    ensures var exact := CountNonzero(mask) as real / |mask| as real * 100.0;
      && 0.0 <= ChangedPercent(mask) <= 100.0
      && -0.005 <= ChangedPercent(mask) - exact <= 0.005
      && (CountNonzero(mask) == 0 ==> ChangedPercent(mask) == 0.0)
      && (CountNonzero(mask) == |mask| ==> ChangedPercent(mask) == 100.0)
  {
    RoundedShare(CountNonzero(mask) as real, |mask| as real);
  }

  /**
   * A non-empty mask has a changed area between 0 and 100: 0 when no pixel is
   * set and 100 when every pixel is, within 0.005 of the exact share.
   */
  lemma {:induction false} ChangeAreaBounds(mask: seq<int>)
    ensures GetChangeArea(mask).Some? <==> mask != []
    ensures mask != [] ==>
      var a := GetChangeArea(mask).value;
      var exact := CountNonzero(mask) as real / |mask| as real * 100.0;
      && 0.0 <= a <= 100.0
      && -0.005 <= a - exact <= 0.005
      && (CountNonzero(mask) == 0 ==> a == 0.0)
      && (CountNonzero(mask) == |mask| ==> a == 100.0)
  {
    if mask != [] {
      PercentBounds(mask);
    }
  }

  /** A mask with more changed pixels of the same size never reports a smaller area. */
  lemma {:induction false} ChangeAreaMonotone(m1: seq<int>, m2: seq<int>)
    requires |m1| == |m2| > 0 && CountNonzero(m1) <= CountNonzero(m2)
    ensures GetChangeArea(m1).value <= GetChangeArea(m2).value
  {
    PercentMonotone(m1, m2);
  }

  lemma {:induction false} PercentMonotone(m1: seq<int>, m2: seq<int>)
    requires |m1| == |m2| > 0 && CountNonzero(m1) <= CountNonzero(m2)
    ensures ChangedPercent(m1) <= ChangedPercent(m2)
  {
    RoundedShareMonotone(CountNonzero(m1) as real, CountNonzero(m2) as real, |m1| as real);
  }

  // ----- get_reason -----

  predicate Increasing(s: seq<int>) {
    forall i, j :: 0 <= i < j < |s| ==> s[i] < s[j]
  }

  function InsertUnique(x: int, s: seq<int>): (r: seq<int>)
    ensures forall y :: y in r <==> y == x || y in s
    ensures |r| <= |s| + 1
  {
    if s == [] then [x]
    else if x < s[0] then [x] + s
    else if x == s[0] then s
    else [s[0]] + InsertUnique(x, s[1..])
  }

  /** `np.unique(mask)`: the distinct values, ascending. */
  function Unique(mask: seq<int>): (r: seq<int>)
    ensures forall y :: y in r <==> y in mask
    ensures |r| <= |mask|
  {
    if mask == [] then [] else InsertUnique(mask[0], Unique(mask[1..]))
  }

  lemma {:induction false} InsertUniqueSpec(x: int, s: seq<int>)
    requires Increasing(s)
    ensures Increasing(InsertUnique(x, s))
    ensures forall y :: y in InsertUnique(x, s) <==> y == x || y in s
  {
    if s != [] && x > s[0] {
      assert Increasing(s[1..]) by {
        forall i, j | 0 <= i < j < |s[1..]| ensures s[1..][i] < s[1..][j] {
          assert s[1..][i] == s[i + 1] && s[1..][j] == s[j + 1];
        }
      }
      InsertUniqueSpec(x, s[1..]);
      assert s == [s[0]] + s[1..];
      var t := InsertUnique(x, s[1..]);
      assert forall k :: 0 <= k < |t| ==> s[0] < t[k] by {
        forall k | 0 <= k < |t| ensures s[0] < t[k] {
          assert t[k] in t;
          if t[k] != x {
            var m :| 0 <= m < |s[1..]| && s[1..][m] == t[k];
            assert s[m + 1] == t[k];
          }
        }
      }
      var r := [s[0]] + t;
      forall i, j | 0 <= i < j < |r| ensures r[i] < r[j] {
        if i == 0 {
          assert r[j] == t[j - 1];
        } else {
          assert r[i] == t[i - 1] && r[j] == t[j - 1];
        }
      }
    }
  }

  /** `np.unique` lists each value of the mask once, in ascending order. */
  lemma {:induction false} UniqueSpec(mask: seq<int>)
    ensures Increasing(Unique(mask))
    ensures forall y :: y in Unique(mask) <==> y in mask
  {
    if mask != [] {
      UniqueSpec(mask[1..]);
      InsertUniqueSpec(mask[0], Unique(mask[1..]));
      assert mask == [mask[0]] + mask[1..];
    }
  }

  /** `counts` of `np.unique(..., return_counts=True)` for value `v`. */
  function Count(mask: seq<int>, v: int): nat {
    multiset(mask)[v]
  }

  /** `np.argmax` of the counts of `vals`: the first index with the largest count. */
  function FirstMax(vals: seq<int>, mask: seq<int>): (k: nat)
    requires vals != []
    ensures k < |vals|
  {
    if |vals| == 1 then 0
    else
      var k := FirstMax(vals[..|vals| - 1], mask);
      if Count(mask, vals[|vals| - 1]) > Count(mask, vals[k]) then |vals| - 1 else k
  }

  /** The chosen index has the largest count, and every earlier index a strictly smaller one. */
  lemma {:induction false} FirstMaxSpec(vals: seq<int>, mask: seq<int>)
    requires vals != []
    ensures var k := FirstMax(vals, mask);
      && (forall j :: 0 <= j < |vals| ==> Count(mask, vals[j]) <= Count(mask, vals[k]))
      && (forall j :: 0 <= j < k ==> Count(mask, vals[j]) < Count(mask, vals[k]))
  {
    if |vals| > 1 {
      var init := vals[..|vals| - 1];
      FirstMaxSpec(init, mask);
      var k := FirstMax(init, mask);
      assert forall j :: 0 <= j < |init| ==> init[j] == vals[j];
    }
  }

  const NoChange := "No change"
  const GlacialLakeExpansion := "Glacial Lake Expansion"
  const NewRoadConstruction := "New Road Construction"
  const DrainageNetworkChange := "Drainage Network Change"
  const UrbanExpansion := "Urban Expansion"
  const UnknownReason := "Unknown"

  /** `reason_map.get(main_class, "Unknown")`. */
  function ReasonOf(c: int): string {
    if c == 1 then GlacialLakeExpansion
    else if c == 2 then NewRoadConstruction
    else if c == 3 then DrainageNetworkChange
    else if c == 4 then UrbanExpansion
    else UnknownReason
  }

  /**
   * `main_class` of `get_reason`: the most frequent value other than the
   * smallest one. Requires at least two distinct values, as the source does
   * after its early return.
   */
  function MainClass(mask: seq<int>): (c: int)
    requires |Unique(mask)| >= 2
    ensures c in mask && Unique(mask)[0] < c
  {
    UniqueSpec(mask);
    var rest := Unique(mask)[1..];
    rest[FirstMax(rest, mask)]
  }

  /** `get_reason`. */
  function GetReason(mask: seq<int>): (r: string)
    ensures r == NoChange <==> |Unique(mask)| <= 1
  {
    if |Unique(mask)| <= 1 then NoChange else ReasonOf(MainClass(mask))
  }

  /** "No change" is answered exactly for masks with at most one distinct value. */
  lemma {:induction false} NoChangeIffUniform(mask: seq<int>)
    ensures |Unique(mask)| <= 1 <==> forall i, j :: 0 <= i < |mask| && 0 <= j < |mask| ==> mask[i] == mask[j]
  {
    UniqueSpec(mask);
    var u := Unique(mask);
    if |u| <= 1 {
      forall i, j | 0 <= i < |mask| && 0 <= j < |mask| ensures mask[i] == mask[j] {
        var x, y := mask[i], mask[j];
        assert x in mask && y in mask;
        assert x in u && y in u;
        assert x == u[0] && y == u[0];
      }
    } else {
      assert u[0] in mask && u[1] in mask && u[0] != u[1];
    }
  }

  /**
   * The main class is a value of the mask above its smallest value, at least
   * as frequent as every other such value, and strictly more frequent than
   * every smaller one, so ties go to the smaller value.
   */
  lemma {:induction false} MainClassSpec(mask: seq<int>)
    requires |Unique(mask)| >= 2
    ensures var c := MainClass(mask);
      var low := Unique(mask)[0];
      && c in mask && low in mask && low < c
      && (forall v :: v in mask ==> low <= v)
      && (forall v :: v in mask && v != low ==> Count(mask, v) <= Count(mask, c))
      && (forall v :: v in mask && low < v < c ==> Count(mask, v) < Count(mask, c))
  {
    UniqueSpec(mask);
    var u := Unique(mask);
    var k := FirstMax(u[1..], mask);
    assert MainClass(mask) == u[k + 1];
    assert u[0] in u && u[k + 1] in u;
    UniqueIndex(mask);
    MainClassMost(mask, u, k);
    MainClassFirst(mask, u, k);
  }

  /** Every value of the mask sits at some position of `np.unique`, none below the first. */
  lemma {:induction false} UniqueIndex(mask: seq<int>)
    requires Unique(mask) != []
    ensures forall v :: v in mask ==> exists m :: 0 <= m < |Unique(mask)| && Unique(mask)[m] == v
    ensures forall v :: v in mask ==> Unique(mask)[0] <= v
  {
    UniqueSpec(mask);
    var u := Unique(mask);
    forall v | v in mask ensures exists m :: 0 <= m < |u| && u[m] == v {
      assert v in u;
    }
    forall v | v in mask ensures u[0] <= v {
      assert v in u;
      var m :| 0 <= m < |u| && u[m] == v;
    }
  }

  lemma {:induction false} MainClassMost(mask: seq<int>, u: seq<int>, k: nat)
    requires u == Unique(mask) && |u| >= 2
    requires k == FirstMax(u[1..], mask)
    ensures forall v :: v in mask && v != u[0] ==> Count(mask, v) <= Count(mask, u[k + 1])
  {
    var rest := u[1..];
    FirstMaxSpec(rest, mask);
    UniqueIndex(mask);
    forall v | v in mask && v != u[0] ensures Count(mask, v) <= Count(mask, u[k + 1]) {
      var m :| 0 <= m < |u| && u[m] == v;
      assert rest[m - 1] == v;
    }
  }

  lemma {:induction false} MainClassFirst(mask: seq<int>, u: seq<int>, k: nat)
    requires u == Unique(mask) && |u| >= 2
    requires k == FirstMax(u[1..], mask)
    ensures forall v :: v in mask && u[0] < v < u[k + 1] ==> Count(mask, v) < Count(mask, u[k + 1])
  {
    var rest := u[1..];
    FirstMaxSpec(rest, mask);
    UniqueSpec(mask);
    UniqueIndex(mask);
    forall v | v in mask && u[0] < v < u[k + 1] ensures Count(mask, v) < Count(mask, u[k + 1]) {
      var m :| 0 <= m < |u| && u[m] == v;
      assert m <= k + 1;
      assert rest[m - 1] == v;
    }
  }

  // ----- get_impact -----

  /** `impact_map.get(reason, "No major impact")`. */
  function GetImpact(reason: string): (r: string)
    ensures r == "No major impact"
        <==> reason !in {GlacialLakeExpansion, NewRoadConstruction, DrainageNetworkChange, UrbanExpansion}
  {
    if reason == GlacialLakeExpansion then "Risk of glacial flooding"
    else if reason == NewRoadConstruction then "Land use disturbance"
    else if reason == DrainageNetworkChange then "Flooding or waterlogging risk"
    else if reason == UrbanExpansion then "Urban heat or congestion"
    else "No major impact"
  }

  /**
   * A mask gets a named impact exactly when it has a main class among 1 to 4;
   * "No change" and "Unknown" both have no major impact.
   */
  lemma {:induction false} ImpactOfMask(mask: seq<int>)
    ensures GetImpact(GetReason(mask)) != "No major impact" <==>
      |Unique(mask)| >= 2 && 1 <= MainClass(mask) <= 4
  {
  }
}
