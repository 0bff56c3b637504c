// backend/download_img.py: the Sentinel-2 cloud mask on the QA60 band, the
// "%Y-%m-%d" date parser, the search window of ±tolerance days around the
// target date, and the errors `download_image` raises before the export.
// Earth Engine (the image collection, its size, the first image and the
// export) is an input: the number of images found for the window and
// whether the first one has bands.

module DownloadImg {
  import opened Wrappers
  import opened Strings

  // ---------------------------------------------------------------- QA60

  const CloudBit: bv16 := 1 << 10
  const CirrusBit: bv16 := 1 << 11

  /**
   * `_mask_s2_clouds`: a pixel is kept when neither QA bit is set, that is,
   * exactly when bits 10 and 11 of QA60 are both clear.
   */
  function KeepPixel(qa: bv16): (keep: bool)
    ensures keep <==> (qa >> 10) & 1 == 0 && (qa >> 11) & 1 == 0
  {
    qa & CloudBit == 0 && qa & CirrusBit == 0
  }

  /** Setting either bit masks the pixel. */
  lemma EitherBitMasks(qa: bv16)
    ensures !KeepPixel(qa | CloudBit) && !KeepPixel(qa | CirrusBit)
  {
  }

  /** The other fourteen bits never matter. */
  lemma OtherBitsIrrelevant(qa: bv16, other: bv16)
    requires other & (CloudBit | CirrusBit) == 0
    ensures KeepPixel(qa | other) == KeepPixel(qa)
    ensures KeepPixel(qa ^ other) == KeepPixel(qa)
    ensures KeepPixel(qa & !other) == KeepPixel(qa)
  {
  }

  // ---------------------------------------------------------------- dates

  /** A `datetime` at midnight, which is all `strptime` with this format yields. */
  datatype Date = Date(year: int, month: int, day: int)

  predicate IsLeap(y: int) {
    y % 4 == 0 && (y % 100 != 0 || y % 400 == 0)
  }

  function DaysInMonth(y: int, m: int): (n: int)
    requires 1 <= m <= 12
    ensures 28 <= n <= 31
  {
    if m == 2 then (if IsLeap(y) then 29 else 28)
    else if m == 4 || m == 6 || m == 9 || m == 11 then 30
    else 31
  }

  function DaysInYear(y: int): int {
    if IsLeap(y) then 366 else 365
  }

  /** The range `datetime` accepts: years 1 to 9999 and real calendar days. */
  predicate Valid(d: Date) {
    1 <= d.year <= 9999 && 1 <= d.month <= 12 && 1 <= d.day <= DaysInMonth(d.year, d.month)
  }

  const MinDate := Date(1, 1, 1)
  const MaxDate := Date(9999, 12, 31)

  /** Python's `_MAXORDINAL`, the ordinal of 9999-12-31. */
  const MaxOrdinal := 3652059

  /** Days in the years before `y` of the proleptic Gregorian calendar. */
  function DaysBeforeYear(y: int): int
    requires 1 <= y
  {
    if y == 1 then 0 else DaysBeforeYear(y - 1) + DaysInYear(y - 1)
  }

  /** Python's `_days_before_year`, the same count in closed form. */
  function DaysBeforeYearClosed(y: int): int {
    var p := y - 1;
    p * 365 + p / 4 - p / 100 + p / 400
  }

  function DaysBeforeMonth(y: int, m: int): int
    requires 1 <= m <= 12
  {
    var base :=
      if m == 1 then 0 else if m == 2 then 31 else if m == 3 then 59
      else if m == 4 then 90 else if m == 5 then 120 else if m == 6 then 151
      else if m == 7 then 181 else if m == 8 then 212 else if m == 9 then 243
      else if m == 10 then 273 else if m == 11 then 304 else 334;
    base + (if m > 2 && IsLeap(y) then 1 else 0)
  }

  /** `date.toordinal()`: 1 for 0001-01-01, one more for each later day. */
  function Ordinal(d: Date): int
    requires Valid(d)
  {
    DaysBeforeYear(d.year) + DaysBeforeMonth(d.year, d.month) + d.day
  }

  lemma DivStep4(p: int)
    ensures (p + 1) / 4 - p / 4 == if (p + 1) % 4 == 0 then 1 else 0
  {
  }

  lemma DivStep100(p: int)
    ensures (p + 1) / 100 - p / 100 == if (p + 1) % 100 == 0 then 1 else 0
  {
  }

  lemma DivStep400(p: int)
    ensures (p + 1) / 400 - p / 400 == if (p + 1) % 400 == 0 then 1 else 0
  {
  }

  /** Consecutive years are one year's length apart. */
  lemma DaysBeforeYearStep(y: int)
    requires 1 <= y
    ensures DaysBeforeYear(y + 1) == DaysBeforeYear(y) + DaysInYear(y)
  {
  }

  lemma ClosedStep(y: int)
    ensures DaysBeforeYearClosed(y + 1) == DaysBeforeYearClosed(y) + DaysInYear(y)
  {
    DivStep4(y - 1);
    DivStep100(y - 1);
    DivStep400(y - 1);
  }

  /** The closed form counts the same days. */
  lemma {:induction false} DaysBeforeYearClosedForm(y: int)
    requires 1 <= y
    ensures DaysBeforeYear(y) == DaysBeforeYearClosed(y)
    decreases y
  {
    if y > 1 {
      DaysBeforeYearClosedForm(y - 1);
      ClosedStep(y - 1);
    }
  }

  lemma {:induction false} DaysBeforeYearMonotone(a: int, b: int)
    requires 1 <= a <= b
    ensures DaysBeforeYear(a) <= DaysBeforeYear(b)
    decreases b - a
  {
    if a < b {
      DaysBeforeYearStep(a);
      DaysBeforeYearMonotone(a + 1, b);
    }
  }

  /** Consecutive months are one month's length apart, and December ends the year. */
  lemma DaysBeforeMonthStep(y: int, m: int)
    requires 1 <= m <= 12
    ensures m < 12 ==> DaysBeforeMonth(y, m + 1) == DaysBeforeMonth(y, m) + DaysInMonth(y, m)
    ensures DaysBeforeMonth(y, m) + DaysInMonth(y, m) <= DaysInYear(y)
    ensures m == 12 ==> DaysBeforeMonth(y, m) + DaysInMonth(y, m) == DaysInYear(y)
  {
  }

  lemma {:induction false} DaysBeforeMonthMonotone(y: int, a: int, b: int)
    requires 1 <= a <= b <= 12
    ensures DaysBeforeMonth(y, a) + DaysInMonth(y, a) <= DaysBeforeMonth(y, b) || a == b
    decreases b - a
  {
    if a + 1 < b {
      DaysBeforeMonthStep(y, a);
      DaysBeforeMonthStep(y, a + 1);
      DaysBeforeMonthMonotone(y, a + 1, b);
    } else if a + 1 == b {
      DaysBeforeMonthStep(y, a);
    }
  }

  /** A valid date's ordinal lies within its year, and within 1 .. MaxOrdinal. */
  lemma OrdinalBounds(d: Date)
    requires Valid(d)
    ensures DaysBeforeYear(d.year) < Ordinal(d) <= DaysBeforeYear(d.year + 1)
    ensures 1 <= Ordinal(d) <= MaxOrdinal
  {
    DaysBeforeMonthStep(d.year, d.month);
    DaysBeforeYearStep(d.year);
    DaysBeforeYearMonotone(1, d.year);
    DaysBeforeYearClosedForm(d.year + 1);
    ClosedMonotone(d.year + 1, 10000);
  }

  /** Different valid dates have different ordinals. */
  lemma OrdinalInjective(d1: Date, d2: Date)
    requires Valid(d1) && Valid(d2) && Ordinal(d1) == Ordinal(d2)
    ensures d1 == d2
  {
    OrdinalBounds(d1);
    OrdinalBounds(d2);
    if d1.year < d2.year {
      DaysBeforeYearMonotone(d1.year + 1, d2.year);
    } else if d2.year < d1.year {
      DaysBeforeYearMonotone(d2.year + 1, d1.year);
    } else if d1.month < d2.month {
      DaysBeforeMonthMonotone(d1.year, d1.month, d2.month);
    } else if d2.month < d1.month {
      DaysBeforeMonthMonotone(d1.year, d2.month, d1.month);
    }
  }

  /** The last date `datetime` can hold has ordinal MaxOrdinal. */
  lemma OrdinalOfMax(d: Date)
    requires d == MaxDate
    ensures Valid(d) && Ordinal(d) == MaxOrdinal
  {
    DaysBeforeYearClosedForm(d.year);
  }

  lemma OrdinalOfMin(d: Date)
    requires d == MinDate
    ensures Valid(d) && Ordinal(d) == 1
  {
  }

  lemma {:induction false} ClosedMonotone(a: int, b: int)
    requires a <= b
    ensures DaysBeforeYearClosed(a) <= DaysBeforeYearClosed(b)
    decreases b - a
  {
    if a < b {
      ClosedStep(a);
      ClosedMonotone(a + 1, b);
    }
  }

  /** The day after `d`. */
  function NextDay(d: Date): (e: Date)
    requires Valid(d) && d != MaxDate
    ensures Valid(e)
  {
    if d.day < DaysInMonth(d.year, d.month) then Date(d.year, d.month, d.day + 1)
    else if d.month < 12 then Date(d.year, d.month + 1, 1)
    else Date(d.year + 1, 1, 1)
  }

  /** The day before `d`. */
  function PrevDay(d: Date): (e: Date)
    requires Valid(d) && d != MinDate
    ensures Valid(e)
  {
    if d.day > 1 then Date(d.year, d.month, d.day - 1)
    else if d.month > 1 then Date(d.year, d.month - 1, DaysInMonth(d.year, d.month - 1))
    else Date(d.year - 1, 12, 31)
  }

  lemma NextDayOrdinal(d: Date)
    requires Valid(d) && d != MaxDate
    ensures Ordinal(NextDay(d)) == Ordinal(d) + 1
  {
    DaysBeforeMonthStep(d.year, d.month);
    DaysBeforeYearStep(d.year);
  }

  lemma PrevDayOrdinal(d: Date)
    requires Valid(d) && d != MinDate
    ensures Ordinal(PrevDay(d)) == Ordinal(d) - 1
  {
    if d.day == 1 && d.month > 1 {
      DaysBeforeMonthStep(d.year, d.month - 1);
    } else if d.day == 1 {
      DaysBeforeMonthStep(d.year - 1, 12);
      DaysBeforeYearStep(d.year - 1);
    }
  }

  /**
   * `d + timedelta(days=k)`, or None where Python raises OverflowError
   * because the result leaves years 1 to 9999.
   */
  function AddDays(d: Date, k: int): (r: Option<Date>)
    requires Valid(d)
    ensures r.Some? ==> Valid(r.value)
    decreases if k < 0 then -k else k
  {
    if k == 0 then Some(d)
    else if k > 0 then (if d == MaxDate then None else AddDays(NextDay(d), k - 1))
    else (if d == MinDate then None else AddDays(PrevDay(d), k + 1))
  }

  /**
   * Adding k days succeeds exactly when the ordinal stays in range, and then
   * gives the valid date whose ordinal is k more.
   */
  lemma {:induction false} AddDaysSpec(d: Date, k: int)
    requires Valid(d)
    ensures AddDays(d, k).Some? <==> 1 <= Ordinal(d) + k <= MaxOrdinal
    ensures AddDays(d, k).Some? ==> Valid(AddDays(d, k).value) && Ordinal(AddDays(d, k).value) == Ordinal(d) + k
  {
    OrdinalBounds(d);
    if k >= 0 {
      AddDaysForward(d, k);
    } else {
      AddDaysBackward(d, k);
    }
  }

  lemma {:induction false} AddDaysForward(d: Date, k: int)
    requires Valid(d) && 0 <= k
    ensures AddDays(d, k).Some? <==> Ordinal(d) + k <= MaxOrdinal
    ensures AddDays(d, k).Some? ==> Valid(AddDays(d, k).value) && Ordinal(AddDays(d, k).value) == Ordinal(d) + k
    decreases k
  {
    OrdinalBounds(d);
    if k > 0 {
      if d == MaxDate {
        OrdinalOfMax(d);
        assert AddDays(d, k) == None;
      } else {
        var e := NextDay(d);
        NextDayOrdinal(d);
        var r := AddDays(e, k - 1);
        assert AddDays(d, k) == r;
        AddDaysForward(e, k - 1);
        assert r.Some? <==> Ordinal(e) + (k - 1) <= MaxOrdinal;
      }
    }
  }

  lemma {:induction false} AddDaysBackward(d: Date, k: int)
    requires Valid(d) && k <= 0
    ensures AddDays(d, k).Some? <==> 1 <= Ordinal(d) + k
    ensures AddDays(d, k).Some? ==> Valid(AddDays(d, k).value) && Ordinal(AddDays(d, k).value) == Ordinal(d) + k
    decreases -k
  {
    if k == 0 {
      OrdinalBounds(d);
    } else if d == MinDate {
      AddDaysBeforeMin(d, k);
      OrdinalBeforeMin(d, k);
    } else {
      AddDaysBackward(PrevDay(d), k + 1);
      BackwardStep(d, k);
    }
  }

  /** Stepping back from the first date fails. */
  lemma AddDaysBeforeMin(d: Date, k: int)
    requires d == MinDate && k < 0
    ensures AddDays(d, k).None?
  {
  }

  lemma OrdinalBeforeMin(d: Date, k: int)
    requires Valid(d) && d == MinDate && k < 0
    ensures Ordinal(d) + k < 1
  {
    OrdinalOfMin(d);
  }

  /** One backward step, given the claim for the previous day. */
  lemma BackwardStep(d: Date, k: int)
    requires Valid(d) && k < 0 && d != MinDate
    requires AddDays(PrevDay(d), k + 1).Some? <==> 1 <= Ordinal(PrevDay(d)) + (k + 1)
    requires AddDays(PrevDay(d), k + 1).Some? ==>
      Valid(AddDays(PrevDay(d), k + 1).value) && Ordinal(AddDays(PrevDay(d), k + 1).value) == Ordinal(PrevDay(d)) + k + 1
    ensures AddDays(d, k).Some? <==> 1 <= Ordinal(d) + k
    ensures AddDays(d, k).Some? ==> Valid(AddDays(d, k).value) && Ordinal(AddDays(d, k).value) == Ordinal(d) + k
  {
    PrevDayOrdinal(d);
    assert AddDays(d, k) == AddDays(PrevDay(d), k + 1);
  }

  // ---------------------------------------------------------------- parsing

  /** A two-character month token matched by `1[0-2]|0[1-9]`. */
  predicate TwoDigitMonth(a: char, b: char) {
    (a == '1' && '0' <= b <= '2') || (a == '0' && '1' <= b <= '9')
  }

  /**
   * The month field of `(?P<m>1[0-2]|0[1-9]|[1-9])-`: its value and length.
   * The two-character alternatives are tried first; the one-digit form is
   * taken only when a '-' follows it.
   */
  function MonthToken(r: string): (t: Option<(int, nat)>)
    ensures t.Some? ==> 1 <= t.value.0 <= 12 && 1 <= t.value.1 <= 2 && t.value.1 < |r| && r[t.value.1] == '-'
  {
    if |r| >= 3 && TwoDigitMonth(r[0], r[1]) && r[2] == '-' then
      Some((DigitValue(r[0]) * 10 + DigitValue(r[1]), 2))
    else if |r| >= 2 && '1' <= r[0] <= '9' && r[1] == '-' then
      Some((DigitValue(r[0]), 1))
    else None
  }

  /**
   * The day field of `(?P<d>3[01]|[12]\\d|0[1-9]|[1-9]| [1-9])`, nothing
   * following it: the first alternative that matches, its value and length.
   */
  function DayToken(t: string): (r: Option<(int, nat)>)
    ensures r.Some? ==> 1 <= r.value.0 <= 31 && 1 <= r.value.1 <= 2 && r.value.1 <= |t|
  {
    if |t| >= 2 && t[0] == '3' && (t[1] == '0' || t[1] == '1') then Some((30 + DigitValue(t[1]), 2))
    else if |t| >= 2 && (t[0] == '1' || t[0] == '2') && IsDigit(t[1]) then
      Some((DigitValue(t[0]) * 10 + DigitValue(t[1]), 2))
    else if |t| >= 2 && t[0] == '0' && '1' <= t[1] <= '9' then Some((DigitValue(t[1]), 2))
    else if |t| >= 1 && '1' <= t[0] <= '9' then Some((DigitValue(t[0]), 1))
    else if |t| >= 2 && t[0] == ' ' && '1' <= t[1] <= '9' then Some((DigitValue(t[1]), 2))
    else None
  }

  /**
   * `_parse_date`: `datetime.strptime(s, "%Y-%m-%d")`, None where it raises
   * ValueError (no match, unconverted characters, year 0, or a day the month
   * does not have).
   */
  function ParseDate(s: string): (r: Option<Date>)
    ensures r.Some? ==> Valid(r.value)
  {
    if |s| < 5 || !AllDigits(s[..4]) || s[4] != '-' then None
    else
      var r := s[5..];
      var m := MonthToken(r);
      if m.None? then None
      else
        var t := r[m.value.1 + 1..];
        var d := DayToken(t);
        if d.None? || d.value.1 != |t| then None
        else
          var date := Date(DecimalValue(s[..4]), m.value.0, d.value.0);
          if Valid(date) then Some(date) else None
  }

  /** `%m` and `%d`: two digits, zero-padded. */
  function TwoDigits(n: int): (s: string)
    requires 0 <= n < 100
    ensures |s| == 2 && AllDigits(s)
  {
    [DigitChar(n / 10), DigitChar(n % 10)]
  }

  /**
   * `strftime("%Y-%m-%d")`. The C library prints the year without padding,
   * so years below 1000 have fewer than four digits.
   */
  function FormatDate(d: Date): string
    requires Valid(d)
  {
    NatToString(d.year) + "-" + TwoDigits(d.month) + "-" + TwoDigits(d.day)
  }

  lemma MonthOfFormatted(m: int, rest: string)
    requires 1 <= m <= 12
    ensures MonthToken(TwoDigits(m) + "-" + rest) == Some((m, 2))
  {
    var r := TwoDigits(m) + "-" + rest;
    assert r[0] == DigitChar(m / 10) && r[1] == DigitChar(m % 10) && r[2] == '-';
  }

  lemma DayOfFormatted(day: int)
    requires 1 <= day <= 31
    ensures DayToken(TwoDigits(day)) == Some((day, 2))
  {
  }

  /** A formatted date with a four-digit year parses back to itself. */
  lemma {:induction false} ParseFormatRoundTrip(d: Date)
    requires Valid(d) && 1000 <= d.year
    ensures ParseDate(FormatDate(d)) == Some(d)
  {
    var y := NatToString(d.year);
    var s := FormatDate(d);
    NatToStringLength(d.year);
    DecimalRoundTrip(d.year);
    assert s[..4] == y;
    assert s[4] == '-';
    assert s[5..] == TwoDigits(d.month) + "-" + TwoDigits(d.day);
    MonthOfFormatted(d.month, TwoDigits(d.day));
    assert s[5..][3..] == TwoDigits(d.day);
    DayOfFormatted(d.day);
  }

  /** The value of a four-digit year field. */
  lemma FourDigitValue(s: string)
    requires |s| == 4 && AllDigits(s)
    ensures DecimalValue(s) == DigitValue(s[0]) * 1000 + DigitValue(s[1]) * 100 + DigitValue(s[2]) * 10 + DigitValue(s[3])
  {
    assert s[..3][..2] == s[..2] && s[..2][..1] == s[..1] && s[..1][..0] == [];
    assert DecimalValue(s[..1]) == DigitValue(s[0]);
    assert DecimalValue(s[..2]) == DigitValue(s[0]) * 10 + DigitValue(s[1]);
    assert DecimalValue(s[..3]) == DecimalValue(s[..2]) * 10 + DigitValue(s[2]);
  }

  /** Single-digit month and day fields are accepted. */
  lemma ParseShortFields()
    ensures ParseDate("2024-1-5") == Some(Date(2024, 1, 5))
  {
    var s := "2024-1-5";
    FourDigitValue(s[..4]);
    assert s[5..] == "1-5";
    assert "1-5"[2..] == "5";
  }

  /** February 29th exists in a leap year ... */
  lemma ParseLeapDay()
    ensures ParseDate("2024-02-29") == Some(Date(2024, 2, 29))
  {
    var s := "2024-02-29";
    FourDigitValue(s[..4]);
    assert s[5..] == "02-29";
    assert "02-29"[3..] == "29";
  }

  /** ... and in no other year. */
  lemma ParseNonLeapDay()
    ensures ParseDate("2023-02-29") == None
  {
    var s := "2023-02-29";
    FourDigitValue(s[..4]);
    assert s[5..] == "02-29";
    assert "02-29"[3..] == "29";
  }

  /** A two-digit year does not match `%Y`. */
  lemma ParseShortYear()
    ensures ParseDate("24-01-05") == None
  {
    assert "24-01-05"[2] == '-';
  }

  // ---------------------------------------------------------------- download

  const DefaultTolerance := 15

  /** `target ± timedelta(days=tol)`, None on OverflowError. */
  function SearchWindow(target: Date, tol: int): (w: Option<(Date, Date)>)
    requires Valid(target)
    ensures w.Some? ==> Valid(w.value.0) && Valid(w.value.1)
  {
    var start := AddDays(target, -tol);
    var end := AddDays(target, tol);
    AddDaysSpec(target, -tol);
    AddDaysSpec(target, tol);
    if start.Some? && end.Some? then Some((start.value, end.value)) else None
  }

  /**
   * The window is symmetric: it starts tol days before the target and ends
   * tol days after it, 2·tol days wide, and exists exactly when both ends
   * stay within years 1 to 9999.
   */
  lemma {:induction false} WindowSymmetric(target: Date, tol: int)
    requires Valid(target)
    ensures SearchWindow(target, tol).Some?
        <==> 1 <= Ordinal(target) - tol && 1 <= Ordinal(target) + tol
             && Ordinal(target) - tol <= MaxOrdinal && Ordinal(target) + tol <= MaxOrdinal
    ensures SearchWindow(target, tol).Some? ==>
      var (start, end) := SearchWindow(target, tol).value;
      && Ordinal(target) - Ordinal(start) == tol
      && Ordinal(end) - Ordinal(target) == tol
      && Ordinal(end) - Ordinal(start) == 2 * tol
  {
    AddDaysSpec(target, -tol);
    AddDaysSpec(target, tol);
  }

  /** What `download_image` does, up to the export. */
  datatype DownloadOutcome =
    | Exported(startDate: string, endDate: string)
    | NoImages(message: string)
    | InvalidImage(message: string)
    | BadInput
    | OutOfRange

  const NoImagesLead := "No Sentinel\U{2011}2 images found for ("
  const InvalidImageMessage := "Unable to retrieve a valid Sentinel\U{2011}2 image object."

  /**
   * `download_image(lat, lon, date, out_path, days_tolerance=tol)`. The
   * coordinates as the caller passed them are given twice: as `float()`
   * reads them (None on ValueError) and as the f-string prints them.
   * `imagesFound` is the size of the filtered collection for a window
   * given as its two date strings; `firstHasBands` whether the first image
   * has any band.
   */
  function DownloadImage(latNum: Option<real>, lonNum: Option<real>, latText: string, lonText: string,
                         date: string, tol: int,
                         imagesFound: (string, string) -> nat, firstHasBands: bool): (r: DownloadOutcome)
    ensures r.BadInput? <==> latNum.None? || lonNum.None? || ParseDate(date).None?
    ensures r.Exported? ==> firstHasBands
  {
    if lonNum.None? || latNum.None? then BadInput
    else
      var target := ParseDate(date);
      if target.None? then BadInput
      else
        var w := SearchWindow(target.value, tol);
        if w.None? then OutOfRange
        else
          var startDate, endDate := FormatDate(w.value.0), FormatDate(w.value.1);
          SearchOutcome(latText, lonText, startDate, endDate, imagesFound(startDate, endDate), firstHasBands)
  }

  /** The search over the window `startDate`..`endDate`, which found `found` images. */
  function SearchOutcome(latText: string, lonText: string, startDate: string, endDate: string,
                         found: nat, firstHasBands: bool): DownloadOutcome
  {
    if found == 0 then
      NoImages(NoImagesLead + latText + ", " + lonText + ") between " + startDate + " and " + endDate)
    else if !firstHasBands then InvalidImage(InvalidImageMessage)
    else Exported(startDate, endDate)
  }

  /**
   * An empty search reports the coordinates and both ends of the window, an
   * image without bands is refused, and otherwise the export covers the window.
   */
  lemma SearchOutcomes(latText: string, lonText: string, startDate: string, endDate: string,
                       found: nat, firstHasBands: bool)
    ensures var r := SearchOutcome(latText, lonText, startDate, endDate, found, firstHasBands);
      && (r.NoImages? <==> found == 0)
      && (r.NoImages? ==> r.message == NoImagesLead + latText + ", " + lonText + ") between "
                                       + startDate + " and " + endDate)
      && (r.InvalidImage? <==> found > 0 && !firstHasBands)
      && (r.InvalidImage? ==> r.message == InvalidImageMessage)
      && (r.Exported? <==> found > 0 && firstHasBands)
      && (r.Exported? ==> r.startDate == startDate && r.endDate == endDate)
  {
  }

  /** The error message of an empty search starts with the coordinates as the caller wrote them. */
  lemma NoImagesNamesCoordinates(latText: string, lonText: string, startDate: string, endDate: string)
    ensures var r := SearchOutcome(latText, lonText, startDate, endDate, 0, false);
      StartsWith(r.message, NoImagesLead + latText + ", " + lonText + ") between ")
  {
    var lead := NoImagesLead + latText + ", " + lonText + ") between ";
    var msg := lead + startDate + " and " + endDate;
    assert msg == lead + (startDate + " and " + endDate);
    assert msg[..|lead|] == lead;
  }

  /**
   * Once the inputs parse and the window exists, the outcome is the search
   * over the window whose ends lie tol days either side of the target.
   */
  lemma {:induction false} DownloadOutcomes(latNum: Option<real>, lonNum: Option<real>, latText: string, lonText: string,
                                             date: string, tol: int,
                                             imagesFound: (string, string) -> nat, firstHasBands: bool)
    requires latNum.Some? && lonNum.Some? && ParseDate(date).Some?
    requires SearchWindow(ParseDate(date).value, tol).Some?
    ensures var target := ParseDate(date).value;
      var (start, end) := SearchWindow(target, tol).value;
      && DownloadImage(latNum, lonNum, latText, lonText, date, tol, imagesFound, firstHasBands)
         == SearchOutcome(latText, lonText, FormatDate(start), FormatDate(end),
                          imagesFound(FormatDate(start), FormatDate(end)), firstHasBands)
      && Ordinal(target) - Ordinal(start) == tol && Ordinal(end) - Ordinal(target) == tol
  {
    WindowSymmetric(ParseDate(date).value, tol);
  }

  /** With four-digit years at both ends, the exported window's dates read back as its ends. */
  lemma ExportedWindowReadsBack(target: Date, tol: int, found: nat, latText: string, lonText: string)
    requires Valid(target) && SearchWindow(target, tol).Some?
    requires 1000 <= SearchWindow(target, tol).value.0.year && 1000 <= SearchWindow(target, tol).value.1.year
    ensures var (start, end) := SearchWindow(target, tol).value;
      var r := SearchOutcome(latText, lonText, FormatDate(start), FormatDate(end), found, true);
      found > 0 ==> r.Exported? && ParseDate(r.startDate) == Some(start) && ParseDate(r.endDate) == Some(end)
  {
    var (start, end) := SearchWindow(target, tol).value;
    ParseFormatRoundTrip(start);
    ParseFormatRoundTrip(end);
  }
}
