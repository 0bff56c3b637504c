// Shared value types and string helpers used by every other module.

module Wrappers {
  /** An optional value: Kotlin's nullable types, Python's None, a missing key. */
  datatype Option<+T> = None | Some(value: T) {
    function GetOr(default: T): T {
      match this
      case Some(v) => v
      case None => default
    }
  }

  /** What a suspended network call did: returned a value, or threw (`e.message` may be null). */
  datatype Fetch<+T> = Returned(value: T) | Threw(message: Option<string>)
}

/**
 * String helpers with the semantics of the source's standard-library calls:
 * Python `str.lower()`/`str.upper()` and substring `in` (ASCII letters only),
 * Kotlin `isBlank`, `trim` and `split` (whitespace as Kotlin's `Char.isWhitespace`).
 */
module Strings {

  function LowerChar(c: char): char {
    if 'A' <= c <= 'Z' then (c as int + 32) as char else c
  }

  function UpperChar(c: char): char {
    if 'a' <= c <= 'z' then (c as int - 32) as char else c
  }

  /** Python `s.lower()`, on ASCII letters. */
  function Lower(s: string): string {
    seq(|s|, i requires 0 <= i < |s| => LowerChar(s[i]))
  }

  /** Python `s.upper()`, on ASCII letters. */
  function Upper(s: string): string {
    seq(|s|, i requires 0 <= i < |s| => UpperChar(s[i]))
  }

  /** Lowering works character by character, so it distributes over concatenation. */
  lemma {:induction false} LowerAppend(a: string, b: string)
    ensures Lower(a + b) == Lower(a) + Lower(b)
  {
  }

  /** Lowering a lower-case text changes nothing. */
  lemma {:induction false} LowerIdempotent(s: string)
    ensures Lower(Lower(s)) == Lower(s)
  {
    assert forall i :: 0 <= i < |s| ==> LowerChar(LowerChar(s[i])) == LowerChar(s[i]);
  }

  /** Lower-casing a text made of four pieces, piece by piece. */
  lemma {:induction false} LowerOfPieces(s: string, a: string, b: string, c: string, d: string,
                      ls: string, la: string, lb: string, lc: string, ld: string)
    requires s == a + b + c + d && ls == la + lb + lc + ld
    requires Lower(a) == la && Lower(b) == lb && Lower(c) == lc && Lower(d) == ld
    ensures Lower(s) == ls
  {
    LowerAppend(a, b);
    LowerAppend(a + b, c);
    LowerAppend(a + b + c, d);
  }

  predicate StartsWith(s: string, prefix: string) {
    |prefix| <= |s| && s[..|prefix|] == prefix
  }

  predicate EndsWith(s: string, suffix: string) {
    |suffix| <= |s| && s[|s| - |suffix|..] == suffix
  }

  lemma PrefixOfConcat(a: string, b: string)
    ensures StartsWith(a + b, a) && EndsWith(a + b, b)
  {
    assert (a + b)[..|a|] == a;
    assert (a + b)[|a + b| - |b|..] == b;
  }

  /** A suffix of the tail is a suffix of the whole. */
  lemma EndsWithExtend(a: string, b: string, suffix: string)
    requires EndsWith(b, suffix)
    ensures EndsWith(a + b, suffix)
  {
    assert (a + b)[|a + b| - |suffix|..] == b[|b| - |suffix|..];
  }

  /** Python `sub in s`. */
  predicate Contains(s: string, sub: string) {
    exists i :: 0 <= i <= |s| - |sub| && StartsWith(s[i..], sub)
  }

  /** A string lacking one of `sub`'s characters cannot contain `sub`. */
  lemma {:induction false} NotContainsMissingChar(s: string, sub: string, c: char)
    requires c in sub && c !in s
    ensures !Contains(s, sub)
  {
    var k :| 0 <= k < |sub| && sub[k] == c;
    forall i | 0 <= i <= |s| - |sub| ensures !StartsWith(s[i..], sub) {
      assert s[i..][..|sub|][k] == s[i + k];
      assert s[i + k] in s;
    }
  }

  /**
   * A string in which the first character `c` of `sub` occurs exactly once
   * contains `sub` only if `sub` starts at that occurrence.
   */
  lemma {:induction false} NotContainsSingleOccurrence(x: string, c: char, y: string, sub: string, j: nat)
    requires sub != [] && sub[0] == c
    requires c !in x && c !in y
    requires 1 <= j < |sub| && (j - 1 < |y| ==> y[j - 1] != sub[j])
    ensures !Contains(x + [c] + y, sub)
  {
    var s := x + [c] + y;
    forall i | 0 <= i <= |s| - |sub| ensures !StartsWith(s[i..], sub) {
      if i < |x| {
        assert s[i..][..|sub|][0] == x[i];
        assert x[i] in x;
      } else if i == |x| {
        assert s[i..][..|sub|][j] == y[j - 1];
      } else {
        assert s[i..][..|sub|][0] == y[i - |x| - 1];
        assert y[i - |x| - 1] in y;
      }
    }
  }

  /** `sub` occurs in `s` at position `i`. */
  lemma {:induction false} ContainsAt(s: string, sub: string, i: nat)
    requires i + |sub| <= |s| && s[i..i + |sub|] == sub
    ensures Contains(s, sub)
  {
    assert StartsWith(s[i..], sub);
  }

  /** A text contains every piece it is built from. */
  lemma {:induction false} ContainsMiddle(a: string, sub: string, b: string)
    ensures Contains(a + sub + b, sub)
  {
    assert (a + sub + b)[|a|..|a| + |sub|] == sub;
    ContainsAt(a + sub + b, sub, |a|);
  }

  /** Python's `a <= b` on strings: code-point lexicographic order. */
  predicate StrLe(a: string, b: string)
    decreases |a|
  {
    a == [] || (b != [] && (a[0] < b[0] || (a[0] == b[0] && StrLe(a[1..], b[1..]))))
  }

  /** Any two strings are ordered one way or the other. */
  lemma {:induction false} StrLeTotal(a: string, b: string)
    ensures StrLe(a, b) || StrLe(b, a)
    decreases |a|
  {
    if a != [] && b != [] && a[0] == b[0] {
      StrLeTotal(a[1..], b[1..]);
    }
  }

  lemma {:induction false} StrLeTrans(a: string, b: string, c: string)
    requires StrLe(a, b) && StrLe(b, c)
    ensures StrLe(a, c)
    decreases |a|
  {
    if a != [] && a[0] == b[0] && b[0] == c[0] {
      StrLeTrans(a[1..], b[1..], c[1..]);
    }
  }

  /** The character of a decimal digit. */
  function DigitChar(d: nat): (c: char)
    requires d < 10
    ensures '0' <= c <= '9'
  {
    ('0' as int + d) as char
  }

  predicate IsDigit(c: char) {
    '0' <= c <= '9'
  }

  function DigitValue(c: char): (d: nat)
    requires IsDigit(c)
    ensures d < 10 && DigitChar(d) == c
  {
    c as int - '0' as int
  }

  predicate AllDigits(s: string) {
    forall i :: 0 <= i < |s| ==> IsDigit(s[i])
  }

  /** Python `str(n)` for a non-negative integer: its decimal digits, no leading zeros. */
  function NatToString(n: nat): (s: string)
    ensures s != [] && AllDigits(s)
    ensures |s| > 1 ==> s[0] != '0'
  {
    if n < 10 then [DigitChar(n)] else NatToString(n / 10) + [DigitChar(n % 10)]
  }

  /** Python `int(s)` on a string of decimal digits. */
  function DecimalValue(s: string): nat
    requires AllDigits(s)
  {
    if s == [] then 0 else DecimalValue(s[..|s| - 1]) * 10 + DigitValue(s[|s| - 1])
  }

  /** Reading back the decimal text of a number gives the number. */
  lemma {:induction false} DecimalRoundTrip(n: nat)
    ensures DecimalValue(NatToString(n)) == n
  {
    var s := NatToString(n);
    if n >= 10 {
      DecimalRoundTrip(n / 10);
      assert s[..|s| - 1] == NatToString(n / 10);
    }
  }

  /** A number has as many digits as its size says. */
  lemma {:induction false} NatToStringLength(n: nat)
    ensures n < 10 ==> |NatToString(n)| == 1
    ensures 10 <= n < 100 ==> |NatToString(n)| == 2
    ensures 100 <= n < 1000 ==> |NatToString(n)| == 3
    ensures 1000 <= n < 10000 ==> |NatToString(n)| == 4
  {
    if n >= 10 {
      NatToStringLength(n / 10);
    }
  }

  /**
   * Kotlin's `String.length`: the number of UTF-16 code units, so a character
   * above U+FFFF (a surrogate pair) counts twice.
   */
  function Utf16Length(s: string): (n: nat)
    ensures |s| <= n <= 2 * |s|
  {
    if s == [] then 0 else (if s[0] as int >= 0x1_0000 then 2 else 1) + Utf16Length(s[1..])
  }

  /** Without characters above U+FFFF the Kotlin length is the number of characters. */
  lemma {:induction false} Utf16LengthBmp(s: string)
    requires forall i :: 0 <= i < |s| ==> s[i] as int < 0x1_0000
    ensures Utf16Length(s) == |s|
  {
    if s != [] {
      Utf16LengthBmp(s[1..]);
    }
  }

  /** Characters above U+FFFF only: the Kotlin length is twice the number of characters. */
  lemma {:induction false} Utf16LengthAstral(s: string)
    requires forall i :: 0 <= i < |s| ==> s[i] as int >= 0x1_0000
    ensures Utf16Length(s) == 2 * |s|
  {
    if s != [] {
      Utf16LengthAstral(s[1..]);
    }
  }

  /** Kotlin `Char.isWhitespace()` (Java `isWhitespace || isSpaceChar`). */
  predicate IsWhitespace(c: char) {
    ('\t' <= c <= '\r') || ('\U{1C}' <= c <= ' ') || c == '\U{A0}' || c == '\U{1680}'
    || ('\U{2000}' <= c <= '\U{200A}') || c == '\U{2028}' || c == '\U{2029}' || c == '\U{202F}'
    || c == '\U{205F}' || c == '\U{3000}'
  }

  /** Kotlin `s.isBlank()`: empty or whitespace only. */
  predicate IsBlank(s: string) {
    forall i :: 0 <= i < |s| ==> IsWhitespace(s[i])
  }

  function TrimStart(s: string): (r: string)
    ensures |r| <= |s|
  {
    if s != [] && IsWhitespace(s[0]) then TrimStart(s[1..]) else s
  }

  function TrimEnd(s: string): (r: string)
    ensures |r| <= |s|
  {
    if s != [] && IsWhitespace(s[|s| - 1]) then TrimEnd(s[..|s| - 1]) else s
  }

  /** Kotlin `s.trim()`. */
  function Trim(s: string): string {
    TrimEnd(TrimStart(s))
  }

  /** Trimming the front leaves a suffix that starts with a non-blank character, if any. */
  /** `isBlank()` holds iff nothing is left once the leading whitespace is dropped. */
  lemma {:induction false} BlankIffTrimStartEmpty(s: string)
    ensures IsBlank(s) <==> TrimStart(s) == []
  {
    if s != [] {
      BlankIffTrimStartEmpty(s[1..]);
      if IsWhitespace(s[0]) {
        assert forall i :: 1 <= i < |s| ==> s[i] == s[1..][i - 1];
      }
    }
  }

  lemma {:induction false} TrimStartFront(s: string)
    ensures TrimStart(s) == s[|s| - |TrimStart(s)|..]
    ensures TrimStart(s) != [] ==> !IsWhitespace(TrimStart(s)[0])
  {
    if s != [] && IsWhitespace(s[0]) {
      TrimStartFront(s[1..]);
    }
  }

  /** Trimming the back leaves a prefix that ends with a non-blank character, if any. */
  lemma {:induction false} TrimEndBack(s: string)
    ensures TrimEnd(s) == s[..|TrimEnd(s)|]
    ensures TrimEnd(s) != [] ==> !IsWhitespace(TrimEnd(s)[|TrimEnd(s)| - 1])
  {
    if s != [] && IsWhitespace(s[|s| - 1]) {
      TrimEndBack(s[..|s| - 1]);
    }
  }

  /** A trimmed text neither starts nor ends with whitespace. */
  lemma TrimEnds(s: string)
    ensures var t := Trim(s); t != [] ==> !IsWhitespace(t[0]) && !IsWhitespace(t[|t| - 1])
  {
    TrimStartFront(s);
    TrimEndBack(TrimStart(s));
  }

  /** A text without whitespace at its ends is its own trim. */
  lemma TrimFixed(s: string)
    requires s != [] ==> !IsWhitespace(s[0]) && !IsWhitespace(s[|s| - 1])
    ensures Trim(s) == s
  {
  }

  /** Trimming twice is trimming once. */
  lemma TrimIdempotent(s: string)
    ensures Trim(Trim(s)) == Trim(s)
  {
    TrimEnds(s);
    TrimFixed(Trim(s));
  }

  function CountChar(s: string, d: char): nat {
    if s == [] then 0 else (if s[0] == d then 1 else 0) + CountChar(s[1..], d)
  }

  /** Kotlin `s.split(d)`: every occurrence splits, empty parts are kept. */
  function Split(s: string, d: char): (parts: seq<string>)
    ensures |parts| >= 1
    decreases |s|
  {
    if s == [] then [""]
    else
      var rest := Split(s[1..], d);
      if s[0] == d then [""] + rest else [[s[0]] + rest[0]] + rest[1..]
  }

  function Join(parts: seq<string>, d: char): string
    requires |parts| >= 1
  {
    if |parts| == 1 then parts[0] else parts[0] + [d] + Join(parts[1..], d)
  }

  /** Splitting yields one more part than there are delimiters. */
  lemma {:induction false} SplitCount(s: string, d: char)
    ensures |Split(s, d)| == CountChar(s, d) + 1
    decreases |s|
  {
    if s != [] {
      SplitCount(s[1..], d);
    }
  }

  /** Splitting loses nothing: joining the parts back restores the input. */
  lemma {:induction false} SplitJoin(s: string, d: char)
    ensures Join(Split(s, d), d) == s
    decreases |s|
  {
    if s != [] {
      var rest := Split(s[1..], d);
      SplitJoin(s[1..], d);
      if s[0] == d {
        assert Split(s, d) == [""] + rest;
        assert s == [d] + s[1..];
      } else {
        var parts := Split(s, d);
        assert parts == [[s[0]] + rest[0]] + rest[1..];
        if |rest| == 1 {
          assert s == [s[0]] + rest[0];
        } else {
          assert parts[1..] == rest[1..];
          assert Join(rest, d) == rest[0] + [d] + Join(rest[1..], d);
          assert s == [s[0]] + s[1..];
        }
      }
    }
  }

  /** A text without the delimiter is a single part. */
  lemma {:induction false} SplitNoDelimiter(a: string, d: char)
    requires d !in a
    ensures Split(a, d) == [a]
    decreases |a|
  {
    if a != [] {
      SplitNoDelimiter(a[1..], d);
      assert [a[0]] + a[1..] == a;
    }
  }

  /** The text before the first delimiter is the first part; the rest splits on its own. */
  lemma {:induction false} SplitFront(a: string, d: char, s: string)
    requires d !in a
    ensures Split(a + [d] + s, d) == [a] + Split(s, d)
    decreases |a|
  {
    if a == [] {
      assert a + [d] + s == [d] + s;
      assert ([d] + s)[1..] == s;
    } else {
      SplitFront(a[1..], d, s);
      assert (a + [d] + s)[1..] == a[1..] + [d] + s;
      assert [a[0]] + a[1..] == a;
    }
  }

  /** Two delimiter-free texts joined by one delimiter split back into the two. */
  lemma SplitPair(a: string, d: char, b: string)
    requires d !in a && d !in b
    ensures Split(a + [d] + b, d) == [a, b]
  {
    SplitFront(a, d, b);
    SplitNoDelimiter(b, d);
  }
}

/** Python's numeric helpers, on exact reals. */
module Numeric {

  /** The integer nearest to `y`, ties going to the even neighbour. */
  function RoundHalfEven(y: real): (n: int)
    ensures (n as real) - 0.5 <= y <= (n as real) + 0.5
    ensures (y - n as real == 0.5 || n as real - y == 0.5) ==> n % 2 == 0
  {
    var f := y.Floor;
    var frac := y - f as real;
    if frac > 0.5 then f + 1
    else if frac < 0.5 then f
    else if f % 2 == 0 then f
    else f + 1
  }

  /**
   * The two clauses of RoundHalfEven's contract determine it: no other
   * integer is as near to `y` and, on a tie, even.
   */
  lemma RoundHalfEvenUnique(y: real, m: int)
    requires (m as real) - 0.5 <= y <= (m as real) + 0.5
    requires (y - m as real == 0.5 || m as real - y == 0.5) ==> m % 2 == 0
    ensures m == RoundHalfEven(y)
  {
    var n := RoundHalfEven(y);
    assert -1 <= m - n <= 1;
  }

  /** Rounding to the nearest integer never reverses the order of its inputs. */
  lemma RoundHalfEvenMonotone(y1: real, y2: real)
    requires y1 <= y2
    ensures RoundHalfEven(y1) <= RoundHalfEven(y2)
  {
    var f1, f2 := y1.Floor, y2.Floor;
    assert f1 <= f2;
  }

  /** A whole number rounds to itself. */
  lemma RoundHalfEvenWhole(k: int)
    ensures RoundHalfEven(k as real) == k
  {
  }

  /**
   * Python's `round(x, 2)`: a multiple of 0.01 within 0.005 of `x`, and on a
   * tie the even one.
   */
  function Round2(x: real): (r: real)
    ensures -0.005 <= r - x <= 0.005
    ensures (r * 100.0).Floor as real == r * 100.0
    ensures (r * 100.0 - x * 100.0 == 0.5 || x * 100.0 - r * 100.0 == 0.5) ==> (r * 100.0).Floor % 2 == 0
  {
    var n := RoundHalfEven(x * 100.0);
    ScaleBack(n, 100.0);
    n as real / 100.0
  }

  /**
   * Python's `round(x, 4)`: a multiple of 0.0001 within 0.00005 of `x`, and on
   * a tie the even one.
   */
  function Round4(x: real): (r: real)
    ensures -0.00005 <= r - x <= 0.00005
    ensures (r * 10000.0).Floor as real == r * 10000.0
    ensures (r * 10000.0 - x * 10000.0 == 0.5 || x * 10000.0 - r * 10000.0 == 0.5)
            ==> (r * 10000.0).Floor % 2 == 0
  {
    var n := RoundHalfEven(x * 10000.0);
    ScaleBack(n, 10000.0);
    n as real / 10000.0
  }

  /** Scaling a whole number down and back up gives the whole number again. */
  lemma ScaleBack(n: int, k: real)
    requires k > 0.0
    ensures (n as real / k) * k == n as real
    ensures ((n as real / k) * k).Floor == n
  {
  }

  /** Any multiple of 0.01 within 0.005 of `x`, even on a tie, is `round(x, 2)`. */
  lemma Round2Unique(x: real, k: int)
    requires -0.005 <= k as real / 100.0 - x <= 0.005
    requires (k as real - x * 100.0 == 0.5 || x * 100.0 - k as real == 0.5) ==> k % 2 == 0
    ensures Round2(x) == k as real / 100.0
  {
    RoundHalfEvenUnique(x * 100.0, k);
  }

  /** `round(x, 2)` is monotone in `x`. */
  lemma Round2Monotone(x1: real, x2: real)
    requires x1 <= x2
    ensures Round2(x1) <= Round2(x2)
  {
    RoundHalfEvenMonotone(x1 * 100.0, x2 * 100.0);
  }

  /** `round(x, 2)` keeps a percentage a percentage and fixes both ends. */
  lemma Round2Percent(x: real)
    requires 0.0 <= x <= 100.0
    ensures 0.0 <= Round2(x) <= 100.0
    ensures x == 0.0 ==> Round2(x) == 0.0
    ensures x == 100.0 ==> Round2(x) == 100.0
  {
    Round2Monotone(0.0, x);
    Round2Monotone(x, 100.0);
    RoundHalfEvenWhole(0);
    RoundHalfEvenWhole(10000);
  }

  /** The rounded percentage of `c` out of `n`, over the reals. */
  lemma RoundedShare(c: real, n: real)
    requires 0.0 <= c <= n && 0.0 < n
    ensures 0.0 <= Round2(c / n * 100.0) <= 100.0
    ensures -0.005 <= Round2(c / n * 100.0) - c / n * 100.0 <= 0.005
    ensures c == 0.0 ==> Round2(c / n * 100.0) == 0.0
    ensures c == n ==> Round2(c / n * 100.0) == 100.0
  {
    assert c / n <= 1.0;
    Round2Percent(c / n * 100.0);
  }

  /** Rounded percentages keep the order of their shares. */
  lemma RoundedShareMonotone(c1: real, c2: real, n: real)
    requires c1 <= c2 && 0.0 < n
    ensures Round2(c1 / n * 100.0) <= Round2(c2 / n * 100.0)
  {
    assert c1 / n <= c2 / n;
    Round2Monotone(c1 / n * 100.0, c2 / n * 100.0);
  }

  /** `round(x, 4)` is monotone in `x`. */
  lemma Round4Monotone(x1: real, x2: real)
    requires x1 <= x2
    ensures Round4(x1) <= Round4(x2)
  {
    RoundHalfEvenMonotone(x1 * 10000.0, x2 * 10000.0);
  }

  /** Scaling by a non-negative factor keeps `round(x, 4)` monotone. */
  lemma Round4ScaledMonotone(x1: real, x2: real, k: real)
    requires x1 <= x2 && 0.0 <= k
    ensures Round4(x1 * k) <= Round4(x2 * k)
  {
    ScaleMonotone(x1, x2, k);
    Round4Monotone(x1 * k, x2 * k);
  }

  lemma ScaleMonotone(x1: real, x2: real, k: real)
    requires x1 <= x2 && 0.0 <= k
    ensures x1 * k <= x2 * k
  {
    assert x2 * k - x1 * k == (x2 - x1) * k;
  }
}
