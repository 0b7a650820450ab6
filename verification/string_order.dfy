/**
 * JavaScript's relational operators on strings (`a > b`): lexicographic order
 * over UTF-16 code units. The market-price page compares `YYYY-MM-DD` dates
 * this way.
 */
module StringOrder {

  /** The UTF-16 code units of one character: one unit in the BMP, a surrogate pair above it. */
  function Utf16(c: char): (u: seq<int>)
    ensures |u| == if c as int < 0x10000 then 1 else 2
    ensures forall k :: 0 <= k < |u| ==> 0 <= u[k] < 0x10000
  {
    var cp := c as int;
    if cp < 0x10000 then [cp]
    else [0xD800 + (cp - 0x10000) / 0x400, 0xDC00 + (cp - 0x10000) % 0x400]
  }

  /** The UTF-16 code units of a string, as JavaScript stores it. */
  function CodeUnits(s: string): (u: seq<int>)
    ensures |u| >= |s|
  {
    if s == [] then [] else Utf16(s[0]) + CodeUnits(s[1..])
  }

  /** Strict lexicographic order on code-unit sequences: a proper prefix comes first. */
  predicate UnitsLess(a: seq<int>, b: seq<int>) {
    if b == [] then false
    else if a == [] then true
    else if a[0] != b[0] then a[0] < b[0]
    else UnitsLess(a[1..], b[1..])
  }

  /** `a < b` on JavaScript strings (so `a > b` is `Less(b, a)`). */
  predicate Less(a: string, b: string) {
    UnitsLess(CodeUnits(a), CodeUnits(b))
  }

  lemma {:induction false} UnitsLessIrreflexive(a: seq<int>)
    ensures !UnitsLess(a, a)
  {
    if a != [] {
      UnitsLessIrreflexive(a[1..]);
    }
  }

  lemma {:induction false} UnitsLessAsymmetric(a: seq<int>, b: seq<int>)
    requires UnitsLess(a, b)
    ensures !UnitsLess(b, a)
  {
    if a != [] && a[0] == b[0] {
      UnitsLessAsymmetric(a[1..], b[1..]);
    }
  }

  /** No string is less than itself, so `d > d` is false for every date `d`. */
  lemma LessIrreflexive(a: string)
    ensures !Less(a, a)
  {
    UnitsLessIrreflexive(CodeUnits(a));
  }

  /** `a < b` and `b < a` never hold together: `<` on strings is a strict order. */
  lemma LessAsymmetric(a: string, b: string)
    requires Less(a, b)
    ensures !Less(b, a)
  {
    UnitsLessAsymmetric(CodeUnits(a), CodeUnits(b));
  }

  /** Any two distinct code-unit sequences are ordered one way or the other. */
  lemma {:induction false} UnitsLessTotal(a: seq<int>, b: seq<int>)
    ensures a == b || UnitsLess(a, b) || UnitsLess(b, a)
  {
    if a != [] && b != [] && a[0] == b[0] {
      UnitsLessTotal(a[1..], b[1..]);
      if a[1..] == b[1..] {
        assert a == [a[0]] + a[1..] && b == [b[0]] + b[1..];
      }
    }
  }

  /** "Not after" is transitive: `!(b < a)` and `!(c < b)` give `!(c < a)`. */
  lemma {:induction false} UnitsAtMostTransitive(a: seq<int>, b: seq<int>, c: seq<int>)
    requires !UnitsLess(b, a) && !UnitsLess(c, b)
    ensures !UnitsLess(c, a)
  {
    if a != [] && b != [] && c != [] && c[0] == a[0] {
      UnitsAtMostTransitive(a[1..], b[1..], c[1..]);
    }
  }

  /** For strings: if `a >= b` and `b >= c` fail to be reversed, `a >= c` as well. */
  lemma AtMostTransitive(a: string, b: string, c: string)
    requires !Less(b, a) && !Less(c, b)
    ensures !Less(c, a)
  {
    UnitsAtMostTransitive(CodeUnits(a), CodeUnits(b), CodeUnits(c));
  }

  /** Of two equal-length sequences, the smaller one is smaller at the first place they differ. */
  lemma {:induction false} FirstDifference(a: seq<int>, b: seq<int>)
    requires |a| == |b| && UnitsLess(a, b)
    ensures exists k :: 0 <= k < |a| && a[..k] == b[..k] && a[k] < b[k]
  {
    if a[0] < b[0] {
      assert a[..0] == b[..0];
    } else {
      FirstDifference(a[1..], b[1..]);
      var k :| 0 <= k < |a| - 1 && a[1..][..k] == b[1..][..k] && a[1..][k] < b[1..][k];
      assert a[..k + 1] == [a[0]] + a[1..][..k];
      assert b[..k + 1] == [b[0]] + b[1..][..k];
    }
  }

  /** Below U+10000 a string has one code unit per character. */
  lemma {:induction false} CodeUnitsOfBmp(s: string)
    requires forall i :: 0 <= i < |s| ==> s[i] as int < 0x10000
    ensures |CodeUnits(s)| == |s|
    ensures forall i :: 0 <= i < |s| ==> CodeUnits(s)[i] == s[i] as int
  {
    if s != [] {
      CodeUnitsOfBmp(s[1..]);
    }
  }

  predicate IsDigit(c: char) {
    '0' <= c <= '9'
  }

  function DigitValue(c: char): int {
    c as int - '0' as int
  }

  /** The `YYYY-MM-DD` shape of a date-input value and of `toISOString().slice(0, 10)` (four-digit year). */
  predicate IsIsoDate(s: string) {
    && |s| == 10 && s[4] == '-' && s[7] == '-'
    && IsDigit(s[0]) && IsDigit(s[1]) && IsDigit(s[2]) && IsDigit(s[3])
    && IsDigit(s[5]) && IsDigit(s[6]) && IsDigit(s[8]) && IsDigit(s[9])
  }

  /** The calendar position of a date: year, then month, then day. */
  function DateKey(s: string): int
    requires IsIsoDate(s)
  {
    var year := DigitValue(s[0]) * 1000 + DigitValue(s[1]) * 100 + DigitValue(s[2]) * 10 + DigitValue(s[3]);
    var month := DigitValue(s[5]) * 10 + DigitValue(s[6]);
    var day := DigitValue(s[8]) * 10 + DigitValue(s[9]);
    year * 10000 + month * 100 + day
  }

  lemma LessIsEarlier(a: string, b: string)
    requires IsIsoDate(a) && IsIsoDate(b) && Less(a, b)
    ensures DateKey(a) < DateKey(b)
  {
    CodeUnitsOfBmp(a);
    CodeUnitsOfBmp(b);
    FirstDifference(CodeUnits(a), CodeUnits(b));
    var k :| 0 <= k < 10 && CodeUnits(a)[..k] == CodeUnits(b)[..k] && CodeUnits(a)[k] < CodeUnits(b)[k];
    forall j | 0 <= j < k ensures a[j] == b[j] {
      assert CodeUnits(a)[..k][j] == CodeUnits(b)[..k][j];
    }
    EarlierAt(a, b, k);
  }

  /** Dates that agree before position `k` and differ upward there are in calendar order. */
  lemma EarlierAt(a: string, b: string, k: nat)
    requires IsIsoDate(a) && IsIsoDate(b) && k < 10
    requires forall j :: 0 <= j < k ==> a[j] == b[j]
    requires a[k] < b[k]
    ensures DateKey(a) < DateKey(b)
  {
  }

  /**
   * For four-digit-year dates, string order is calendar order: comparing the
   * `YYYY-MM-DD` texts decides exactly what comparing the dates decides.
   */
  lemma IsoDateOrder(a: string, b: string)
    requires IsIsoDate(a) && IsIsoDate(b)
    ensures Less(a, b) <==> DateKey(a) < DateKey(b)
  {
    if Less(a, b) {
      LessIsEarlier(a, b);
    } else {
      UnitsLessTotal(CodeUnits(a), CodeUnits(b));
      if Less(b, a) {
        LessIsEarlier(b, a);
      } else {
        CodeUnitsOfBmp(a);
        CodeUnitsOfBmp(b);
        assert forall j :: 0 <= j < 10 ==> a[j] as int == CodeUnits(a)[j] == CodeUnits(b)[j] == b[j] as int;
      }
    }
  }
}
