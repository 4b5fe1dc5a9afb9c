/**
 * Financial-year keys (April to March) and zero padding of document numbers,
 * as used for challan and bill numbering.
 */
module FinancialYear {
  import opened Text

  /** A calendar year; years before 1 are not modelled. */
  type Year = y: int | y >= 1 witness 2025

  /** A month index as `Date.getMonth` gives it: 0 is January, 3 is April. */
  type Month = m: nat | m < 12

  /** Width used when a document number is padded without an explicit size. */
  const DefaultPadWidth: nat := 4

  /** Calendar year in which the financial year containing (year, month) began. */
  function FiscalStart(year: Year, month: Month): nat
  {
    if month >= 3 then year else year - 1
  }

  /** Months counted from January of year 0, to compare (year, month) pairs. */
  function MonthNumber(year: int, month: int): int
  {
    12 * year + month
  }

  /** The financial year starting in `s` is April of `s` through March of `s + 1`. */
  lemma FiscalStartWindow(year: Year, month: Month, s: nat)
    ensures FiscalStart(year, month) == s
        <==> MonthNumber(s, 3) <= MonthNumber(year, month) < MonthNumber(s + 1, 3)
  {
  }

  /** `String(y).slice(-2)`: the last two characters of the decimal rendering. */
  function Short(y: nat): string
  {
    var s := DecimalString(y);
    if |s| >= 2 then s[|s| - 2..] else s
  }

  /** Two digits for 0 <= v < 100, with a leading zero below 10. */
  function TwoDigits(v: nat): string
    requires v < 100
  {
    [DigitChar(v / 10), DigitChar(v % 10)]
  }

  /** From 10 on, the short year is the year modulo 100 on two digits (2005 gives "05"). */
  lemma ShortIsTwoDigits(y: nat)
    requires y >= 10
    ensures Short(y) == TwoDigits(y % 100)
  {
    DecimalLastTwo(y);
    var q, a, b := y / 100, y % 100 / 10, y % 100 % 10;
    assert y == 10 * (10 * q + a) + b;
    DivTen(y, 10 * q + a, b);
    DivTen(10 * q + a, q, a);
  }

  /** Euclidean division by ten is unique. */
  lemma DivTen(n: nat, q: nat, r: nat)
    requires r < 10 && n == 10 * q + r
    ensures n / 10 == q && n % 10 == r
  {
  }

  lemma TwoDigitsInjective(a: nat, b: nat)
    requires a < 100 && b < 100
    ensures TwoDigits(a) == TwoDigits(b) ==> a == b
  {
    if TwoDigits(a) == TwoDigits(b) {
      assert DigitValue(DigitChar(a / 10)) == a / 10;
      assert DigitValue(DigitChar(b / 10)) == b / 10;
      assert DigitValue(DigitChar(a % 10)) == a % 10;
      assert DigitValue(DigitChar(b % 10)) == b % 10;
    }
  }

  /** `getFinancialYearKey`: "FY" + short start year + "-" + short end year, e.g. "FY25-26". */
  function FinancialYearKey(year: Year, month: Month): string
  {
    var start := FiscalStart(year, month);
    "FY" + Short(start) + "-" + Short(start + 1)
  }

  /** For four-digit years the key is seven characters: FY, two digits, '-', two digits. */
  lemma KeyShape(year: Year, month: Month)
    requires FiscalStart(year, month) >= 10
    ensures var k := FinancialYearKey(year, month); var s := FiscalStart(year, month);
      && |k| == 7
      && k[..2] == "FY" && k[4] == '-'
      && k[2..4] == TwoDigits(s % 100)
      && k[5..] == TwoDigits((s + 1) % 100)
  {
    var s := FiscalStart(year, month);
    ShortIsTwoDigits(s);
    ShortIsTwoDigits(s + 1);
  }

  /** Euclidean division by a hundred is unique. */
  lemma DivHundred(n: nat, q: nat, r: nat)
    requires r < 100 && n == 100 * q + r
    ensures n / 100 == q && n % 100 == r
  {
  }

  /** The year after a start year is determined, modulo 100, by the start year modulo 100. */
  lemma NextModHundred(x: nat)
    ensures (x + 1) % 100 == (x % 100 + 1) % 100
  {
    var q, r := x / 100, x % 100;
    if r + 1 < 100 {
      DivHundred(x + 1, q, r + 1);
    } else {
      DivHundred(x + 1, q + 1, 0);
    }
  }

  /** Equal keys come from start years that agree modulo 100. */
  lemma SameKeyOnlyIf(y1: Year, m1: Month, y2: Year, m2: Month)
    requires FiscalStart(y1, m1) >= 10 && FiscalStart(y2, m2) >= 10
    requires FinancialYearKey(y1, m1) == FinancialYearKey(y2, m2)
    ensures FiscalStart(y1, m1) % 100 == FiscalStart(y2, m2) % 100
  {
    var s1, s2 := FiscalStart(y1, m1), FiscalStart(y2, m2);
    var k1, k2 := FinancialYearKey(y1, m1), FinancialYearKey(y2, m2);
    KeyShape(y1, m1);
    KeyShape(y2, m2);
    assert TwoDigits(s1 % 100) == k1[2..4] == k2[2..4] == TwoDigits(s2 % 100);
    TwoDigitsInjective(s1 % 100, s2 % 100);
  }

  /** Start years that agree modulo 100 give equal keys. */
  lemma SameKeyIf(y1: Year, m1: Month, y2: Year, m2: Month)
    requires FiscalStart(y1, m1) >= 10 && FiscalStart(y2, m2) >= 10
    requires FiscalStart(y1, m1) % 100 == FiscalStart(y2, m2) % 100
    ensures FinancialYearKey(y1, m1) == FinancialYearKey(y2, m2)
  {
    ShortsAgree(FiscalStart(y1, m1), FiscalStart(y2, m2));
    KeyOfShorts(y1, m1, y2, m2);
  }

  /** From 10 on, start years that agree modulo 100 have the same short forms, and so do the years after them. */
  lemma ShortsAgree(a: nat, b: nat)
    requires a >= 10 && b >= 10 && a % 100 == b % 100
    ensures Short(a) == Short(b) && Short(a + 1) == Short(b + 1)
  {
    ShortModHundred(a, b);
    NextModHundred(a);
    NextModHundred(b);
    ShortModHundred(a + 1, b + 1);
  }

  /** The key is made of the two short years only. */
  lemma KeyOfShorts(y1: Year, m1: Month, y2: Year, m2: Month)
    requires Short(FiscalStart(y1, m1)) == Short(FiscalStart(y2, m2))
    requires Short(FiscalStart(y1, m1) + 1) == Short(FiscalStart(y2, m2) + 1)
    ensures FinancialYearKey(y1, m1) == FinancialYearKey(y2, m2)
  {
  }

  /** From 10 on, years that agree modulo 100 have the same short form. */
  lemma ShortModHundred(a: nat, b: nat)
    requires a >= 10 && b >= 10 && a % 100 == b % 100
    ensures Short(a) == Short(b)
  {
    ShortIsTwoDigits(a);
    ShortIsTwoDigits(b);
  }

  /**
   * Two dates share a key exactly when their financial years start in years that
   * agree modulo 100: the key forgets the century.
   */
  lemma SameKeyIff(y1: Year, m1: Month, y2: Year, m2: Month)
    requires FiscalStart(y1, m1) >= 10 && FiscalStart(y2, m2) >= 10
    ensures FinancialYearKey(y1, m1) == FinancialYearKey(y2, m2)
        <==> FiscalStart(y1, m1) % 100 == FiscalStart(y2, m2) % 100
  {
    if FinancialYearKey(y1, m1) == FinancialYearKey(y2, m2) {
      SameKeyOnlyIf(y1, m1, y2, m2);
    }
    if FiscalStart(y1, m1) % 100 == FiscalStart(y2, m2) % 100 {
      SameKeyIf(y1, m1, y2, m2);
    }
  }

  /** The fiscal-year boundary: 31 March 2025, 1 April 2025 and 15 January 2026. */
  lemma BoundaryExamples()
    ensures FinancialYearKey(2025, 2) == "FY24-25"
    ensures FinancialYearKey(2025, 3) == "FY25-26"
    ensures FinancialYearKey(2026, 0) == "FY25-26"
  {
    ShortIsTwoDigits(2024);
    ShortIsTwoDigits(2025);
    ShortIsTwoDigits(2026);
  }

  /** `String(n).padStart(size, "0")`. */
  function Pad(n: nat, size: nat): (r: string)
    ensures var s := DecimalString(n);
      && |r| == (if |s| >= size then |s| else size)
      && r == Zeros(|r| - |s|) + s
  {
    var s := DecimalString(n);
    if |s| >= size then s else Zeros(size - |s|) + s
  }

  /** Padding never truncates: a number with at least `size` digits is rendered unchanged. */
  lemma PadNoTruncation(n: nat, size: nat)
    requires |DecimalString(n)| >= size
    ensures Pad(n, size) == DecimalString(n)
  {
    assert Zeros(0) + DecimalString(n) == DecimalString(n);
  }

  /** Stripping the leading zeros of a padded positive number gives back its rendering. */
  lemma PadStripRoundTrip(n: nat, size: nat)
    requires n > 0
    ensures StripLeadingZeros(Pad(n, size)) == DecimalString(n)
  {
    var s := DecimalString(n);
    StripZerosPrefix(|Pad(n, size)| - |s|, s);
  }

  lemma {:induction false} ParseLeadingZeros(k: nat, s: string)
    requires AllDigits(s)
    ensures AllDigits(Zeros(k) + s) && ParseDecimal(Zeros(k) + s) == ParseDecimal(s)
    decreases |s|
  {
    if s == [] {
      ZerosParse(k);
      assert Zeros(k) + s == Zeros(k);
    } else {
      var t := Zeros(k) + s;
      assert t[..|t| - 1] == Zeros(k) + s[..|s| - 1];
      ParseLeadingZeros(k, s[..|s| - 1]);
    }
  }

  lemma {:induction false} ZerosParse(k: nat)
    ensures AllDigits(Zeros(k)) && ParseDecimal(Zeros(k)) == 0
  {
    if k > 0 {
      assert Zeros(k)[..k - 1] == Zeros(k - 1);
      ZerosParse(k - 1);
    }
  }

  /** Reading a padded number as decimal gives the number back, whatever the width. */
  lemma PadParseRoundTrip(n: nat, size: nat)
    ensures AllDigits(Pad(n, size)) && ParseDecimal(Pad(n, size)) == n
  {
    var s := DecimalString(n);
    var p := Pad(n, size);
    assert p == Zeros(|p| - |s|) + s;
    ParseLeadingZeros(|p| - |s|, s);
    DecimalRoundTrip(n);
  }

  /** The default width: 7 is rendered "0007". */
  lemma PadDefaultExample()
    ensures Pad(7, DefaultPadWidth) == "0007"
  {
    assert DecimalString(7) == "7";
  }
}
