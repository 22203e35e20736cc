/** The printed official number: ACRONYM-YEAR-SEQUENCE-CITY-DEPARTMENT, the sequence padded with zeros. */
module NumberFormat {
  import opened OfficialRows
  import G = GlobalNumbering

  function DigitChar(n: nat): char
    requires n < 10
  {
    '0' + n as char
  }

  predicate IsDigit(c: char) {
    '0' <= c <= '9'
  }

  function Decimal(n: nat): (s: string)
    ensures |s| > 0
  {
    if n < 10 then [DigitChar(n)] else Decimal(n / 10) + [DigitChar(n % 10)]
  }

  /** Format specifier 0wd: zeros on the left up to width w; a longer number is printed whole. */
  function Padded(n: nat, width: nat): string {
    var s := Decimal(n);
    Zeros(if |s| < width then width - |s| else 0) + s
  }

  function Zeros(k: nat): string {
    if k == 0 then "" else ['0'] + Zeros(k - 1)
  }

  function Width(regime: Regime): nat {
    if regime == Global then 8 else 4
  }

  function OfficialNumber(row: Row): string {
    row.parts.acronym + "-" + Decimal(row.lane.year) + "-" + Padded(row.number, Width(row.regime))
    + "-" + row.parts.city + "-" + row.parts.department
  }

  predicate DashFree(s: string) {
    '-' !in s
  }

  // --- Reading a number back ---

  predicate AllDigits(s: string) {
    forall i | 0 <= i < |s| :: IsDigit(s[i])
  }

  function Digit(c: char): (r: nat)
    requires IsDigit(c)
    ensures r < 10
  {
    c as int - '0' as int
  }

  /** The value of a string of digits. */
  function Value(s: string): nat
    requires AllDigits(s)
  {
    if s == "" then 0 else Value(s[..|s| - 1]) * 10 + Digit(s[|s| - 1])
  }

  lemma {:induction false} DecimalReadsBack(n: nat)
    ensures AllDigits(Decimal(n)) && Value(Decimal(n)) == n
  {
    if n < 10 {
      assert Decimal(n)[..0] == "";
      assert Digit(DigitChar(n)) == n;
    } else {
      DecimalReadsBack(n / 10);
      var s := Decimal(n);
      assert s[..|s| - 1] == Decimal(n / 10);
      assert Digit(DigitChar(n % 10)) == n % 10;
    }
  }

  lemma {:induction false} PaddingKeepsValue(k: nat, s: string)
    requires AllDigits(s)
    ensures AllDigits(Zeros(k) + s) && Value(Zeros(k) + s) == Value(s)
    decreases |s|, k
  {
    if s == "" {
      if k > 0 {
        PaddingKeepsValue(k - 1, s);
        ZerosAreZeros(k);
        ZerosAreZeros(k - 1);
        var z := Zeros(k) + s;
        assert z[..|z| - 1] == Zeros(k - 1) + s;
      }
    } else {
      var front := s[..|s| - 1];
      PaddingKeepsValue(k, front);
      var z := Zeros(k) + s;
      assert z[..|z| - 1] == Zeros(k) + front;
      assert z[|z| - 1] == s[|s| - 1];
    }
  }

  lemma {:induction false} ZerosAreZeros(k: nat)
    ensures |Zeros(k)| == k && forall i | 0 <= i < k :: Zeros(k)[i] == '0'
  {
    if k > 0 {
      ZerosAreZeros(k - 1);
    }
  }

  lemma PaddedReadsBack(n: nat, width: nat)
    ensures AllDigits(Padded(n, width)) && Value(Padded(n, width)) == n
  {
    var s := Decimal(n);
    DecimalReadsBack(n);
    PaddingKeepsValue(if |s| < width then width - |s| else 0, s);
  }

  // --- Exactly what is printed ---

  function Power(k: nat): nat {
    if k == 0 then 1 else 10 * Power(k - 1)
  }

  lemma {:induction false} ValueBounds(s: string)
    requires AllDigits(s)
    ensures Value(s) < Power(|s|)
    ensures s != "" && s[0] != '0' ==> Power(|s| - 1) <= Value(s)
  {
    if s != "" {
      ValueBounds(s[..|s| - 1]);
    }
  }

  lemma {:induction false} PowerGrows(a: nat, b: nat)
    requires a <= b
    ensures Power(a) <= Power(b)
  {
    if a < b {
      PowerGrows(a, b - 1);
    }
  }

  lemma {:induction false} TensAndUnits(a: nat, x: nat, b: nat, y: nat)
    requires x < 10 && y < 10 && a * 10 + x == b * 10 + y
    ensures a == b && x == y
  {
  }

  lemma {:induction false} SameDigits(s: string, t: string)
    requires AllDigits(s) && AllDigits(t) && |s| == |t| && Value(s) == Value(t)
    ensures s == t
    decreases |s|
  {
    if s != "" {
      var a, x, b, y := s[..|s| - 1], s[|s| - 1], t[..|t| - 1], t[|t| - 1];
      TensAndUnits(Value(a), Digit(x), Value(b), Digit(y));
      SameDigits(a, b);
      assert s == a + [x] && t == b + [y];
    }
  }

  /** No sign, no blank, at least w digits, and no zero in front of more than w of them. */
  predicate WellPadded(s: string, width: nat) {
    s != "" && AllDigits(s) && |s| >= width && (|s| > width && |s| > 1 ==> s[0] != '0')
  }

  lemma SameValue(s: string, t: string, width: nat)
    requires WellPadded(s, width) && WellPadded(t, width) && Value(s) == Value(t)
    ensures s == t
  {
    if |s| == |t| {
      SameDigits(s, t);
    } else if |s| < |t| {
      LongerIsGreater(s, t);
    } else {
      LongerIsGreater(t, s);
    }
  }

  lemma LongerIsGreater(s: string, t: string)
    requires AllDigits(s) && AllDigits(t) && |s| < |t| && t[0] != '0'
    ensures Value(s) < Value(t)
  {
    ValueBounds(s);
    ValueBounds(t);
    PowerGrows(|s|, |t| - 1);
  }

  lemma {:induction false} DecimalHasNoZeroInFront(n: nat)
    ensures n > 0 ==> Decimal(n)[0] != '0'
    ensures |Decimal(n)| > 1 ==> Decimal(n)[0] != '0'
  {
    if n >= 10 {
      DecimalHasNoZeroInFront(n / 10);
    }
  }

  /** A padded number is the one well padded string that has its value. */
  lemma PaddedExactly(n: nat, width: nat, s: string)
    ensures s == Padded(n, width) <==> WellPadded(s, width) && Value(s) == n
  {
    PaddedIsWellPadded(n, width);
    if WellPadded(s, width) && Value(s) == n {
      SameValue(s, Padded(n, width), width);
    }
  }

  lemma PaddedIsWellPadded(n: nat, width: nat)
    ensures WellPadded(Padded(n, width), width) && Value(Padded(n, width)) == n
  {
    var d := Decimal(n);
    PaddedReadsBack(n, width);
    DecimalHasNoZeroInFront(n);
    ZerosAreZeros(if |d| < width then width - |d| else 0);
  }

  /** Two rows as they are printed: the report numbered 1 of the year 2026, of a GLOBAL and of a SPECIAL type. */
  lemma PrintedRows(global: Row, special: Row)
    requires global.regime == Global && special.regime == Special
    requires global.parts == special.parts && global.parts.acronym == "IF"
        && global.parts.city == "LUJ" && global.parts.department == "DG"
    requires global.lane.year == special.lane.year == 2026 && global.number == special.number == 1
    ensures OfficialNumber(global) == "IF-2026-00000001-LUJ-DG"
    ensures OfficialNumber(special) == "IF-2026-0001-LUJ-DG"
  {
    YearIsPrinted();
    OneIsPrinted();
  }

  lemma YearIsPrinted()
    ensures Decimal(2026) == "2026"
  {
    assert Decimal(202) == Decimal(20) + "2" && Decimal(20) == Decimal(2) + "0" && Decimal(2) == "2";
  }

  lemma OneIsPrinted()
    ensures Padded(1, 8) == "00000001" && Padded(1, 4) == "0001"
  {
    assert Decimal(1) == "1";
    ZerosAreZeros(7);
    ZerosAreZeros(3);
  }

  // --- Splitting at the first dash ---

  ghost predicate FirstDash(s: string, i: nat) {
    i < |s| && s[i] == '-' && forall k | 0 <= k < i :: s[k] != '-'
  }

  lemma FirstDashAt(s: string, a: string)
    requires DashFree(a) && |a| < |s| && s[..|a|] == a && s[|a|] == '-'
    ensures FirstDash(s, |a|)
  {
    forall k | 0 <= k < |a|
      ensures s[k] != '-'
    {
      assert s[k] == a[k] && a[k] in a;
    }
  }

  lemma FirstDashSplits(a: string, b: string, rest: string, rest': string)
    requires DashFree(a) && DashFree(b)
    requires a + "-" + rest == b + "-" + rest'
    ensures a == b && rest == rest'
  {
    var s := a + "-" + rest;
    assert a == s[..|a|] && b == s[..|b|];
    FirstDashAt(s, a);
    FirstDashAt(s, b);
    assert rest == s[|a| + 1..] && rest' == s[|b| + 1..];
  }

  lemma DigitsAreDashFree(s: string)
    requires AllDigits(s)
    ensures DashFree(s)
  {
  }

  /** Two rows of one regime with dash-free acronyms that print alike have the same acronym, year and sequence. */
  lemma OfficialNumberInjective(a: Row, b: Row)
    requires DashFree(a.parts.acronym) && DashFree(b.parts.acronym)
    requires OfficialNumber(a) == OfficialNumber(b)
    ensures a.parts.acronym == b.parts.acronym && a.lane.year == b.lane.year && a.number == b.number
  {
    var na, nb := Padded(a.number, Width(a.regime)), Padded(b.number, Width(b.regime));
    var ta := a.parts.city + "-" + a.parts.department;
    var tb := b.parts.city + "-" + b.parts.department;
    var ya, yb := Decimal(a.lane.year), Decimal(b.lane.year);
    assert OfficialNumber(a) == a.parts.acronym + "-" + (ya + "-" + (na + "-" + ta));
    assert OfficialNumber(b) == b.parts.acronym + "-" + (yb + "-" + (nb + "-" + tb));
    FirstDashSplits(a.parts.acronym, b.parts.acronym, ya + "-" + (na + "-" + ta), yb + "-" + (nb + "-" + tb));
    DecimalReadsBack(a.lane.year);
    DecimalReadsBack(b.lane.year);
    DigitsAreDashFree(ya);
    DigitsAreDashFree(yb);
    FirstDashSplits(ya, yb, na + "-" + ta, nb + "-" + tb);
    PaddedReadsBack(a.number, Width(a.regime));
    PaddedReadsBack(b.number, Width(b.regime));
    DigitsAreDashFree(na);
    DigitsAreDashFree(nb);
    FirstDashSplits(na, nb, ta, tb);
  }

  /** So no two GLOBAL rows of the table show the same official number. */
  lemma OfficialNumbersUnique(docs: Docs, d: DocId, e: DocId)
    requires G.Distinct(docs) && d in docs && e in docs && docs[d].regime == docs[e].regime == Global
    requires DashFree(docs[d].parts.acronym) && DashFree(docs[e].parts.acronym)
    ensures OfficialNumber(docs[d]) == OfficialNumber(docs[e]) <==> d == e
  {
    if OfficialNumber(docs[d]) == OfficialNumber(docs[e]) {
      OfficialNumberInjective(docs[d], docs[e]);
    }
  }
}
