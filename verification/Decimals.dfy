/** Shortest-roundtrip decimals and the quantile keys printed from them. */
module Decimals {

  function Pow10(n: nat): (r: nat)
    ensures r >= 1
  {
    if n == 0 then 1 else 10 * Pow10(n - 1)
  }

  function DigitChar(d: nat): char
    requires d < 10
  {
    "0123456789"[d]
  }

  /** The decimal digits of n, without leading zeros. */
  function NatText(n: nat): string {
    if n < 10 then [DigitChar(n)] else NatText(n / 10) + [DigitChar(n % 10)]
  }

  /** The last `width` decimal digits of n, zero padded. */
  function FracText(n: nat, width: nat): string {
    if width == 0 then "" else FracText(n / 10, width - 1) + [DigitChar(n % 10)]
  }

  function StripZeros(s: string): string {
    if s != "" && s[|s| - 1] == '0' then StripZeros(s[..|s| - 1]) else s
  }

  /** A float in (0, 1), identified by its shortest decimal representation coef / 10^scale. */
  datatype Decimal = Decimal(coef: nat, scale: nat)

  function Value(d: Decimal): real {
    d.coef as real / Pow10(d.scale) as real
  }

  /** The digits of n left of a point placed `places` digits from the right. */
  function Whole(n: nat, places: nat): nat {
    if places == 0 then n else Whole(n / 10, places - 1)
  }

  /** Whole and fractional digits of 100 * d in fixed notation, trailing zeros removed. */
  function PercentText(d: Decimal): (string, string) {
    var percent := d.coef * 100;
    (NatText(Whole(percent, d.scale)), StripZeros(FracText(percent, d.scale)))
  }

  function ZeroFill2(s: string): string
    decreases 2 - |s|
  {
    if |s| < 2 then ZeroFill2("0" + s) else s
  }

  function Suffix(fraction: string): string {
    if fraction == "" then "" else "." + fraction
  }

  function QuantileKey(d: Decimal): string {
    "q" + (ZeroFill2(PercentText(d).0) + Suffix(PercentText(d).1))
  }

  // Reading digits back.

  predicate IsDigit(c: char) { '0' <= c <= '9' }

  predicate AllDigits(s: string) { forall i :: 0 <= i < |s| ==> IsDigit(s[i]) }

  function NatOf(s: string): nat
    requires AllDigits(s)
  {
    if s == "" then 0 else NatOf(s[..|s| - 1]) * 10 + (s[|s| - 1] as nat - '0' as nat)
  }

  lemma DigitReads(d: nat)
    requires d < 10
    ensures IsDigit(DigitChar(d)) && DigitChar(d) as nat - '0' as nat == d
  {
  }

  lemma AppendReads(s: string, d: nat)
    requires AllDigits(s) && d < 10
    ensures AllDigits(s + [DigitChar(d)]) && NatOf(s + [DigitChar(d)]) == NatOf(s) * 10 + d
  {
    DigitReads(d);
    assert (s + [DigitChar(d)])[..|s|] == s;
  }

  /** Reading the digits of a printed natural gives it back. */
  lemma {:induction false} NatTextReads(n: nat)
    ensures NatText(n) != "" && AllDigits(NatText(n)) && NatOf(NatText(n)) == n
  {
    if n < 10 {
      AppendReads("", n);
      assert "" + [DigitChar(n)] == NatText(n);
    } else {
      NatTextReads(n / 10);
      AppendReads(NatText(n / 10), n % 10);
    }
  }

  lemma {:induction false} NoLeadingZero(n: nat)
    ensures NatText(n) != "" && (|NatText(n)| > 1 ==> NatText(n)[0] != '0')
    ensures n > 0 ==> NatText(n)[0] != '0'
  {
    if n >= 10 {
      NoLeadingZero(n / 10);
    }
  }

  /** Digits without a leading zero are the printed form of what they read as. */
  lemma {:induction false} TextOfReading(s: string)
    requires s != "" && AllDigits(s) && (|s| > 1 ==> s[0] != '0')
    ensures NatText(NatOf(s)) == s
  {
    var front, d := s[..|s| - 1], s[|s| - 1];
    assert d == DigitChar(d as nat - '0' as nat);
    if front == "" {
      assert s == [d] && NatOf(front) == 0;
    } else {
      TextOfReading(front);
      assert NatOf(front) != 0;
      assert NatOf(s) / 10 == NatOf(front) && NatOf(s) % 10 == d as nat - '0' as nat;
      assert s == front + [d];
    }
  }

  lemma ShiftPoint(w: nat, p: nat, f: nat, n: nat, d: nat)
    requires w * p + f == n
    ensures w * (10 * p) + (f * 10 + d) == 10 * n + d
  {
  }

  /** Splitting at the point loses nothing: the two digit strings read back as n. */
  lemma {:induction false} SplitReads(n: nat, width: nat)
    ensures |FracText(n, width)| == width && AllDigits(FracText(n, width))
    ensures Whole(n, width) * Pow10(width) + NatOf(FracText(n, width)) == n
  {
    if width > 0 {
      SplitReads(n / 10, width - 1);
      AppendReads(FracText(n / 10, width - 1), n % 10);
      var f := NatOf(FracText(n / 10, width - 1));
      assert NatOf(FracText(n, width)) == f * 10 + n % 10;
      assert Whole(n, width) == Whole(n / 10, width - 1) && Pow10(width) == 10 * Pow10(width - 1);
      ShiftPoint(Whole(n / 10, width - 1), Pow10(width - 1), f, n / 10, n % 10);
    }
  }

  /** The value of a digit string read after a decimal point. */
  function FracOf(s: string): real
    requires AllDigits(s)
  {
    NatOf(s) as real / Pow10(|s|) as real
  }

  lemma ScaledQuotient(n: nat, p: nat)
    requires p >= 1
    ensures (n * 10) as real / (10 * p) as real == n as real / p as real
  {
    var a, b := n as real, p as real;
    assert (n * 10) as real == 10.0 * a && (10 * p) as real == 10.0 * b;
    assert (10.0 * a) / (10.0 * b) == a / b;
  }

  lemma {:induction false} StripKeepsFraction(s: string)
    requires AllDigits(s)
    ensures AllDigits(StripZeros(s)) && FracOf(StripZeros(s)) == FracOf(s)
  {
    if s != "" && s[|s| - 1] == '0' {
      var t := s[..|s| - 1];
      StripKeepsFraction(t);
      ScaledQuotient(NatOf(t), Pow10(|t|));
    }
  }

  lemma {:induction false} ZeroFillReads(s: string)
    requires AllDigits(s)
    ensures AllDigits(ZeroFill2(s)) && NatOf(ZeroFill2(s)) == NatOf(s)
    decreases 2 - |s|
  {
    if |s| < 2 {
      LeadingZeroReads(s);
      ZeroFillReads("0" + s);
    }
  }

  lemma {:induction false} LeadingZeroReads(s: string)
    requires AllDigits(s)
    ensures AllDigits("0" + s) && NatOf("0" + s) == NatOf(s)
  {
    if s == "" {
      assert "0" + s == "0" && "0"[..0] == "";
    } else {
      LeadingZeroReads(s[..|s| - 1]);
      assert ("0" + s)[..|s|] == "0" + s[..|s| - 1];
    }
  }

  // Injectivity.

  lemma PointEndsDigits(w: string, r: string, k: nat)
    requires AllDigits(w) && (r == "" || r[0] == '.') && k < |w + r|
    ensures k < |w| ==> IsDigit((w + r)[k])
    ensures k == |w| ==> !IsDigit((w + r)[k])
  {
  }

  /** A digit string followed by nothing or a point is the longest digit prefix. */
  lemma DigitsSplit(w: string, r: string, w': string, r': string)
    requires AllDigits(w) && AllDigits(w') && w + r == w' + r'
    requires (r == "" || r[0] == '.') && (r' == "" || r'[0] == '.')
    ensures w == w' && r == r'
  {
    var m := if |w| < |w'| then |w| else |w'|;
    if m < |w + r| {
      PointEndsDigits(w, r, m);
      PointEndsDigits(w', r', m);
    }
    assert |w| == |w'|;
    assert w == (w + r)[..|w|] && w' == (w' + r')[..|w'|];
    assert r == (w + r)[|w|..] && r' == (w' + r')[|w'|..];
  }

  lemma CancelFactor(a: real, u: real)
    requires u >= 1.0
    ensures a * u / u == a
  {
  }

  lemma MixedNumber(a: nat, b: nat, c: nat, u: nat)
    requires u >= 1 && 100 * c == a * u + b
    ensures a as real + b as real / u as real == 100.0 * (c as real / u as real)
  {
    var ar, br, cr, ur := a as real, b as real, c as real, u as real;
    assert (a * u) as real == ar * ur;
    CancelFactor(ar, ur);
    AddQuotients(ar * ur, br, ur);
    ScaleQuotient(cr, ur);
  }

  lemma AddQuotients(x: real, y: real, u: real)
    requires u >= 1.0
    ensures x / u + y / u == (x + y) / u
  {
  }

  lemma ScaleQuotient(c: real, u: real)
    requires u >= 1.0
    ensures 100.0 * (c / u) == (100.0 * c) / u
  {
  }

  /** The digits printed for d denote 100 times its value. */
  lemma PercentReads(d: Decimal)
    ensures AllDigits(PercentText(d).0) && AllDigits(PercentText(d).1)
    ensures NatOf(PercentText(d).0) as real + FracOf(PercentText(d).1) == 100.0 * Value(d)
  {
    var p := d.coef * 100;
    NatTextReads(Whole(p, d.scale));
    SplitReads(p, d.scale);
    StripKeepsFraction(FracText(p, d.scale));
    MixedNumber(Whole(p, d.scale), NatOf(FracText(p, d.scale)), d.coef, Pow10(d.scale));
  }

  lemma KeyBody(d: Decimal)
    ensures QuantileKey(d)[1..] == ZeroFill2(PercentText(d).0) + Suffix(PercentText(d).1)
  {
  }

  lemma SuffixInjective(f: string, g: string)
    requires Suffix(f) == Suffix(g)
    ensures f == g
  {
    if f != "" && g != "" {
      assert f == Suffix(f)[1..] && g == Suffix(g)[1..];
    }
  }

  lemma KeyDeterminesValue(a: Decimal, b: Decimal)
    requires QuantileKey(a) == QuantileKey(b)
    ensures Value(a) == Value(b)
  {
    var wa, fa, wb, fb := PercentText(a).0, PercentText(a).1, PercentText(b).0, PercentText(b).1;
    PercentReads(a);
    PercentReads(b);
    ZeroFillReads(wa);
    ZeroFillReads(wb);
    KeyBody(a);
    KeyBody(b);
    DigitsSplit(ZeroFill2(wa), Suffix(fa), ZeroFill2(wb), Suffix(fb));
    SuffixInjective(fa, fb);
  }

  // Different spellings of one number share a key.

  lemma StripAppendedZero(s: string)
    ensures StripZeros(s + "0") == StripZeros(s)
  {
    assert (s + "0")[..|s|] == s;
  }

  lemma KeyOfPadded(d: Decimal)
    ensures QuantileKey(Decimal(10 * d.coef, d.scale + 1)) == QuantileKey(d)
  {
    var p := d.coef * 100;
    assert (10 * d.coef) * 100 == 10 * p && (10 * p) / 10 == p && (10 * p) % 10 == 0;
    assert FracText(10 * p, d.scale + 1) == FracText(p, d.scale) + "0";
    StripAppendedZero(FracText(p, d.scale));
  }

  function Pad(d: Decimal, k: nat): Decimal {
    if k == 0 then d else var e := Pad(d, k - 1); Decimal(10 * e.coef, e.scale + 1)
  }

  lemma ValueOfPadded(d: Decimal)
    ensures Value(Decimal(10 * d.coef, d.scale + 1)) == Value(d)
  {
    assert Pow10(d.scale + 1) == 10 * Pow10(d.scale);
    ScaledQuotient(d.coef, Pow10(d.scale));
  }

  lemma {:induction false} PadKeeps(d: Decimal, k: nat)
    ensures Pad(d, k).scale == d.scale + k && Value(Pad(d, k)) == Value(d)
    ensures QuantileKey(Pad(d, k)) == QuantileKey(d)
  {
    hide Value, QuantileKey;
    if k > 0 {
      PadKeeps(d, k - 1);
      KeyOfPadded(Pad(d, k - 1));
      ValueOfPadded(Pad(d, k - 1));
    }
  }

  lemma SameScale(a: Decimal, b: Decimal)
    requires a.scale == b.scale && Value(a) == Value(b)
    ensures a == b
  {
    var p := Pow10(a.scale) as real;
    assert a.coef as real == Value(a) * p && b.coef as real == Value(b) * p;
  }

  /** A quantile key identifies exactly one quantile, however its decimal is spelled. */
  lemma KeyIdentifiesQuantile(a: Decimal, b: Decimal)
    ensures QuantileKey(a) == QuantileKey(b) <==> Value(a) == Value(b)
  {
    if QuantileKey(a) == QuantileKey(b) {
      KeyDeterminesValue(a, b);
    }
    if Value(a) == Value(b) {
      PadKeeps(a, b.scale);
      PadKeeps(b, a.scale);
      SameScale(Pad(a, b.scale), Pad(b, a.scale));
    }
  }

  // How a key is spelled.

  lemma {:induction false} StrippedEnd(s: string)
    ensures StripZeros(s) != "" ==> StripZeros(s)[|StripZeros(s)| - 1] != '0'
  {
    if s != "" && s[|s| - 1] == '0' {
      StrippedEnd(s[..|s| - 1]);
    }
  }

  /** At least two digits, more only if the first is not zero. */
  ghost predicate WholeDigits(s: string) {
    AllDigits(s) && |s| >= 2 && (|s| > 2 ==> s[0] != '0')
  }

  /** Nothing, or a point and digits of which the last is not zero. */
  ghost predicate FractionDigits(s: string) {
    AllDigits(s) && (s != "" ==> s[|s| - 1] != '0')
  }

  ghost predicate SpelledAs(d: Decimal, whole: string, fraction: string) {
    && WholeDigits(whole) && FractionDigits(fraction)
    && QuantileKey(d) == (if fraction == "" then "q" + whole else "q" + whole + "." + fraction)
    && NatOf(whole) as real + FracOf(fraction) == 100.0 * Value(d)
  }

  lemma FilledWhole(n: nat)
    ensures WholeDigits(ZeroFill2(NatText(n))) && NatOf(ZeroFill2(NatText(n))) == n
  {
    NatTextReads(n);
    NoLeadingZero(n);
    ZeroFillReads(NatText(n));
    if |NatText(n)| == 1 {
      assert ZeroFill2(NatText(n)) == "0" + NatText(n);
    }
  }

  /** A key is q, the percentage in at least two digits, and its decimals, if any, after a point. */
  lemma KeyIsSpelled(d: Decimal)
    ensures exists whole, fraction :: SpelledAs(d, whole, fraction)
  {
    hide NatText, FracText, StripZeros, Whole, WholeDigits, NatOf, FracOf, Value;
    var n, fraction := Whole(d.coef * 100, d.scale), PercentText(d).1;
    var whole := ZeroFill2(NatText(n));
    PercentReads(d);
    FilledWhole(n);
    NatTextReads(n);
    StrippedEnd(FracText(d.coef * 100, d.scale));
    assert "q" + (whole + ("." + fraction)) == "q" + whole + "." + fraction;
    assert "q" + (whole + "") == "q" + whole;
    assert SpelledAs(d, whole, fraction);
  }

  /** A quantile level together with the key it is reported under. */
  datatype Quantile = Quantile(level: real, key: string)

  const MEDIAN_KEY := "q50"

  function Named(d: Decimal): Quantile {
    Quantile(Value(d), QuantileKey(d))
  }

  /** Keys identify levels, and the median is the one reported as q50. */
  ghost predicate Faithful(qs: seq<Quantile>) {
    && (forall i, j :: 0 <= i < |qs| && 0 <= j < |qs| ==> (qs[i].key == qs[j].key <==> qs[i].level == qs[j].level))
    && (forall i :: 0 <= i < |qs| ==> (qs[i].key == MEDIAN_KEY <==> qs[i].level == 0.5))
  }

  lemma TenthDigits(n: nat)
    requires 1 <= n <= 9
    ensures PercentText(Decimal(n, 1)) == ([DigitChar(n), '0'], "")
  {
    var p := n * 100;
    assert p / 10 == n * 10 && p % 10 == 0 && n * 10 / 10 == n && n * 10 % 10 == 0;
    assert Whole(p, 1) == Whole(n * 10, 0) == n * 10;
    assert NatText(n * 10) == NatText(n) + "0" == [DigitChar(n), '0'];
    assert FracText(p, 1) == FracText(n * 10, 0) + "0" == "0";
    assert StripZeros("0") == StripZeros("0"[..0]) == "";
  }

  /** The tenths are reported as q10, q20, ..., q90. */
  lemma TenthKey(n: nat)
    requires 1 <= n <= 9
    ensures Named(Decimal(n, 1)) == Quantile(n as real / 10.0, ['q', DigitChar(n), '0'])
  {
    hide PercentText;
    TenthDigits(n);
    assert Pow10(1) == 10 * Pow10(0) == 10;
    assert ZeroFill2([DigitChar(n), '0']) == [DigitChar(n), '0'];
  }

  /** Quantiles named by the key printer are always faithful. */
  lemma NamedAreFaithful(ds: seq<Decimal>, qs: seq<Quantile>)
    requires |qs| == |ds| && forall i :: 0 <= i < |ds| ==> qs[i] == Named(ds[i])
    ensures Faithful(qs)
  {
    forall i, j | 0 <= i < |qs| && 0 <= j < |qs|
      ensures qs[i].key == qs[j].key <==> qs[i].level == qs[j].level
    {
      KeyIdentifiesQuantile(ds[i], ds[j]);
    }
    forall i | 0 <= i < |qs|
      ensures qs[i].key == MEDIAN_KEY <==> qs[i].level == 0.5
    {
      TenthKey(5);
      KeyIdentifiesQuantile(ds[i], Decimal(5, 1));
    }
  }
}
