/**
 * Decimal text <-> integer conversions: Python's `int()`, `float()` on
 * decimal text, `str(n)` and the `{n:0Wd}` format spec.
 * Shares are integers counted in hundredths of a percent.
 */
module Numbers {
  import opened Wrappers
  import opened Text

  function DigitChar(d: nat): (c: char)
    requires d < 10
    ensures IsDigit(c)
  {
    ('0' as int + d) as char
  }

  function DigitValue(c: char): (d: nat)
    requires IsDigit(c)
    ensures d < 10
  {
    c as int - '0' as int
  }

  /** The value of a run of ASCII digits (leading zeros allowed). */
  function DigitsValue(s: string): nat
    requires AllDigits(s)
  {
    if s == [] then 0 else DigitsValue(s[..|s| - 1]) * 10 + DigitValue(s[|s| - 1])
  }

  lemma {:induction false} DigitsValueBound(s: string)
    requires AllDigits(s)
    ensures DigitsValue(s) < Pow10(|s|)
  {
    if s != [] {
      DigitsValueBound(s[..|s| - 1]);
    }
  }

  /** Digit text read after further digit text: the first part is shifted left. */
  lemma {:induction false} DigitsValueAppend(a: string, b: string)
    requires AllDigits(a) && AllDigits(b)
    ensures AllDigits(a + b) && DigitsValue(a + b) == DigitsValue(a) * Pow10(|b|) + DigitsValue(b)
    decreases |b|
  {
    if b == [] {
      assert a + b == a;
    } else {
      var t := a + b;
      var b' := b[..|b| - 1];
      assert t[..|t| - 1] == a + b';
      assert t[|t| - 1] == b[|b| - 1];
      DigitsValueAppend(a, b');
      assert DigitsValue(t) == DigitsValue(a + b') * 10 + DigitValue(b[|b| - 1]);
      ShiftDigit(DigitsValue(a), Pow10(|b'|), DigitsValue(b'), DigitValue(b[|b| - 1]));
    }
  }

  lemma ShiftDigit(x: int, p: int, y: int, d: int)
    ensures (x * p + y) * 10 + d == x * (10 * p) + (y * 10 + d)
  {
  }

  /** `str(n)` for a natural number: no leading zeros. */
  function NatToString(n: nat): (s: string)
    ensures |s| >= 1 && AllDigits(s)
    ensures |s| > 1 ==> s[0] != '0'
    decreases n
  {
    if n < 10 then [DigitChar(n)] else NatToString(n / 10) + [DigitChar(n % 10)]
  }

  lemma {:induction false} NatToStringValue(n: nat)
    ensures DigitsValue(NatToString(n)) == n
    decreases n
  {
    if n >= 10 {
      NatToStringValue(n / 10);
      var s := NatToString(n);
      assert s[..|s| - 1] == NatToString(n / 10);
    }
  }

  lemma {:induction false} NatToStringLength(n: nat, k: nat)
    requires n < Pow10(k)
    ensures |NatToString(n)| <= k || (k == 0 && |NatToString(n)| == 1)
    decreases n
  {
    if n >= 10 {
      assert k >= 2;
      NatToStringLength(n / 10, k - 1);
    }
  }

  lemma {:induction false} NatToStringLong(n: nat, k: nat)
    requires n >= Pow10(k)
    ensures |NatToString(n)| > k
    decreases n
  {
    if k > 0 {
      NatToStringLong(n / 10, k - 1);
    }
  }

  function Pow10(k: nat): (p: nat)
    ensures p >= 1
  {
    if k == 0 then 1 else 10 * Pow10(k - 1)
  }

  function Zeros(k: nat): (s: string)
    ensures |s| == k && AllDigits(s)
    ensures forall i :: 0 <= i < k ==> s[i] == '0'
  {
    seq(k, _ => '0')
  }

  /** Left-pads digit text with zeros to at least `width` characters. */
  function ZeroPad(s: string, width: nat): (r: string)
    ensures |r| == Max(|s|, width)
    ensures AllDigits(s) ==> AllDigits(r)
  {
    if |s| >= width then s else Zeros(width - |s|) + s
  }

  lemma {:induction false} LeadingZerosValue(k: nat, s: string)
    requires AllDigits(s)
    ensures AllDigits(Zeros(k) + s) && DigitsValue(Zeros(k) + s) == DigitsValue(s)
    decreases |s|
  {
    var t := Zeros(k) + s;
    if s == [] {
      assert t == Zeros(k);
      ZerosValue(k);
    } else {
      assert t[..|t| - 1] == Zeros(k) + s[..|s| - 1];
      LeadingZerosValue(k, s[..|s| - 1]);
    }
  }

  lemma {:induction false} ZerosValue(k: nat)
    ensures DigitsValue(Zeros(k)) == 0
  {
    if k > 0 {
      assert Zeros(k)[..k - 1] == Zeros(k - 1);
      ZerosValue(k - 1);
    }
  }

  /** Python's `f"{n}"` / `str(n)` for any integer. */
  function IntToString(n: int): string {
    if n >= 0 then NatToString(n) else "-" + NatToString(-n)
  }

  /** Python's `f"{n:0{width}d}"`: zero padding goes after the sign. */
  function FormatInt(n: int, width: nat): (s: string)
    ensures n >= 0 ==> |s| == Max(|NatToString(n)|, width) && AllDigits(s)
  {
    if n >= 0 then ZeroPad(NatToString(n), width)
    else "-" + ZeroPad(NatToString(-n), if width == 0 then 0 else width - 1)
  }

  /** Reading back zero-padded text gives the number again. */
  lemma FormatIntValue(n: nat, width: nat)
    ensures AllDigits(FormatInt(n, width)) && DigitsValue(FormatInt(n, width)) == n
  {
    NatToStringValue(n);
    var s := NatToString(n);
    assert FormatInt(n, width) == ZeroPad(s, width);
    if |s| < width {
      assert ZeroPad(s, width) == Zeros(width - |s|) + s;
      LeadingZerosValue(width - |s|, s);
    }
  }

  /** A number below 10^width is rendered with exactly `width` digits. */
  lemma FormatIntWidth(n: nat, width: nat)
    requires width >= 1 && n < Pow10(width)
    ensures |FormatInt(n, width)| == width
  {
    NatToStringLength(n, width);
  }

  predicate DigitsAndUnderscores(b: string) {
    forall i :: 0 <= i < |b| ==> IsDigit(b[i]) || b[i] == '_'
  }

  /** Digits with single underscores between them, as `int()` accepts. */
  predicate GroupedDigits(b: string) {
    && |b| > 0
    && IsDigit(b[0])
    && IsDigit(b[|b| - 1])
    && DigitsAndUnderscores(b)
    && forall i :: 0 <= i < |b| - 1 && b[i] == '_' ==> b[i + 1] != '_'
  }

  function WithoutUnderscores(b: string): (r: string)
    requires DigitsAndUnderscores(b)
    ensures AllDigits(r)
  {
    if b == [] then []
    else if b[0] == '_' then WithoutUnderscores(b[1..])
    else [b[0]] + WithoutUnderscores(b[1..])
  }

  /** Python's `int(s)` in base 10: surrounding whitespace, a sign, digit groups. */
  function PyInt(s: string): Option<int> {
    var t := Strip(s);
    var body := if |t| > 0 && (t[0] == '-' || t[0] == '+') then t[1..] else t;
    if GroupedDigits(body) then
      var v: int := DigitsValue(WithoutUnderscores(body));
      Some(if |t| > 0 && t[0] == '-' then -v else v)
    else
      None
  }

  /** `int()` accepts nothing without a digit. */
  lemma PyIntNeedsDigit(s: string)
    ensures PyInt(s).Some? ==> exists i :: 0 <= i < |s| && IsDigit(s[i])
  {
    var t := Strip(s);
    if PyInt(s).Some? {
      TrimStartShape(s);
      TrimEndShape(TrimStart(s));
      var a := |s| - |TrimStart(s)|;
      var j := if |t| > 0 && (t[0] == '-' || t[0] == '+') then 1 else 0;
      assert IsDigit(t[j]);
      assert t[j] == TrimStart(s)[j] == s[a + j];
    }
  }

  /** `int()` reads plain digit text as its decimal value. */
  lemma PyIntDigits(s: string)
    requires AllDigits(s) && s != []
    ensures PyInt(s) == Some(DigitsValue(s))
  {
    StripDigits(s);
    assert s[0] != '-' && s[0] != '+';
    assert GroupedDigits(s);
    AllDigitsWithoutUnderscores(s);
  }

  /** Digit text has no surrounding whitespace to strip. */
  lemma StripDigits(s: string)
    requires AllDigits(s) && s != []
    ensures Strip(s) == s
  {
    assert !IsSpace(s[0]) && !IsSpace(s[|s| - 1]);
    assert TrimStart(s) == s;
  }

  lemma {:induction false} AllDigitsWithoutUnderscores(s: string)
    requires AllDigits(s)
    ensures WithoutUnderscores(s) == s
  {
    if s != [] {
      AllDigitsWithoutUnderscores(s[1..]);
    }
  }

  /**
   * `float(g)` for text made of digits and dots, in hundredths (further
   * fraction digits are dropped): at least one digit and at most one dot.
   */
  function ParseDecimal(s: string): Option<int> {
    var i := IndexOf(s, '.');
    var whole := s[..i];
    var fraction := if i < |s| then s[i + 1..] else "";
    if AllDigits(whole) && AllDigits(fraction) && |whole| + |fraction| > 0 then
      var two := (fraction + "00")[..2];
      Some(DigitsValue(whole) * 100 + DigitsValue(two) as int)
    else None
  }

  /** Python's `float(s)` on decimal text: surrounding whitespace, a sign, a decimal. */
  function ParseFloat(s: string): Option<int> {
    var t := Strip(s);
    var negative := |t| > 0 && t[0] == '-';
    var body := if |t| > 0 && (t[0] == '-' || t[0] == '+') then t[1..] else t;
    match ParseDecimal(body)
    case Some(v) => Some(if negative then -v else v as int)
    case None => None
  }

  /** `count / total * 100` in hundredths of a percent. */
  function Percent(count: int, total: int): int
    requires total != 0
  {
    (count * 10000) / total
  }

  /** A part of a whole is between 0% and 100%. */
  lemma PercentBounds(count: int, total: int)
    requires 0 <= count <= total && total > 0
    ensures 0 <= Percent(count, total) <= 10000
  {
    var n := count * 10000;
    var q := n / total;
    assert n == q * total + n % total && 0 <= n % total < total;
    assert n <= 10000 * total;
  }


}
