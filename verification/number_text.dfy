/**
 * Numbers as text, the way JavaScript turns them into strings and back:
 * `toFixed(2)` for display, `parseFloat` for the amount typed into the form
 * and `Number(...)` for the amount posted to the server. Amounts are exact
 * reals; exponent notation, "Infinity" and the radix prefixes are not part
 * of this model.
 */
module NumberText {
  import opened Common

  predicate IsDigit(c: char) { '0' <= c <= '9' }

  predicate AllDigits(s: string) { forall i :: 0 <= i < |s| ==> IsDigit(s[i]) }

  function DigitChar(d: nat): (c: char)
    requires d < 10
    ensures IsDigit(c) && c as int - '0' as int == d
  {
    ('0' as int + d) as char
  }

  function DigitValue(c: char): (d: nat)
    requires IsDigit(c)
    ensures d < 10 && DigitChar(d) == c
  {
    c as int - '0' as int
  }

  /** The number a string of decimal digits denotes (0 for the empty string). */
  function Value(s: string): nat
    requires AllDigits(s)
  {
    if s == [] then 0 else 10 * Value(s[..|s| - 1]) + DigitValue(s[|s| - 1])
  }

  /** The decimal digits of n, without leading zeros. */
  function NatText(n: nat): (r: string)
    ensures r != [] && AllDigits(r)
    ensures |r| > 1 ==> r[0] != '0'
  {
    if n < 10 then [DigitChar(n)] else NatText(n / 10) + [DigitChar(n % 10)]
  }

  /** Reading the digits of n back gives n. */
  lemma {:induction false} NatTextValue(n: nat)
    ensures Value(NatText(n)) == n
  {
    if n >= 10 {
      var a := NatText(n / 10);
      NatTextValue(n / 10);
      assert (a + [DigitChar(n % 10)])[..|a|] == a;
    }
  }

  /**
   * The white space JavaScript skips around a numeric string: tab, line
   * feed, vertical tab, form feed, carriage return, the space separators,
   * the line and paragraph separators and the byte-order mark.
   */
  predicate IsSpace(c: char)
  {
    c == '\t' || c == '\n' || c == '\U{000B}' || c == '\U{000C}' || c == '\r' || c == ' ' ||
    c == '\U{00A0}' || c == '\U{1680}' || ('\U{2000}' <= c <= '\U{200A}') ||
    c == '\U{2028}' || c == '\U{2029}' || c == '\U{202F}' || c == '\U{205F}' ||
    c == '\U{3000}' || c == '\U{FEFF}'
  }

  /** The string without its leading white space. */
  function TrimStart(s: string): (r: string)
    ensures |r| <= |s| && r == s[|s| - |r|..]
    ensures r != [] ==> !IsSpace(r[0])
    ensures forall i :: 0 <= i < |s| - |r| ==> IsSpace(s[i])
  {
    if s == [] || !IsSpace(s[0]) then s else TrimStart(s[1..])
  }

  /** The string without its trailing white space. */
  function TrimEnd(s: string): (r: string)
    ensures |r| <= |s| && r == s[..|r|]
    ensures r != [] ==> !IsSpace(r[|r| - 1])
    ensures forall i :: |r| <= i < |s| ==> IsSpace(s[i])
  {
    if s == [] || !IsSpace(s[|s| - 1]) then s else TrimEnd(s[..|s| - 1])
  }

  /** The longest run of digits at the front of s. */
  function LeadingDigits(s: string): (r: string)
    ensures |r| <= |s| && AllDigits(r) && r == s[..|r|]
    ensures |r| < |s| ==> !IsDigit(s[|r|])
  {
    if s == [] || !IsDigit(s[0]) then [] else [s[0]] + LeadingDigits(s[1..])
  }

  /** A digit string followed by a non-digit, or by nothing, has exactly that string as its leading digits. */
  lemma {:induction false} LeadingDigitsOf(a: string, b: string)
    requires AllDigits(a)
    requires b != [] ==> !IsDigit(b[0])
    ensures LeadingDigits(a + b) == a
  {
    if a != [] {
      assert (a + b)[1..] == a[1..] + b;
      LeadingDigitsOf(a[1..], b);
    }
  }

  /** A decimal literal found at the front of a string: its value and how many characters it spans. */
  datatype Scan = Scan(value: real, length: nat)

  /** The value of the digits after a decimal point: each digit is worth a tenth of the one before. */
  function Fraction(fp: string): (r: real)
    requires AllDigits(fp)
    ensures 0.0 <= r < 1.0
  {
    if fp == [] then 0.0 else (DigitValue(fp[0]) as real + Fraction(fp[1..])) / 10.0
  }

  /**
   * The longest prefix of u of the form digits ('.' digits?)? or '.' digits,
   * which must hold at least one digit.
   */
  function Unsigned(u: string): (r: Option<Scan>)
    ensures r.Some? ==> 0 < r.value.length <= |u| && r.value.value >= 0.0
  {
    var ip := LeadingDigits(u);
    var dot := |ip| < |u| && u[|ip|] == '.';
    var fp := if dot then LeadingDigits(u[|ip| + 1..]) else [];
    if ip == [] && fp == [] then None
    else
      Some(Scan(Value(ip) as real + Fraction(fp),
                |ip| + (if dot then 1 + |fp| else 0)))
  }

  /** An unsigned literal after a one-character sign: negated for '-', one character longer. */
  function Signed(minus: bool, r: Option<Scan>): Option<Scan>
  {
    match r
    case None => None
    case Some(sc) => Some(Scan(if minus then -sc.value else sc.value, 1 + sc.length))
  }

  /** An optional sign followed by an unsigned literal. */
  function ScanDecimal(t: string): (r: Option<Scan>)
    ensures r.Some? ==> 0 < r.value.length <= |t|
  {
    if |t| > 0 && (t[0] == '-' || t[0] == '+') then Signed(t[0] == '-', Unsigned(t[1..]))
    else Unsigned(t)
  }

  /** Without a sign the literal is the unsigned one. */
  lemma ScanPlain(u: string)
    requires u != [] && IsDigit(u[0])
    ensures ScanDecimal(u) == Unsigned(u)
  {
  }

  /** A minus sign negates the unsigned literal after it and adds one character. */
  lemma ScanMinus(t: string, sc: Scan)
    requires t != [] && t[0] == '-' && Unsigned(t[1..]) == Some(sc)
    ensures ScanDecimal(t) == Some(Scan(-sc.value, 1 + sc.length))
  {
  }

  /** `parseFloat(s)`: the decimal literal at the front of s after its white space, or NaN (None). */
  function ParseFloat(s: string): (r: Option<real>)
    ensures r.Some? <==> ScanDecimal(TrimStart(s)).Some?
  {
    match ScanDecimal(TrimStart(s))
    case None => None
    case Some(sc) => Some(sc.value)
  }

  /** `Number(s)` for a string: blank is 0, otherwise the whole trimmed text must be one decimal literal. */
  function StringToNumber(s: string): (r: Option<real>)
    ensures TrimEnd(TrimStart(s)) == [] ==> r == Some(0.0)
  {
    var t := TrimEnd(TrimStart(s));
    if t == [] then Some(0.0)
    else
      match ScanDecimal(t)
      case Some(sc) => if sc.length == |t| then Some(sc.value) else None
      case None => None
  }

  /** A number's cents, rounded half up: the integer n with n/100 nearest to x, the larger one on a tie. */
  function Cents(x: real): (n: int)
    requires x >= 0.0
    ensures n >= 0
    ensures n as real - 0.5 <= 100.0 * x < n as real + 0.5
  {
    (100.0 * x + 0.5).Floor
  }

  /** The magnitude of x. */
  function Abs(x: real): (a: real)
    ensures a >= 0.0 && (a == x || a == -x)
  {
    if x < 0.0 then -x else x
  }

  /** A count of cents as a number, negated when neg holds. */
  function CentsValue(neg: bool, c: nat): real
  {
    if neg then -(c as real / 100.0) else c as real / 100.0
  }

  /** The value toFixed(2) shows: x rounded to whole cents, half away from zero. */
  function Rounded2(x: real): real
  {
    CentsValue(x < 0.0, Cents(Abs(x)))
  }

  /** Rounding to cents moves a number by at most half a cent, and keeps its sign. */
  lemma RoundedClose(x: real)
    ensures -0.005 <= Rounded2(x) - x <= 0.005
    ensures x >= 0.0 ==> Rounded2(x) >= 0.0
    ensures x < 0.0 ==> Rounded2(x) <= 0.0
  {
  }

  /** A whole number of cents is left unchanged by rounding. */
  lemma RoundedExact(n: int)
    ensures Rounded2(n as real / 100.0) == n as real / 100.0
  {
    var x := n as real / 100.0;
    var m := if n < 0 then -n else n;
    assert Abs(x) == m as real / 100.0;
    assert Cents(Abs(x)) == m;
  }

  /**
   * `x.toFixed(2)`: a minus sign when x is negative, the whole part of the
   * rounded magnitude, a point, and exactly two digits. This is JS's text
   * only for |x| < 10^21; for larger magnitudes JS falls back to exponent
   * notation, which the model does not write: it keeps plain digits.
   */
  function ToFixed2(x: real): string
  {
    SignText(x < 0.0) + FixedText(Cents(Abs(x)))
  }

  /** The minus sign, when neg holds. */
  function SignText(neg: bool): string { if neg then "-" else "" }

  /** A count of cents as text: the whole units, a point, and the two digits of the cents below a unit. */
  function FixedText(c: nat): string
  {
    NatText(c / 100) + "." + [DigitChar(c % 100 / 10), DigitChar(c % 100 % 10)]
  }

  /**
   * toFixed(2) text has exactly two digits after its point, digits before
   * it, and a leading minus sign exactly for negative numbers.
   */
  lemma FixedShape(x: real)
    ensures var r := ToFixed2(x);
      var w := |r| - 3 - (if x < 0.0 then 1 else 0);
      |r| >= 4 && (r[0] == '-' <==> x < 0.0) && w >= 1 &&
      AllDigits(r[|r| - w - 3..|r| - 3]) && r[|r| - 3] == '.' && AllDigits(r[|r| - 2..])
  {
    var c := Cents(Abs(x));
    var w := NatText(c / 100);
    var f := [DigitChar(c % 100 / 10), DigitChar(c % 100 % 10)];
    var r := ToFixed2(x);
    var k := if x < 0.0 then 1 else 0;
    assert r == SignText(x < 0.0) + w + "." + f;
    assert |r| == k + |w| + 3;
    assert r[k..k + |w|] == w;
    assert r[|r| - 2..] == f;
  }

  /** The two digits after the point read back as the cents below a whole unit. */
  lemma TwoDigits(c: nat)
    ensures AllDigits([DigitChar(c % 100 / 10), DigitChar(c % 100 % 10)])
    ensures Value([DigitChar(c % 100 / 10), DigitChar(c % 100 % 10)]) == c % 100
  {
    var a, b := c % 100 / 10, c % 100 % 10;
    var s := [DigitChar(a), DigitChar(b)];
    assert s[..1] == [DigitChar(a)];
    assert Value(s[..1]) == a by { assert s[..1][..0] == []; }
    assert Value(s) == 10 * a + b;
  }

  /** Two digits after a point are worth their two-digit number of hundredths. */
  lemma FractionTwo(a: nat, b: nat)
    requires a < 10 && b < 10
    ensures Fraction([DigitChar(a), DigitChar(b)]) == (10 * a + b) as real / 100.0
  {
    var f := [DigitChar(a), DigitChar(b)];
    assert f[1..] == [DigitChar(b)] && f[1..][1..] == [];
    assert DigitValue(DigitChar(a)) == a && DigitValue(DigitChar(b)) == b;
    assert Fraction(f[1..]) == b as real / 10.0;
  }

  /** The unsigned part of toFixed(2) scans as exactly the rounded magnitude, to its last character. */
  lemma {:induction false} ScanFixed(c: nat)
    ensures Unsigned(FixedText(c)) == Some(Scan(c as real / 100.0, |FixedText(c)|))
  {
    var w := NatText(c / 100);
    var f := [DigitChar(c % 100 / 10), DigitChar(c % 100 % 10)];
    var u := w + "." + f;
    assert u == w + ("." + f);
    LeadingDigitsOf(w, "." + f);
    assert LeadingDigits(u) == w;
    assert u[|w|] == '.';
    assert u[|w| + 1..] == f;
    TwoDigits(c);
    LeadingDigitsOf(f, []);
    assert f + [] == f;
    assert LeadingDigits(u[|w| + 1..]) == f;
    NatTextValue(c / 100);
    FractionTwo(c % 100 / 10, c % 100 % 10);
    assert c == 100 * (c / 100) + c % 100;
    assert (c / 100) as real + (c % 100) as real / 100.0 == c as real / 100.0;
  }

  /** Trimming leaves a string alone when its ends are not white space. */
  lemma TrimNothing(s: string)
    requires s != [] && !IsSpace(s[0]) && !IsSpace(s[|s| - 1])
    ensures TrimStart(s) == s && TrimEnd(s) == s && TrimEnd(TrimStart(s)) == s
  {
  }

  /** A literal after a minus sign scans negated and one character longer. */
  lemma MinusScan(u: string, v: real)
    requires Unsigned(u) == Some(Scan(v, |u|))
    ensures ScanDecimal(SignText(true) + u) == Some(Scan(-v, |SignText(true) + u|))
  {
    var t := SignText(true) + u;
    assert t[0] == '-' && t[1..] == u;
    ScanMinus(t, Scan(v, |u|));
  }

  /** A literal that starts with a digit scans as itself when no sign is written. */
  lemma PlainScan(u: string, v: real)
    requires u != [] && IsDigit(u[0]) && Unsigned(u) == Some(Scan(v, |u|))
    ensures ScanDecimal(SignText(false) + u) == Some(Scan(v, |SignText(false) + u|))
  {
    assert SignText(false) + u == u;
    ScanPlain(u);
  }

  /** A literal that starts with a digit scans the same way after an optional minus sign, negated by it. */
  lemma ScanSigned(neg: bool, u: string, v: real)
    requires u != [] && IsDigit(u[0]) && Unsigned(u) == Some(Scan(v, |u|))
    ensures ScanDecimal(SignText(neg) + u) == Some(Scan(if neg then -v else v, |SignText(neg) + u|))
  {
    if neg {
      MinusScan(u, v);
    } else {
      PlainScan(u, v);
    }
  }

  /** The text of a signed count of cents scans, to its end, as that many hundredths. */
  lemma ScanCents(neg: bool, c: nat)
    ensures ScanDecimal(SignText(neg) + FixedText(c)) == Some(Scan(CentsValue(neg, c), |SignText(neg) + FixedText(c)|))
  {
    var u := FixedText(c);
    ScanFixed(c);
    assert u[0] == NatText(c / 100)[0];
    ScanSigned(neg, u, c as real / 100.0);
  }

  /** The text of a signed count of cents starts with a minus sign or a digit and ends with a digit. */
  lemma CentsEnds(neg: bool, c: nat)
    ensures var r := SignText(neg) + FixedText(c);
      r != [] && !IsSpace(r[0]) && !IsSpace(r[|r| - 1])
  {
    var u := FixedText(c);
    assert u[0] == NatText(c / 100)[0];
    assert (SignText(neg) + u)[0] == (if neg then '-' else u[0]);
  }

  /** parseFloat reads the text of a signed count of cents back as that many hundredths. */
  lemma ParseCents(neg: bool, c: nat)
    ensures ParseFloat(SignText(neg) + FixedText(c)) == Some(CentsValue(neg, c))
  {
    CentsEnds(neg, c);
    TrimNothing(SignText(neg) + FixedText(c));
    ScanCents(neg, c);
  }

  /** Number reads the text of a signed count of cents back as that many hundredths. */
  lemma NumberCents(neg: bool, c: nat)
    ensures StringToNumber(SignText(neg) + FixedText(c)) == Some(CentsValue(neg, c))
  {
    CentsEnds(neg, c);
    TrimNothing(SignText(neg) + FixedText(c));
    ScanCents(neg, c);
  }

  /** Reading a toFixed(2) string with parseFloat gives the rounded number. */
  lemma ParseFixed(x: real)
    ensures ParseFloat(ToFixed2(x)) == Some(Rounded2(x))
  {
    var c := Cents(Abs(x));
    assert ToFixed2(x) == SignText(x < 0.0) + FixedText(c);
    ParseCents(x < 0.0, c);
  }

  /** Reading a toFixed(2) string with Number gives the rounded number. */
  lemma NumberFixed(x: real)
    ensures StringToNumber(ToFixed2(x)) == Some(Rounded2(x))
  {
    var c := Cents(Abs(x));
    assert ToFixed2(x) == SignText(x < 0.0) + FixedText(c);
    NumberCents(x < 0.0, c);
  }

  /** parseFloat reads the digits of a natural number back as that number. */
  lemma ParseNat(n: nat)
    ensures ParseFloat(NatText(n)) == Some(n as real)
  {
    var s := NatText(n);
    TrimNothing(s);
    LeadingDigitsOf(s, []);
    assert s + [] == s;
    NatTextValue(n);
    assert Unsigned(s) == Some(Scan(n as real, |s|));
    ScanPlain(s);
  }

  /** "12abc" scans as the two-character literal 12. */
  lemma Scan12abc()
    ensures ScanDecimal("12abc") == Some(Scan(12.0, 2))
  {
    LeadingDigitsOf("12", "abc");
    assert "12" + "abc" == "12abc";
    assert Value("12") == 12 by { assert "12"[..1] == "1"; assert "1"[..0] == ""; }
    assert Unsigned("12abc") == Some(Scan(12.0, 2));
    ScanPlain("12abc");
  }

  /** parseFloat stops at the first character that cannot continue the literal: "12abc" reads as 12. */
  lemma ParseFloatStops()
    ensures ParseFloat("12abc") == Some(12.0)
  {
    TrimNothing("12abc");
    Scan12abc();
  }

  /** Number needs the whole text to be the literal: "12abc" is NaN. */
  lemma NumberWhole()
    ensures StringToNumber("12abc") == None
  {
    TrimNothing("12abc");
    Scan12abc();
  }

  /** Text with no digit before any other character is NaN to parseFloat. */
  lemma ParseFloatNaN()
    ensures ParseFloat("abc") == None
  {
    TrimNothing("abc");
    assert LeadingDigits("abc") == [];
    assert "abc"[0..] == "abc";
  }
}
