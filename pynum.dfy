/**
 The two Python number builtins the adapters use: `round(x, 1)` and
 `float(s)` on a string. Numbers are exact reals here, not binary floats.
 */
module PyNum {
  import opened Wrappers
  import PyStr

  /**
   `round(x, 1)`: the nearest multiple of 0.1, ties to the even tenth (Python's
   rule), taken on the exact real rather than on a binary float.
   */
  function Round1(x: real): (r: real)
    ensures -0.05 <= r - x <= 0.05
  {
    var y := x * 10.0;
    var f := y.Floor;
    var d := y - f as real;
    var n := if d < 0.5 then f else if d > 0.5 then f + 1 else if f % 2 == 0 then f else f + 1;
    n as real / 10.0
  }

  /** A value that already has one decimal place is left alone. */
  lemma RoundTenths(n: int)
    ensures Round1(n as real / 10.0) == n as real / 10.0
  {
    var y := (n as real / 10.0) * 10.0;
    assert y == n as real;
    assert y.Floor == n;
  }

  predicate IsDigit(c: char) {
    '0' <= c <= '9'
  }

  predicate AllDigits(s: string) {
    forall i :: 0 <= i < |s| ==> IsDigit(s[i])
  }

  function DigitValue(c: char): (d: nat)
    requires IsDigit(c)
    ensures d < 10
  {
    c as int - '0' as int
  }

  function DigitChar(d: nat): (c: char)
    requires d < 10
    ensures IsDigit(c) && DigitValue(c) == d
  {
    ('0' as int + d) as char
  }

  /** The number a string of decimal digits denotes, most significant first. */
  function DigitsValue(s: string): nat
    requires AllDigits(s)
  {
    if s == [] then 0 else DigitsValue(s[..|s| - 1]) * 10 + DigitValue(s[|s| - 1])
  }

  function Pow10(n: nat): (p: nat)
    ensures p >= 1
  {
    if n == 0 then 1 else 10 * Pow10(n - 1)
  }

  /**
   An unsigned decimal: digits, optionally one `.` and more digits, with at
   least one digit in all (`"7"`, `"1.25"`, `"3."` and `".5"` are accepted).
   */
  function ParseUnsigned(u: string): (r: Option<real>)
    ensures r.Some? ==> r.value >= 0.0
  {
    var parts := PyStr.Split(u, '.');
    if |parts| == 1 then
      if u != [] && AllDigits(u) then Some(DigitsValue(u) as real) else None
    else if |parts| == 2 then
      var whole, frac := parts[0], parts[1];
      if AllDigits(whole) && AllDigits(frac) && |whole| + |frac| >= 1 then
        Some(DecimalValue(whole, frac))
      else None
    else None
  }

  /**
   `float(s)` on the decimal forms: surrounding whitespace is stripped, an
   optional sign is read, and anything else is rejected (Python raises
   `ValueError`), which `None` stands for.
   */
  function ParseFloat(s: string): (r: Option<real>)
    ensures PyStr.Strip(s) == [] ==> r.None?
  {
    var t := PyStr.Strip(s);
    if t == [] then None
    else if t[0] == '-' then
      match ParseUnsigned(t[1..])
      case None => None
      case Some(v) => Some(-v)
    else if t[0] == '+' then ParseUnsigned(t[1..])
    else ParseUnsigned(t)
  }

  /** Decimal digits of `n`, as `str(n)` writes them. */
  function NatToString(n: nat): (s: string)
    ensures |s| >= 1 && AllDigits(s)
  {
    if n < 10 then [DigitChar(n)] else NatToString(n / 10) + [DigitChar(n % 10)]
  }

  lemma {:induction false} DigitsOfNatToString(n: nat)
    ensures DigitsValue(NatToString(n)) == n
  {
    var s := NatToString(n);
    if n < 10 {
      assert s[..0] == [];
    } else {
      DigitsOfNatToString(n / 10);
      assert s[..|s| - 1] == NatToString(n / 10);
    }
  }

  lemma UnsignedOfNatToString(n: nat)
    ensures ParseUnsigned(NatToString(n)) == Some(n as real)
  {
    DigitsOfNatToString(n);
    UnsignedDigits(NatToString(n));
  }

  /** `float(str(n)) == n`, also for `str(-n)`. */
  lemma ParseFloatOfNatToString(n: nat)
    ensures ParseFloat(NatToString(n)) == Some(n as real)
    ensures ParseFloat("-" + NatToString(n)) == Some(-(n as real))
  {
    var s := NatToString(n);
    UnsignedOfNatToString(n);
    DigitsUnspaced(s);
    assert ("-" + s)[1..] == s;
  }

  lemma DigitsUnspaced(s: string)
    requires |s| >= 1 && AllDigits(s)
    ensures PyStr.Strip(s) == s && PyStr.Strip("-" + s) == "-" + s
  {
    assert IsDigit(s[0]) && IsDigit(s[|s| - 1]);
    StripUnspaced(s);
    StripUnspaced("-" + s);
  }

  /** A string that neither starts nor ends with whitespace is its own strip. */
  lemma StripUnspaced(s: string)
    requires |s| >= 1 && !PyStr.IsSpace(s[0]) && !PyStr.IsSpace(s[|s| - 1])
    ensures PyStr.Strip(s) == s
  {
    assert PyStr.LeadingSpaces(s) == 0;
    assert PyStr.TrailingSpaces(s) == 0;
  }

  /** The value a decimal `whole.frac` denotes. */
  function DecimalValue(whole: string, frac: string): real
    requires AllDigits(whole) && AllDigits(frac)
  {
    DigitsValue(whole) as real + DigitsValue(frac) as real / Pow10(|frac|) as real
  }

  /** The digits before the point are the integer part of the decimal. */
  lemma DecimalBounds(whole: string, frac: string)
    requires AllDigits(whole) && AllDigits(frac)
    ensures DigitsValue(whole) as real <= DecimalValue(whole, frac) < DigitsValue(whole) as real + 1.0
  {
    FracBelowOne(frac);
    QuotientBelowOne(DigitsValue(frac) as real, Pow10(|frac|) as real);
  }

  lemma QuotientBelowOne(d: real, p: real)
    requires 0.0 <= d < p
    ensures 0.0 <= d / p < 1.0
  {
    var q := d / p;
    assert q * p == d;
    if q >= 1.0 {
      assert false;
    }
  }

  /** `k` digits denote less than `10^k`. */
  lemma {:induction false} FracBelowOne(frac: string)
    requires AllDigits(frac)
    ensures DigitsValue(frac) < Pow10(|frac|)
  {
    if frac != [] {
      FracBelowOne(frac[..|frac| - 1]);
    }
  }

  /** `whole.frac` parses as the decimal it denotes. */
  lemma UnsignedDecimal(whole: string, frac: string)
    requires AllDigits(whole) && AllDigits(frac) && |whole| + |frac| >= 1
    ensures ParseUnsigned(whole + "." + frac) == Some(DecimalValue(whole, frac))
  {
    assert forall k :: 0 <= k < |whole| ==> whole[k] != '.';
    assert forall k :: 0 <= k < |frac| ==> frac[k] != '.';
    PyStr.SplitJoin([whole, frac], '.');
    assert PyStr.Join([whole, frac], '.') == whole + "." + frac;
  }

  /** `float("whole.frac")` and `float("+whole.frac")` are that decimal, `float("-whole.frac")` its negation. */
  lemma ParseFloatDecimal(whole: string, frac: string)
    requires AllDigits(whole) && AllDigits(frac) && |whole| + |frac| >= 1
    ensures ParseFloat(whole + "." + frac) == Some(DecimalValue(whole, frac))
    ensures ParseFloat("-" + (whole + "." + frac)).Some?
    ensures ParseFloat("-" + (whole + "." + frac)).value == -DecimalValue(whole, frac)
    ensures ParseFloat("+" + (whole + "." + frac)) == Some(DecimalValue(whole, frac))
  {
    var s := whole + "." + frac;
    UnsignedDecimal(whole, frac);
    assert s[0] == '.' || IsDigit(s[0]);
    assert s[|s| - 1] == '.' || IsDigit(s[|s| - 1]);
    ParseUnsignedForm(s, DecimalValue(whole, frac));
  }

  /** An unsigned form without surrounding whitespace, bare or behind a sign. */
  lemma ParseUnsignedForm(s: string, v: real)
    requires |s| >= 1 && !PyStr.IsSpace(s[0]) && s[0] != '-' && s[0] != '+' && !PyStr.IsSpace(s[|s| - 1])
    requires ParseUnsigned(s) == Some(v)
    ensures ParseFloat(s) == Some(v)
    ensures ParseFloat("-" + s) == Some(-v)
    ensures ParseFloat("+" + s) == Some(v)
  {
    StripUnspaced(s);
    SignedUnspaced('-', s);
    SignedUnspaced('+', s);
  }

  /** A sign in front of a string without trailing whitespace is kept by the strip. */
  lemma SignedUnspaced(sign: char, s: string)
    requires sign == '-' || sign == '+'
    requires |s| >= 1 && !PyStr.IsSpace(s[|s| - 1])
    ensures PyStr.Strip([sign] + s) == [sign] + s && ([sign] + s)[1..] == s
  {
    var t := [sign] + s;
    assert t[|t| - 1] == s[|s| - 1];
    StripUnspaced(t);
  }

  /**
   The strings `ParseUnsigned` accepts: a non-empty run of digits, or digits
   on both sides of a single point with at least one digit in all.
   */
  predicate IsDecimalForm(u: string) {
    || (u != [] && AllDigits(u))
    || (exists i :: 0 <= i < |u| && u[i] == '.' && |u| >= 2 && AllDigits(u[..i]) && AllDigits(u[i + 1..]))
  }

  /** A decimal form consists of digits and points only. */
  lemma DecimalFormChars(u: string)
    requires IsDecimalForm(u)
    ensures |u| >= 1
    ensures forall k :: 0 <= k < |u| ==> IsDigit(u[k]) || u[k] == '.'
  {
    if !(u != [] && AllDigits(u)) {
      var i :| 0 <= i < |u| && u[i] == '.' && |u| >= 2 && AllDigits(u[..i]) && AllDigits(u[i + 1..]);
      forall k | 0 <= k < |u|
        ensures IsDigit(u[k]) || u[k] == '.'
      {
        if k < i {
          assert u[k] == u[..i][k];
        } else if k > i {
          assert u[k] == u[i + 1..][k - i - 1];
        }
      }
    }
  }

  /** `ParseUnsigned` accepts exactly the decimal forms. */
  lemma ParseUnsignedAccepts(u: string)
    ensures ParseUnsigned(u).Some? <==> IsDecimalForm(u)
  {
    if ParseUnsigned(u).Some? {
      AcceptedIsDecimalForm(u);
    }
    if IsDecimalForm(u) {
      DecimalFormAccepted(u);
    }
  }

  lemma AcceptedIsDecimalForm(u: string)
    requires ParseUnsigned(u).Some?
    ensures IsDecimalForm(u)
  {
    var parts := PyStr.Split(u, '.');
    PyStr.JoinSplit(u, '.');
    if |parts| == 2 {
      var whole, frac := parts[0], parts[1];
      assert parts[1..] == [frac];
      assert u == whole + "." + frac;
      var i := |whole|;
      assert u[i] == '.' && u[..i] == whole && u[i + 1..] == frac;
    }
  }

  lemma DecimalFormAccepted(u: string)
    requires IsDecimalForm(u)
    ensures ParseUnsigned(u).Some?
  {
    if u != [] && AllDigits(u) {
      UnsignedDigits(u);
    } else {
      var i :| 0 <= i < |u| && u[i] == '.' && |u| >= 2 && AllDigits(u[..i]) && AllDigits(u[i + 1..]);
      var whole, frac := u[..i], u[i + 1..];
      assert u == whole + "." + frac;
      UnsignedDecimal(whole, frac);
    }
  }

  /** A non-empty digit string parses to the number it denotes. */
  lemma UnsignedDigits(u: string)
    requires u != [] && AllDigits(u)
    ensures ParseUnsigned(u) == Some(DigitsValue(u) as real)
  {
    assert forall k :: 0 <= k < |u| ==> u[k] != '.';
    PyStr.SplitJoin([u], '.');
  }

  /** `float(s)` accepts exactly a stripped decimal form, bare or behind one sign. */
  lemma ParseFloatAccepts(s: string)
    ensures var t := PyStr.Strip(s);
      ParseFloat(s).Some? <==>
        IsDecimalForm(t) || (|t| >= 1 && (t[0] == '-' || t[0] == '+') && IsDecimalForm(t[1..]))
  {
    var t := PyStr.Strip(s);
    if t != [] {
      ParseUnsignedAccepts(t);
      ParseUnsignedAccepts(t[1..]);
      if IsDecimalForm(t) {
        DecimalFormChars(t);
      }
    }
  }

  /**
   What `float(s)` accepts is made of digits and points only, after stripping
   and an optional leading sign; a word such as `"None"` is rejected.
   */
  lemma ParseFloatChars(s: string)
    requires ParseFloat(s).Some?
    ensures var t := PyStr.Strip(s);
      && t != []
      && forall k :: 0 <= k < |t| ==> IsDigit(t[k]) || t[k] == '.' || (k == 0 && (t[k] == '-' || t[k] == '+'))
  {
    var t := PyStr.Strip(s);
    ParseFloatAccepts(s);
    if IsDecimalForm(t) {
      DecimalFormChars(t);
    } else {
      var u := t[1..];
      DecimalFormChars(u);
      forall k | 1 <= k < |t|
        ensures IsDigit(t[k]) || t[k] == '.'
      {
        assert t[k] == u[k - 1];
      }
    }
  }

  /** Alpha Vantage's missing-value text is not a number. */
  lemma ParseFloatRejectsNone(s: string)
    requires s == "None"
    ensures ParseFloat(s) == None
  {
    assert !PyStr.IsSpace(s[0]) && !PyStr.IsSpace(s[|s| - 1]);
    StripUnspaced(s);
    assert !IsDigit(s[0]) && s[0] != '.' && s[0] != '-' && s[0] != '+';
    if ParseFloat(s).Some? {
      ParseFloatChars(s);
      assert false;
    }
  }

  /** `"1.52"` denotes 1.52. */
  lemma DecimalExample(whole: string, frac: string)
    requires whole == "1" && frac == "52"
    ensures DecimalValue(whole, frac) == 1.52
  {
    var head := frac[..1];
    assert head == "5" && head[..0] == [];
    assert DigitsValue(head) == 5;
    assert DigitsValue(frac) == 52;
    assert DigitsValue(whole) == 1;
    assert Pow10(|frac|) == 100;
  }

  /** Alpha Vantage's usual PEG format. */
  lemma ParseFloatExample(whole: string, frac: string)
    requires whole == "1" && frac == "52"
    ensures ParseFloat(whole + "." + frac) == Some(1.52)
  {
    DecimalExample(whole, frac);
    ParseFloatDecimal(whole, frac);
  }
}
