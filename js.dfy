/** JavaScript values and the built-in string-to-number conversions the site's code relies on. */
module Js {

  datatype Option<+T> = None | Some(value: T)

  /** A JavaScript number: a finite value (binary rounding is not modelled), NaN or an infinity. */
  datatype Num = Finite(v: real) | NaN | Infinity | NegInfinity

  /** ToBoolean on a number: 0, -0 and NaN are falsy, everything else truthy. */
  predicate Truthy(n: Num) {
    match n
    case Finite(v) => v != 0.0
    case NaN => false
    case _ => true
  }

  /** `n || d` on numbers: the default replaces exactly the falsy values. */
  function Or(n: Num, d: Num): (r: Num)
    ensures Truthy(n) ==> r == n
    ensures !Truthy(n) ==> r == d
  {
    if Truthy(n) then n else d
  }

  /** `n * k` for a finite factor k (IEEE rules for NaN and the infinities). */
  function Times(n: Num, k: real): Num {
    match n
    case Finite(v) => Finite(v * k)
    case NaN => NaN
    case Infinity => if k > 0.0 then Infinity else if k < 0.0 then NegInfinity else NaN
    case NegInfinity => if k > 0.0 then NegInfinity else if k < 0.0 then Infinity else NaN
  }

  /** `a / b` on finite numbers: division by zero gives NaN for 0/0 and a signed infinity otherwise. */
  function Divide(a: real, b: real): (r: Num)
    ensures b != 0.0 ==> r == Finite(a / b)
    ensures b == 0.0 ==> !r.Finite?
  {
    if b != 0.0 then Finite(a / b)
    else if a == 0.0 then NaN
    else if a > 0.0 then Infinity
    else NegInfinity
  }

  predicate IsDigit(c: char) { '0' <= c <= '9' }

  /** `[\d.]`: a digit or a decimal point */
  predicate IsDecimalChar(c: char) { IsDigit(c) || c == '.' }

  /**
   * ECMAScript WhiteSpace and LineTerminator code points: the class `\s` of a
   * regular expression and the characters String.prototype.trim removes.
   */
  predicate IsWhiteSpace(c: char) {
    || c == '\t' || c == '\n' || c == '\U{B}' || c == '\U{C}' || c == '\r' || c == ' '
    || c == '\U{A0}' || c == '\U{1680}' || ('\U{2000}' <= c <= '\U{200A}')
    || c == '\U{2028}' || c == '\U{2029}' || c == '\U{202F}' || c == '\U{205F}'
    || c == '\U{3000}' || c == '\U{FEFF}'
  }

  predicate AllDigits(s: string) {
    forall i | 0 <= i < |s| :: IsDigit(s[i])
  }

  function DigitValue(c: char): (d: nat)
    requires IsDigit(c)
    ensures d < 10
  {
    (c as int) - ('0' as int)
  }

  /** The decimal value of a digit string (what parseInt gives for `\d+`). */
  function DigitsValue(s: string): nat
    requires AllDigits(s)
    decreases |s|
  {
    if s == [] then 0 else 10 * DigitsValue(s[..|s| - 1]) + DigitValue(s[|s| - 1])
  }

  function Pow10(n: nat): (r: nat)
    ensures r >= 1
  {
    if n == 0 then 1 else 10 * Pow10(n - 1)
  }

  /** Index just past the run of digits starting at i. */
  function DigitsEnd(s: string, i: nat): (j: nat)
    requires i <= |s|
    ensures i <= j <= |s|
    ensures j < |s| ==> !IsDigit(s[j])
    decreases |s| - i
  {
    if i < |s| && IsDigit(s[i]) then DigitsEnd(s, i + 1) else i
  }

  /** Index just past the run of white space starting at i. */
  function SpaceEnd(s: string, i: nat): (j: nat)
    requires i <= |s|
    ensures i <= j <= |s|
    ensures j < |s| ==> !IsWhiteSpace(s[j])
    decreases |s| - i
  {
    if i < |s| && IsWhiteSpace(s[i]) then SpaceEnd(s, i + 1) else i
  }

  /** Index just past the run of digits and dots starting at i. */
  function DecimalEnd(s: string, i: nat): (j: nat)
    requires i <= |s|
    ensures i <= j <= |s|
    ensures j < |s| ==> !IsDecimalChar(s[j])
    decreases |s| - i
  {
    if i < |s| && IsDecimalChar(s[i]) then DecimalEnd(s, i + 1) else i
  }

  /** Every character of a run satisfies its class. */
  lemma DigitsEndAll(s: string, i: nat)
    requires i <= |s|
    ensures forall k | i <= k < DigitsEnd(s, i) :: IsDigit(s[k])
    ensures AllDigits(s[i..DigitsEnd(s, i)])
    decreases |s| - i
  {
    if i < |s| && IsDigit(s[i]) {
      DigitsEndAll(s, i + 1);
    }
    assert forall k | 0 <= k < DigitsEnd(s, i) - i :: s[i..DigitsEnd(s, i)][k] == s[i + k];
  }

  lemma SpaceEndAll(s: string, i: nat)
    requires i <= |s|
    ensures forall k | i <= k < SpaceEnd(s, i) :: IsWhiteSpace(s[k])
    decreases |s| - i
  {
    if i < |s| && IsWhiteSpace(s[i]) {
      SpaceEndAll(s, i + 1);
    }
  }

  lemma DecimalEndAll(s: string, i: nat)
    requires i <= |s|
    ensures forall k | i <= k < DecimalEnd(s, i) :: IsDecimalChar(s[k])
    decreases |s| - i
  {
    if i < |s| && IsDecimalChar(s[i]) {
      DecimalEndAll(s, i + 1);
    }
  }

  /** A run is determined by where it stops. */
  lemma {:induction false} DigitsEndAt(s: string, i: nat, j: nat)
    requires i <= j <= |s|
    requires forall k | i <= k < j :: IsDigit(s[k])
    requires j < |s| ==> !IsDigit(s[j])
    ensures DigitsEnd(s, i) == j
    decreases j - i
  {
    if i < j {
      DigitsEndAt(s, i + 1, j);
    }
  }

  lemma {:induction false} SpaceEndAt(s: string, i: nat, j: nat)
    requires i <= j <= |s|
    requires forall k | i <= k < j :: IsWhiteSpace(s[k])
    requires j < |s| ==> !IsWhiteSpace(s[j])
    ensures SpaceEnd(s, i) == j
    decreases j - i
  {
    if i < j {
      SpaceEndAt(s, i + 1, j);
    }
  }

  lemma {:induction false} DecimalEndAt(s: string, i: nat, j: nat)
    requires i <= j <= |s|
    requires forall k | i <= k < j :: IsDecimalChar(s[k])
    requires j < |s| ==> !IsDecimalChar(s[j])
    ensures DecimalEnd(s, i) == j
    decreases j - i
  {
    if i < j {
      DecimalEndAt(s, i + 1, j);
    }
  }

  /** The digit run of d, placed between x and a y that does not start with a digit. */
  lemma DigitsEndIn(x: string, d: string, y: string)
    requires AllDigits(d) && (y != [] ==> !IsDigit(y[0]))
    ensures DigitsEnd(x + d + y, |x|) == |x| + |d|
  {
    var s := x + d + y;
    assert forall k | |x| <= k < |x| + |d| :: s[k] == d[k - |x|];
    DigitsEndAt(s, |x|, |x| + |d|);
  }

  lemma SpaceEndIn(x: string, w: string, y: string)
    requires (forall k | 0 <= k < |w| :: IsWhiteSpace(w[k])) && (y != [] ==> !IsWhiteSpace(y[0]))
    ensures SpaceEnd(x + w + y, |x|) == |x| + |w|
  {
    var s := x + w + y;
    assert forall k | |x| <= k < |x| + |w| :: s[k] == w[k - |x|];
    SpaceEndAt(s, |x|, |x| + |w|);
  }

  lemma DecimalEndIn(x: string, d: string, y: string)
    requires (forall k | 0 <= k < |d| :: IsDecimalChar(d[k])) && (y != [] ==> !IsDecimalChar(y[0]))
    ensures DecimalEnd(x + d + y, |x|) == |x| + |d|
  {
    var s := x + d + y;
    assert forall k | |x| <= k < |x| + |d| :: s[k] == d[k - |x|];
    DecimalEndAt(s, |x|, |x| + |d|);
  }

  /** Every character of s is white space (so is the empty string). */
  predicate AllWhiteSpace(s: string) {
    forall k | 0 <= k < |s| :: IsWhiteSpace(s[k])
  }

  /** String.prototype.trim */
  function Trim(s: string): (t: string)
    ensures |t| <= |s|
    ensures t != [] ==> !IsWhiteSpace(t[0]) && !IsWhiteSpace(t[|t| - 1])
    ensures AllWhiteSpace(s) <==> t == []
  {
    var start := SpaceEnd(s, 0);
    SpaceEndAll(s, 0);
    if start == |s| then [] else s[start..TrimmedEnd(s, |s|, start)]
  }

  /** What trim keeps is a slice of s, with only white space before it and after it. */
  lemma TrimSlice(s: string)
    ensures exists i, j | 0 <= i <= j <= |s| :: Trim(s) == s[i..j] && AllWhiteSpace(s[..i]) && AllWhiteSpace(s[j..])
  {
    var start := SpaceEnd(s, 0);
    SpaceEndAll(s, 0);
    assert AllWhiteSpace(s[..start]);
    if start == |s| {
      assert Trim(s) == s[|s|..|s|] && AllWhiteSpace(s[|s|..]);
    } else {
      var end := TrimmedEnd(s, |s|, start);
      assert Trim(s) == s[start..end] && AllWhiteSpace(s[end..]);
    }
  }

  /** The end of s[..n] once trailing white space is dropped, never below lo. */
  function TrimmedEnd(s: string, n: nat, lo: nat): (e: nat)
    requires lo < n <= |s|
    requires !IsWhiteSpace(s[lo])
    ensures lo < e <= n
    ensures !IsWhiteSpace(s[e - 1])
    ensures forall k | e <= k < n :: IsWhiteSpace(s[k])
    decreases n
  {
    if IsWhiteSpace(s[n - 1]) then TrimmedEnd(s, n - 1, lo) else n
  }

  /** A mantissa m scaled by 10 to the power e. */
  function Scale(m: real, e: int): real {
    if e >= 0 then m * (Pow10(e) as real) else m / (Pow10(-e) as real)
  }

  /** The value of an exponent part `[eE][+-]?\d+` starting at i, or 0 when there is none. */
  function Exponent(u: string, i: nat): int
    requires i <= |u|
  {
    if i < |u| && (u[i] == 'e' || u[i] == 'E') then
      var signed := i + 1 < |u| && (u[i + 1] == '+' || u[i + 1] == '-');
      var start := if signed then i + 2 else i + 1;
      var end := DigitsEnd(u, start);
      DigitsEndAll(u, start);
      if end == start then 0
      else
        var v: int := DigitsValue(u[start..end]);
        if signed && u[i + 1] == '-' then -v else v
    else 0
  }

  /**
   * parseFloat: after leading white space, the longest prefix that reads as a
   * signed decimal literal (or Infinity); NaN when there is no such prefix.
   */
  function ParseFloat(s: string): Num {
    var t := s[SpaceEnd(s, 0)..];
    var neg := |t| > 0 && t[0] == '-';
    var u := if |t| > 0 && (t[0] == '-' || t[0] == '+') then t[1..] else t;
    if |u| >= 8 && u[..8] == "Infinity" then (if neg then NegInfinity else Infinity)
    else
      var intEnd := DigitsEnd(u, 0);
      var hasDot := intEnd < |u| && u[intEnd] == '.';
      var fracEnd := if hasDot then DigitsEnd(u, intEnd + 1) else intEnd;
      var fraction := if hasDot then u[intEnd + 1..fracEnd] else "";
      DigitsEndAll(u, 0);
      DigitsEndAll(u, if hasDot then intEnd + 1 else 0);
      if intEnd == 0 && fraction == [] then NaN
      else
        var mantissa := DecimalValue(u[..intEnd], fraction);
        var magnitude := Scale(mantissa, Exponent(u, fracEnd));
        Finite(if neg then -magnitude else magnitude)
  }

  /** The value of `ip.fp` for digit strings ip and fp. */
  function DecimalValue(ip: string, fp: string): real
    requires AllDigits(ip) && AllDigits(fp)
  {
    (DigitsValue(ip) as real) + (DigitsValue(fp) as real) / (Pow10(|fp|) as real)
  }

  /** The text `ip` or `ip.fp` of a decimal number. */
  function DecimalText(ip: string, fp: string): string {
    if fp == [] then ip else ip + "." + fp
  }

  /** parseFloat reads back the decimal text of a number. */
  lemma ParseFloatDecimal(ip: string, fp: string)
    requires AllDigits(ip) && AllDigits(fp) && ip != []
    ensures ParseFloat(DecimalText(ip, fp)) == Finite(DecimalValue(ip, fp))
  {
    var s := DecimalText(ip, fp);
    SpaceEndAt(s, 0, 0);
    assert s[0..] == s;
    DigitsEndAt(s, 0, |ip|);
    assert s[..|ip|] == ip;
    if fp == [] {
      assert DecimalValue(ip, fp) == DigitsValue(ip) as real;
    } else {
      DigitsEndAt(s, |ip| + 1, |s|);
      assert s[|ip| + 1..|s|] == fp;
    }
  }

  /** parseFloat gives NaN when no digit follows the white space and sign. */
  lemma ParseFloatNoDigits(s: string)
    requires forall k | 0 <= k < |s| :: !IsDigit(s[k]) && s[k] != 'I'
    ensures ParseFloat(s) == NaN
  {
    var t := s[SpaceEnd(s, 0)..];
    var u := if |t| > 0 && (t[0] == '-' || t[0] == '+') then t[1..] else t;
    assert forall k | 0 <= k < |u| :: !IsDigit(u[k]) && u[k] != 'I';
    DigitsEndAt(u, 0, 0);
    if 0 < |u| && u[0] == '.' {
      DigitsEndAt(u, 1, 1);
    }
  }
}
