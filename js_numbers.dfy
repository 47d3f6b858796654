/**
 * The part of JavaScript's number semantics the handlers rely on: `Number(s)` on a
 * query or metadata string, `String(n)` on an integer, and `+`, unary `-`, `*`
 * with NaN propagation. Only integer values are represented, exactly and without the 2^53
 * precision bound or the exponent notation of large doubles.
 */
module JsNumbers {
  import opened Wrappers

  /** A JavaScript number restricted to integers, plus NaN. */
  datatype Number = Int(value: int) | NaN

  function Add(a: Number, b: Number): (r: Number)
    ensures r.Int? <==> a.Int? && b.Int?
    ensures r.Int? ==> r.value == a.value + b.value
  {
    if a.Int? && b.Int? then Int(a.value + b.value) else NaN
  }

  function Neg(a: Number): (r: Number)
    ensures r.Int? <==> a.Int?
    ensures r.Int? ==> r.value == -a.value
  {
    if a.Int? then Int(-a.value) else NaN
  }

  function Mul(a: Number, b: Number): (r: Number)
    ensures r.Int? <==> a.Int? && b.Int?
    ensures r.Int? ==> r.value == a.value * b.value
  {
    if a.Int? && b.Int? then Int(a.value * b.value) else NaN
  }

  predicate IsDigit(c: char) { '0' <= c <= '9' }

  predicate AllDigits(s: string) { forall i :: 0 <= i < |s| ==> IsDigit(s[i]) }

  /** The ASCII characters that `Number` strips from both ends of its argument. */
  predicate IsSpace(c: char) { c == ' ' || c == '\t' || c == '\n' || c == '\r' || c == '\U{000B}' || c == '\U{000C}' }

  function DigitValue(c: char): (d: nat)
    requires IsDigit(c)
    ensures d < 10
  {
    c as int - '0' as int
  }

  function DigitChar(d: nat): (c: char)
    requires d < 10
    ensures IsDigit(c) && DigitValue(c) == d
  {
    ('0' as int + d) as char
  }

  /** The value of a run of decimal digits, most significant digit first. */
  function DigitsValue(s: string): nat
    requires AllDigits(s)
    decreases |s|
  {
    if s == [] then 0 else 10 * DigitsValue(s[..|s| - 1]) + DigitValue(s[|s| - 1])
  }

  function TrimStart(s: string): (r: string)
    ensures |r| <= |s| && r == s[|s| - |r|..]
    ensures forall k :: 0 <= k < |s| - |r| ==> IsSpace(s[k])
    ensures r != [] ==> !IsSpace(r[0])
    ensures s != [] && !IsSpace(s[0]) ==> r == s
  {
    if s != [] && IsSpace(s[0]) then
      var r := TrimStart(s[1..]);
      assert forall k :: 1 <= k < |s| - |r| ==> s[k] == s[1..][k - 1];
      r
    else s
  }

  function TrimEnd(s: string): (r: string)
    ensures |r| <= |s| && r == s[..|r|]
    ensures forall k :: |r| <= k < |s| ==> IsSpace(s[k])
    ensures r != [] ==> !IsSpace(r[|r| - 1])
    ensures s != [] && !IsSpace(s[|s| - 1]) ==> r == s
    decreases |s|
  {
    if s != [] && IsSpace(s[|s| - 1]) then TrimEnd(s[..|s| - 1]) else s
  }

  /** An optional sign followed by at least one decimal digit. */
  function SignedDigits(s: string): (r: Option<int>)
    ensures r.Some? ==> s != []
  {
    if |s| > 1 && s[0] == '-' && AllDigits(s[1..]) then Some(-(DigitsValue(s[1..]) as int))
    else if |s| > 1 && s[0] == '+' && AllDigits(s[1..]) then Some(DigitsValue(s[1..]))
    else if s != [] && AllDigits(s) then Some(DigitsValue(s))
    else None
  }

  /**
   * JavaScript's `Number(s)` (and the implicit conversion in `s - 1`) on a string:
   * surrounding white space is ignored, a blank string is 0, an optionally signed
   * run of decimal digits is that integer, and every other string is NaN here.
   */
  function ToNumber(s: string): (r: Number)
    ensures TrimEnd(TrimStart(s)) == [] ==> r == Int(0)
  {
    var t := TrimEnd(TrimStart(s));
    if t == [] then Int(0)
    else match SignedDigits(t)
      case Some(n) => Int(n)
      case None => NaN
  }

  /** `Number(v)` where `v` may be `undefined`, which converts to NaN. */
  function ToNumberOf(v: Option<string>): (r: Number)
    ensures v.None? ==> r == NaN
  {
    match v
    case None => NaN
    case Some(s) => ToNumber(s)
  }

  /** `String(n)` for a natural number: decimal digits without leading zeros. */
  function NatToString(n: nat): (s: string)
    ensures s != [] && AllDigits(s)
    ensures (s[0] == '0') == (n == 0)
  {
    if n < 10 then [DigitChar(n)] else NatToString(n / 10) + [DigitChar(n % 10)]
  }

  /** `String(n)` for an integer: a minus sign for negative values, then the digits. */
  function IntToString(n: int): (s: string)
    ensures s != [] && (s[0] == '-') == (n < 0)
    ensures AllDigits(s[1..])
    ensures n >= 0 ==> AllDigits(s)
  {
    if n < 0 then "-" + NatToString(-n) else NatToString(n)
  }

  lemma {:induction false} NatToStringValue(n: nat)
    ensures DigitsValue(NatToString(n)) == n
  {
    if n >= 10 {
      NatToStringValue(n / 10);
      var s := NatToString(n);
      assert s[..|s| - 1] == NatToString(n / 10);
    }
  }

  /** Reading back what `String(n)` wrote gives `n` again: `Number(String(n)) == n`. */
  lemma IntToStringRoundTrip(n: int)
    ensures ToNumber(IntToString(n)) == Int(n)
  {
    var s := IntToString(n);
    assert TrimEnd(TrimStart(s)) == s by {
      assert !IsSpace(s[0]) by {
        if n >= 0 { assert IsDigit(s[0]); }
      }
      assert IsDigit(s[|s| - 1]) by {
        if n < 0 { assert s[|s| - 1] == s[1..][|s| - 2]; }
      }
    }
    if n < 0 {
      NatToStringValue(-n);
      assert s[1..] == NatToString(-n);
    } else {
      NatToStringValue(n);
    }
  }
}
