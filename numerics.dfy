/**
 * The C# number semantics the kata relies on: 32-bit `int` with unchecked
 * (wrap-around) multiplication, and the decimal rendering of an `int` in a
 * culture whose negative sign is "-", together with a parser that inverts it.
 */
module Numerics {
  import opened Wrappers

  const TWO_32: int := 0x1_0000_0000
  const INT32_MIN: int := -0x8000_0000
  const INT32_MAX: int := 0x7fff_ffff

  /** The values of a C# `int`. */
  type Int32 = x: int | INT32_MIN <= x <= INT32_MAX

  /** The unchecked conversion of an exact integer result to `int`: keep the low 32 bits. */
  function Wrap32(x: int): (r: Int32)
    ensures (r - x) % TWO_32 == 0
    ensures INT32_MIN <= x <= INT32_MAX ==> r == x
  {
    (x - INT32_MIN) % TWO_32 + INT32_MIN
  }

  /** An `int` congruent to x modulo 2^32 is the wrapped value of x. */
  lemma WrapUnique(x: int, r: Int32)
    requires (r - x) % TWO_32 == 0
    ensures r == Wrap32(x)
  {
  }

  /** Wrapping first and multiplying afterwards gives the same `int` as multiplying exactly. */
  lemma {:induction false} WrapMul(x: int, y: int)
    ensures Wrap32(Wrap32(x) * y) == Wrap32(x * y)
  {
    var w := Wrap32(x);
    var k := (w - x) / TWO_32;
    assert w == x + TWO_32 * k;
    assert w * y == x * y + TWO_32 * (k * y);
    var v := Wrap32(w * y);
    var j := (v - w * y) / TWO_32;
    assert v - w * y == TWO_32 * j;
    assert v - x * y == TWO_32 * (j + k * y);
    WrapUnique(x * y, v);
  }

  // ---------------------------------------------------------------------------
  // Decimal rendering of an integer, as `Int32.ToString()` produces it.

  function DigitChar(d: nat): (c: char)
    requires d < 10
    ensures '0' <= c <= '9'
  {
    "0123456789"[d]
  }

  function DigitValue(c: char): (r: Option<nat>)
    ensures r.Some? <==> '0' <= c <= '9'
    ensures r.Some? ==> r.value < 10 && DigitChar(r.value) == c
  {
    if '0' <= c <= '9' then Some((c as int - '0' as int) as nat) else None
  }

  predicate IsDigits(s: string) {
    forall k :: 0 <= k < |s| ==> '0' <= s[k] <= '9'
  }

  /** Reads a non-empty string of decimal digits; anything else is None. */
  function ParseNat(s: string): (r: Option<nat>)
    ensures r.Some? <==> |s| > 0 && IsDigits(s)
  {
    if |s| == 0 then None
    else
      var d := DigitValue(s[|s| - 1]);
      if d.None? then None
      else if |s| == 1 then Some(d.value)
      else match ParseNat(s[..|s| - 1])
        case None => None
        case Some(p) => Some(10 * p + d.value)
  }

  /** Reads an optional leading '-' followed by decimal digits. */
  function ParseInt(s: string): (r: Option<int>)
    ensures r.Some? ==> |s| > 0
  {
    if |s| > 0 && s[0] == '-' then
      match ParseNat(s[1..])
      case None => None
      case Some(p) => Some(-(p as int))
    else
      match ParseNat(s)
      case None => None
      case Some(p) => Some(p)
  }

  /** The shortest decimal rendering of n (no leading zeros). */
  function NatToString(n: nat): (s: string)
    ensures |s| > 0 && IsDigits(s)
    ensures ParseNat(s) == Some(n)
    ensures |s| > 1 ==> s[0] != '0'
  {
    if n < 10 then [DigitChar(n)]
    else
      var prefix := NatToString(n / 10);
      var s := prefix + [DigitChar(n % 10)];
      assert s[..|s| - 1] == prefix;
      assert s[0] == prefix[0];
      s
  }

  /** Digits without leading zeros, after a '-' only when the magnitude is not zero. */
  predicate Canonical(s: string) {
    if |s| > 0 && s[0] == '-' then
      |s| > 1 && IsDigits(s[1..]) && s[1] != '0'
    else
      |s| > 0 && IsDigits(s) && (|s| > 1 ==> s[0] != '0')
  }

  /** `Int32.ToString()`: a '-' for negative values, then the digits of the magnitude. */
  function IntToString(i: int): (s: string)
    ensures ParseInt(s) == Some(i)
    ensures Canonical(s)
    ensures (|s| > 0 && s[0] == '-') <==> i < 0
  {
    if i < 0 then
      var digits := NatToString(-i);
      var s := "-" + digits;
      assert s[1..] == digits;
      assert digits != "0";
      s
    else
      NatToString(i)
  }

  /** A canonical digit string is the rendering of the number it denotes. */
  lemma {:induction false} CanonicalNatUnique(s: string, n: nat)
    requires |s| > 0 && IsDigits(s) && (|s| > 1 ==> s[0] != '0')
    requires ParseNat(s) == Some(n)
    ensures s == NatToString(n)
  {
    var last := s[|s| - 1];
    var d := DigitValue(last).value;
    if |s| == 1 {
      assert n == d;
    } else {
      var prefix := s[..|s| - 1];
      var p := ParseNat(prefix).value;
      assert n == 10 * p + d;
      assert prefix[0] == s[0];
      assert p != 0 by {
        if |prefix| == 1 {
          assert DigitValue(prefix[0]) == Some(p);
        } else {
          CanonicalNatUnique(prefix, p);
          assert NatToString(0) == "0";
        }
      }
      CanonicalNatUnique(prefix, p);
      assert n / 10 == p && n % 10 == d;
      assert s == prefix + [last];
    }
  }

  /** Exactly one canonical text denotes each integer: the one IntToString produces. */
  lemma CanonicalUnique(s: string, i: int)
    requires Canonical(s) && ParseInt(s) == Some(i)
    ensures s == IntToString(i)
  {
    if s[0] == '-' {
      var p := ParseNat(s[1..]).value;
      CanonicalNatUnique(s[1..], p);
      assert s == "-" + s[1..];
    } else {
      CanonicalNatUnique(s, ParseNat(s).value);
    }
  }

  /** The rendering is injective: different integers never print alike. */
  lemma IntToStringInjective(i: int, j: int)
    requires IntToString(i) == IntToString(j)
    ensures i == j
  {
  }
}
