/** The few ECMAScript built-ins the client code relies on, over unbounded integers. */
module JsBuiltins {
  import opened Wrappers

  function Min(a: int, b: int): int { if a <= b then a else b }

  function Max(a: int, b: int): int { if a <= b then b else a }

  /** `Array.prototype.slice(start)` with no end: a negative start counts from the end. */
  function SliceFrom<T>(s: seq<T>, start: int): (r: seq<T>)
    ensures |r| <= |s| && r == s[|s| - |r|..]
    ensures start < 0 ==> |r| == Min(-start, |s|)
    ensures 0 <= start ==> |r| == |s| - Min(start, |s|)
  {
    var k := if start < 0 then Max(|s| + start, 0) else Min(start, |s|);
    s[k..]
  }

  /** `String.prototype.substr(start, length)` (ECMAScript Annex B.2.2.1). */
  function Substr(s: string, start: int, length: int): (r: string)
    ensures |r| <= Max(length, 0)
    ensures 0 <= start <= |s| ==> |r| == Min(Max(length, 0), |s| - start) && r == s[start..start + |r|]
    ensures |s| <= start ==> r == []
  {
    var from := if start < 0 then Max(|s| + start, 0) else Min(start, |s|);
    var len := Min(Max(length, 0), |s| - from);
    s[from..from + len]
  }

  predicate IsDigit(c: char) { '0' <= c <= '9' }

  predicate AllDigits(s: string) { forall i :: 0 <= i < |s| ==> IsDigit(s[i]) }

  function DigitChar(d: nat): (c: char)
    requires d < 10
    ensures IsDigit(c)
  {
    ('0' as int + d) as char
  }

  function DigitValue(c: char): (d: nat)
    requires IsDigit(c)
    ensures d < 10
  {
    c as int - '0' as int
  }

  /** Decimal digits of a natural number, most significant first, no leading zeros. */
  function NatToString(n: nat): (r: string)
    ensures |r| > 0 && AllDigits(r)
    ensures (r[0] == '0') == (n == 0)
  {
    if n < 10 then [DigitChar(n)] else NatToString(n / 10) + [DigitChar(n % 10)]
  }

  function ParseNat(s: string): nat
    requires AllDigits(s)
  {
    if s == [] then 0 else ParseNat(s[..|s| - 1]) * 10 + DigitValue(s[|s| - 1])
  }

  /** `String(n)` (and a template literal `${n}`) for an integral number. */
  function NumberToString(n: int): string
  {
    if n < 0 then "-" + NatToString(-n) else NatToString(n)
  }

  /** Reads back an optionally signed decimal integer; the reference for NumberToString. */
  function ParseNumber(s: string): Option<int>
  {
    if |s| > 1 && s[0] == '-' && AllDigits(s[1..]) then Some(0 - ParseNat(s[1..]) as int)
    else if |s| > 0 && AllDigits(s) then Some(ParseNat(s))
    else None
  }

  lemma {:induction false} ParseNatToString(n: nat)
    ensures ParseNat(NatToString(n)) == n
  {
    var s := NatToString(n);
    if n < 10 {
      assert s[..|s| - 1] == [];
    } else {
      assert s[..|s| - 1] == NatToString(n / 10);
      ParseNatToString(n / 10);
    }
  }

  /** The text of a number reads back as that number. */
  lemma NumberRoundTrip(n: int)
    ensures ParseNumber(NumberToString(n)) == Some(n)
  {
    if n < 0 {
      ParseNatToString(-n);
      assert NumberToString(n)[1..] == NatToString(-n);
    } else {
      ParseNatToString(n);
    }
  }
}
