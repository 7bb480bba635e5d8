/** Decimal text of integers, as JavaScript's `Number.prototype.toString()`
    and template interpolation produce it for integer-valued numbers, together
    with the reading a consumer of that text applies (`ParseInt`), which is the
    inverse the conversion is proved against. */
module Decimal {
  import opened JsValues

  predicate IsDigit(c: char)
  {
    '0' <= c <= '9'
  }

  predicate AllDigits(s: string)
  {
    forall i :: 0 <= i < |s| ==> IsDigit(s[i])
  }

  /** Non-empty digits without a redundant leading zero. */
  predicate Canonical(s: string)
  {
    |s| > 0 && AllDigits(s) && (s[0] == '0' ==> |s| == 1)
  }

  function DigitChar(d: nat): (c: char)
    requires d < 10
    ensures IsDigit(c) && c as int - '0' as int == d
  {
    ('0' as int + d) as char
  }

  /** The number a string of decimal digits denotes, most significant first. */
  function DigitsValue(s: string): nat
    requires AllDigits(s)
    decreases |s|
  {
    if s == [] then 0 else DigitsValue(s[..|s| - 1]) * 10 + (s[|s| - 1] as int - '0' as int)
  }

  /** The decimal digits of a natural number. */
  function NatToString(n: nat): (s: string)
    ensures Canonical(s)
    ensures DigitsValue(s) == n
  {
    if n < 10 then
      [DigitChar(n)]
    else
      var front := NatToString(n / 10);
      var s := front + [DigitChar(n % 10)];
      assert s[..|s| - 1] == front;
      s
  }

  /** `i.toString()` and `${i}` for an integer `i`: a minus sign for negative
      numbers, then the digits of the magnitude. */
  function IntToString(i: int): (s: string)
    ensures |s| > 0
    ensures s[0] == '-' <==> i < 0
    ensures forall k :: 0 <= k < |s| ==> IsDigit(s[k]) || (k == 0 && s[k] == '-')
    ensures ParseInt(s) == Some(i)
    ensures i >= 0 ==> Canonical(s)
    ensures i < 0 ==> Canonical(s[1..]) && s[1] != '0'
  {
    if i < 0 then
      var digits := NatToString(-i);
      var s := "-" + digits;
      assert s[1..] == digits;
      s
    else
      NatToString(i)
  }

  /** Reads an optionally signed run of decimal digits back into an integer. */
  function ParseInt(s: string): Option<int>
  {
    if |s| > 0 && s[0] == '-' then
      if |s| > 1 && AllDigits(s[1..]) then Some(-(DigitsValue(s[1..]) as int)) else None
    else if |s| > 0 && AllDigits(s) then
      Some(DigitsValue(s))
    else
      None
  }

  /** Distinct integers print differently, so the printed text determines the
      number. */
  lemma IntToStringInjective(a: int, b: int)
    requires IntToString(a) == IntToString(b)
    ensures a == b
  {
  }

  /** `${f}` for a numeric field: the text a template literal inserts. */
  function Interpolate(f: Field): (s: string)
    ensures f.Num? ==> s == IntToString(f.n) && ParseInt(s) == Some(f.n)
    ensures f.Undefined? ==> s == "undefined"
    ensures f.Null? ==> s == "null"
  {
    match f
    case Undefined => "undefined"
    case Null => "null"
    case Num(n) => IntToString(n)
  }

  /** `f.toString()` for a numeric field: a method call on `undefined` or
      `null` throws. */
  function CallToString(f: Field): (r: Completion<string>)
    ensures r.Throw? <==> !f.Num?
    ensures r.Normal? ==> r.value == IntToString(f.n) && ParseInt(r.value) == Some(f.n)
    ensures r.Normal? ==> r.value == Interpolate(f)
  {
    match f
    case Num(n) => Normal(IntToString(n))
    case _ => Throw(ToStringOfNullish)
  }
}
