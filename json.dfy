/**
 * The JSON values a request body carries, the JavaScript conversions the
 * route handlers apply to them, and the way the relational store reads a
 * request value as an integer key.
 */
module Json {
  import opened Wrappers

  /** A scalar JSON value as it arrives in a parsed request body. */
  datatype Value = Null | Bool(b: bool) | Num(n: int) | Str(s: string)

  /** A JSON object: a request body, or the object an `apiRepr` builds. */
  type Object = map<string, Value>

  /** `body[key]` in JavaScript: a missing key reads as `undefined`, which the store treats as null. */
  function Get(body: Object, key: string): Value
  {
    if key in body then body[key] else Null
  }

  /** JavaScript truthiness, as used by `a && b` in the id check. */
  predicate Truthy(v: Value)
  {
    match v
    case Null => false
    case Bool(b) => b
    case Num(n) => n != 0
    case Str(s) => s != ""
  }

  predicate IsDigit(c: char)
  {
    '0' <= c <= '9'
  }

  predicate AllDigits(s: string)
  {
    forall i :: 0 <= i < |s| ==> IsDigit(s[i])
  }

  function DigitChar(d: nat): (c: char)
    requires d < 10
    ensures IsDigit(c) && c as int - '0' as int == d
  {
    ('0' as int + d) as char
  }

  /** The decimal numeral of `n`, as `Number.prototype.toString` writes an integer. */
  function Decimal(n: nat): (s: string)
    ensures |s| > 0 && AllDigits(s)
    ensures s[0] == '0' <==> n == 0
  {
    if n < 10 then [DigitChar(n)] else Decimal(n / 10) + [DigitChar(n % 10)]
  }

  /** The value of a string of decimal digits (leading zeros allowed). */
  function DigitsValue(s: string): nat
    requires AllDigits(s)
  {
    if s == [] then 0 else DigitsValue(s[..|s| - 1]) * 10 + (s[|s| - 1] as int - '0' as int)
  }

  /** `v.toString()`; JavaScript throws on null, so callers only reach it with a non-null value. */
  function ToJsString(v: Value): (r: string)
    requires v != Null
    ensures r == "" <==> v == Str("")
    ensures v.Num? && v.n >= 0 ==> AllDigits(r)
    ensures v.Num? && v.n < 0 ==> r[0] == '-' && AllDigits(r[1..])
  {
    match v
    case Bool(b) => if b then "true" else "false"
    case Num(n) => if n < 0 then "-" + Decimal(-n) else Decimal(n)
    case Str(s) => s
  }

  /** The range of the store's `integer` key columns (a signed 32-bit integer). */
  const MinKey: int := -0x8000_0000
  const MaxKey: int := 0x7fff_ffff

  predicate InKeyRange(n: int)
  {
    MinKey <= n <= MaxKey
  }

  /**
   * How the store reads a path segment as an integer key: an optional minus
   * sign followed by at least one decimal digit, whose value lies in the key
   * range. Anything else is refused.
   */
  function ParseId(s: string): (r: Option<int>)
    ensures r.Some? ==> |s| > 0 && InKeyRange(r.value)
    ensures r.Some? && r.value > 0 ==> AllDigits(s)
  {
    var n :=
      if |s| > 0 && AllDigits(s) then Some(DigitsValue(s) as int)
      else if |s| > 1 && s[0] == '-' && AllDigits(s[1..]) then Some(-(DigitsValue(s[1..]) as int))
      else None;
    if n.Some? && InKeyRange(n.value) then n else None
  }

  /** How the store reads a request value given for an integer key column. */
  function KeyOf(v: Value): (r: Option<int>)
    ensures r.Some? ==> InKeyRange(r.value)
    ensures v.Num? ==> (r.Some? <==> InKeyRange(v.n))
    ensures v.Num? && InKeyRange(v.n) ==> r == Some(v.n)
    ensures v.Str? ==> r == ParseId(v.s)
    ensures v.Null? || v.Bool? ==> r.None?
  {
    match v
    case Num(n) => if InKeyRange(n) then Some(n) else None
    case Str(s) => ParseId(s)
    case _ => None
  }

  lemma {:induction false} DecimalValue(n: nat)
    ensures DigitsValue(Decimal(n)) == n
  {
    if n >= 10 {
      var prefix := Decimal(n / 10);
      var s := prefix + [DigitChar(n % 10)];
      assert s[..|s| - 1] == prefix;
      DecimalValue(n / 10);
    }
  }

  /**
   * Writing an integer with `toString` and reading it back as a key gives the
   * same integer when it is in the key range, and is refused otherwise.
   */
  lemma NumberKeyRoundTrip(n: int)
    ensures ParseId(ToJsString(Num(n))) == KeyOf(Num(n))
    ensures InKeyRange(n) ==> ParseId(ToJsString(Num(n))) == Some(n)
  {
    if n < 0 {
      var s := "-" + Decimal(-n);
      assert s[1..] == Decimal(-n);
      assert !AllDigits(s) by { assert !IsDigit(s[0]); }
      DecimalValue(-n);
    } else {
      DecimalValue(n);
    }
  }

  /** The key range is refused at its edges: path id `2147483648` names no row. */
  lemma ParseIdRefusesOutOfRange()
    ensures ParseId(ToJsString(Num(MaxKey))) == Some(MaxKey)
    ensures ParseId(ToJsString(Num(MaxKey + 1))) == None
    ensures ParseId(ToJsString(Num(MinKey))) == Some(MinKey)
    ensures ParseId(ToJsString(Num(MinKey - 1))) == None
  {
    NumberKeyRoundTrip(MaxKey);
    NumberKeyRoundTrip(MaxKey + 1);
    NumberKeyRoundTrip(MinKey);
    NumberKeyRoundTrip(MinKey - 1);
  }
}
