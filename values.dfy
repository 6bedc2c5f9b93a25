/**
 * Dynamically typed telemetry values (the engine's QVariant) and the numeric
 * view the engine takes of them: toDouble, canConvert<double>, toBool, toInt
 * and toString.
 */
module Values {
  import opened Wrappers

  datatype Value = Null | Bool(b: bool) | Int(i: int) | Num(r: real) | Text(s: string)

  /** A QVariantMap: keyed, unordered payload of values. */
  type ValueMap = map<string, Value>

  predicate IsDigit(c: char) { '0' <= c <= '9' }

  predicate AllDigits(s: string) { forall i :: 0 <= i < |s| ==> IsDigit(s[i]) }

  function DigitValue(c: char): (d: nat)
    requires IsDigit(c)
    ensures d < 10
  {
    c as int - '0' as int
  }

  function DigitChar(d: nat): (c: char)
    requires d < 10
    ensures IsDigit(c) && DigitValue(c) == d
  {
    ('0' as int + d) as char
  }

  /** The number a string of decimal digits denotes, read most significant digit first. */
  function NaturalValue(s: string): nat
    requires AllDigits(s)
  {
    if |s| == 0 then 0 else NaturalValue(s[..|s| - 1]) * 10 + DigitValue(s[|s| - 1])
  }

  /** The value of the digits after a decimal point: "25" denotes 0.25. */
  function FractionValue(s: string): (r: real)
    requires AllDigits(s)
    ensures 0.0 <= r <= 1.0
  {
    if |s| == 0 then 0.0 else (DigitValue(s[0]) as real + FractionValue(s[1..])) / 10.0
  }

  /** Position of the first '.', or |s| when there is none. */
  function DotIndex(s: string): (i: nat)
    ensures i <= |s|
    ensures forall j :: 0 <= j < i ==> s[j] != '.'
    ensures i < |s| ==> s[i] == '.'
  {
    if |s| == 0 then 0 else if s[0] == '.' then 0 else 1 + DotIndex(s[1..])
  }

  /** Unsigned decimal: digits, optionally a point and more digits; at least one digit overall. */
  function ParseUnsigned(s: string): (r: Option<real>)
    ensures r.Some? ==> r.value >= 0.0
    ensures r.Some? ==> |s| > 0
  {
    var d := DotIndex(s);
    var whole := s[..d];
    var frac := if d < |s| then s[d + 1..] else "";
    if |whole| + |frac| == 0 || !AllDigits(whole) || !AllDigits(frac) then None
    else Some(NaturalValue(whole) as real + FractionValue(frac))
  }

  /**
   * QString::toDouble(&ok) restricted to plain decimal notation: an optional
   * sign followed by an unsigned decimal. None stands for ok == false.
   */
  function ParseNumber(s: string): Option<real> {
    if |s| > 0 && s[0] == '-' then
      match ParseUnsigned(s[1..])
      case Some(x) => Some(-x)
      case None => None
    else if |s| > 0 && s[0] == '+' then ParseUnsigned(s[1..])
    else ParseUnsigned(s)
  }

  /** Decimal rendering of a natural number, most significant digit first. */
  function NaturalString(n: nat): (s: string)
    ensures |s| > 0 && AllDigits(s)
    ensures forall j :: 0 <= j < |s| ==> s[j] != '.'
  {
    if n < 10 then [DigitChar(n)] else NaturalString(n / 10) + [DigitChar(n % 10)]
  }

  lemma {:induction false} NaturalValueOfString(n: nat)
    ensures NaturalValue(NaturalString(n)) == n
  {
    var s := NaturalString(n);
    if n >= 10 {
      NaturalValueOfString(n / 10);
      assert s[..|s| - 1] == NaturalString(n / 10);
    }
  }

  /** Rendering a natural number and parsing it back gives the number. */
  lemma ParseNaturalString(n: nat)
    ensures ParseNumber(NaturalString(n)) == Some(n as real)
  {
    var s := NaturalString(n);
    NaturalValueOfString(n);
    assert DotIndex(s) == |s|;
    assert s[..|s|] == s;
  }

  /** Rendering "-n" and parsing it back gives -n. */
  lemma ParseNegatedNaturalString(n: nat)
    ensures ParseNumber("-" + NaturalString(n)) == Some(-(n as real))
  {
    var s := NaturalString(n);
    ParseNaturalString(n);
    assert ("-" + s)[1..] == s;
  }

  /** The three IEEE spellings the ingestion pipeline rejects are not plain decimals. */
  lemma SpecialSpellingsDoNotParse()
    ensures ParseNumber("NaN") == None
    ensures ParseNumber("Infinity") == None
    ensures ParseNumber("-Infinity") == None
  {
    assert !IsDigit('N') && !IsDigit('I');
    assert DotIndex("NaN") == 3 && "NaN"[..3] == "NaN";
    assert DotIndex("Infinity") == 8 && "Infinity"[..8] == "Infinity";
    assert "-Infinity"[1..] == "Infinity";
  }

  /** QVariant::canConvert<double>(): every non-null variant converts (strings included). */
  predicate CanConvertToDouble(v: Value) { !v.Null? }

  /** QVariant::toDouble(): a failed conversion gives 0. */
  function ToDouble(v: Value): (r: real)
    ensures v.Num? ==> r == v.r
    ensures v.Int? ==> r == v.i as real
    ensures v.Text? && ParseNumber(v.s).Some? ==> r == ParseNumber(v.s).value
    ensures v.Null? || (v.Text? && ParseNumber(v.s).None?) ==> r == 0.0
  {
    match v
    case Null => 0.0
    case Bool(b) => if b then 1.0 else 0.0
    case Int(i) => i as real
    case Num(r) => r
    case Text(s) => ParseNumber(s).GetOr(0.0)
  }

  /** QVariant::toBool(): strings are false only when empty, "0" or "false". */
  function ToBool(v: Value): (b: bool)
    ensures v.Bool? ==> b == v.b
    ensures v.Null? ==> !b
  {
    match v
    case Null => false
    case Bool(b) => b
    case Int(i) => i != 0
    case Num(r) => r != 0.0
    case Text(s) => !(s == "" || s == "0" || s == "false")
  }

  /** Round half away from zero, as qRound does. */
  function RoundHalfAway(r: real): (n: int)
    ensures -0.5 <= n as real - r <= 0.5
  {
    if r >= 0.0 then (r + 0.5).Floor else -((-r + 0.5).Floor)
  }

  /** QVariant::toInt(): strings must be plain integers, reals are rounded; failure gives 0. */
  function ToInt(v: Value): (n: int)
    ensures v.Int? ==> n == v.i
    ensures v.Null? ==> n == 0
  {
    match v
    case Null => 0
    case Bool(b) => if b then 1 else 0
    case Int(i) => i
    case Num(r) => RoundHalfAway(r)
    case Text(s) =>
      if DotIndex(s) == |s| && ParseNumber(s).Some? then ParseNumber(s).value.Floor else 0
  }

  /**
   * QVariant::toString() for the kinds compared against status words.  A
   * number reads as the empty string rather than its digits; the model's
   * callers compare the text with a status word or use it as an id, and
   * neither the empty string nor a digit string is one of the status words.
   */
  function ToText(v: Value): (s: string)
    ensures v.Text? ==> s == v.s
  {
    match v
    case Text(s) => s
    case Bool(b) => if b then "true" else "false"
    case Int(i) => if i >= 0 then NaturalString(i) else "-" + NaturalString(-i)
    case _ => ""
  }

  /** QVariantMap::value(key): the stored value, or an invalid variant. */
  function Lookup(m: ValueMap, key: string): (v: Value)
    ensures key !in m ==> v == Null
    ensures key in m ==> v == m[key]
  {
    if key in m then m[key] else Null
  }
}
