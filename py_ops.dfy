/** The two Python operations the LLM provider applies to the decoded
    calorie field: the comparison `v == 0` and the conversion `float(v)`. */
module PyOps {
  import opened Wrappers
  import opened Json
  import opened Nutrition

  /** `v == 0`: numbers compare by value, `False == 0`, a string, `None`, a
      list or a dict is never equal to the integer 0. */
  predicate EqualsZero(v: JsonValue)
    ensures EqualsZero(v) ==> v.JNum? || v.JBool?
  {
    match v
    case JNum(n) => n == 0.0
    case JBool(b) => !b
    case _ => false
  }

  /** `float(v)`: numbers and booleans convert, strings are parsed, every
      other type raises TypeError. */
  function ToFloat(v: JsonValue): (r: Result<real, ProviderError>)
    // only None, lists and dicts are of the wrong type
    ensures r == Failure(TypeError) <==> v.JNull? || v.JArray? || v.JObject?
    // only a string can be malformed
    ensures r.Failure? ==> r == Failure(TypeError) || (r == Failure(ValueError) && v.JStr?)
    // a number keeps its value, a boolean becomes 1 or 0
    ensures v.JNum? ==> r == Success(v.n)
    ensures v.JBool? ==> r == Success(if v.b then 1.0 else 0.0)
  {
    match v
    case JNum(n) => Success(n)
    case JBool(b) => Success(if b then 1.0 else 0.0)
    case JStr(s) =>
      (match ParseDecimal(s)
       case Some(x) => Success(x)
       case None => Failure(ValueError))
    case _ => Failure(TypeError)
  }

  predicate IsDigit(c: char)
  {
    '0' <= c <= '9'
  }

  predicate AllDigits(s: string)
  {
    forall i :: 0 <= i < |s| ==> IsDigit(s[i])
  }

  function DigitsValue(s: string): nat
    requires AllDigits(s)
  {
    if s == [] then 0 else 10 * DigitsValue(s[..|s| - 1]) + (s[|s| - 1] as int - '0' as int)
  }

  function Pow10(n: nat): (r: nat)
    ensures r > 0
  {
    if n == 0 then 1 else 10 * Pow10(n - 1)
  }

  /** Position of the first '.', or |s| when there is none. */
  function DotIndex(s: string): (k: nat)
    ensures k <= |s|
    ensures forall i :: 0 <= i < k ==> s[i] != '.'
    ensures k < |s| ==> s[k] == '.'
  {
    if s == [] then 0 else if s[0] == '.' then 0 else 1 + DotIndex(s[1..])
  }

  /** A decimal without sign: digits, optionally one '.', at least one digit. */
  function ParseUnsigned(s: string): Option<real>
  {
    var k := DotIndex(s);
    var whole := s[..k];
    var fraction := if k < |s| then s[k + 1..] else [];
    if AllDigits(whole) && AllDigits(fraction) && |whole| + |fraction| > 0 then
      Some(DigitsValue(whole) as real + DigitsValue(fraction) as real / Pow10(|fraction|) as real)
    else None
  }

  /** `float(s)` for a string of the form [sign]digits[.digits]. */
  function ParseDecimal(s: string): Option<real>
  {
    if |s| > 0 && (s[0] == '+' || s[0] == '-') then
      match ParseUnsigned(s[1..])
      case Some(x) => Some(if s[0] == '-' then -x else x)
      case None => None
    else ParseUnsigned(s)
  }

  /** On numbers and booleans the zero test and the conversion agree: the
      value is zero exactly when it converts to 0.0. */
  lemma EqualsZeroMatchesFloat(v: JsonValue)
    requires v.JNum? || v.JBool?
    ensures EqualsZero(v) <==> ToFloat(v) == Success(0.0)
  {
  }

  /** On strings they disagree: "0" is not equal to 0, yet converts to 0.0. */
  lemma ZeroStringConvertsToZero()
    ensures !EqualsZero(JStr("0")) && ToFloat(JStr("0")) == Success(0.0)
  {
    assert DotIndex("0") == 1;
    assert "0"[..1] == "0";
    assert "0"[..0] == [];
  }
}
