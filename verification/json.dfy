/** Decoded JSON values and the Python operations the response parsers apply to them:
    `dict.get`, truthiness, `str()`, iteration, `==` against a constant and `in`. */
module Json {
  import opened Wrappers
  import opened Text

  /** A value as Python's `json` module decodes it. A number written with a fraction
      decodes to a float; `JFloat(mantissa, scale)` is the exact decimal
      `mantissa / 10^scale` of the literal. */
  datatype Json =
    | JNull
    | JBool(b: bool)
    | JInt(i: int)
    | JFloat(mantissa: int, scale: nat)
    | JStr(s: string)
    | JArr(items: seq<Json>)
    | JObj(fields: map<string, Json>)

  const EmptyObj: Json := JObj(map[])

  /** `value.get(key, default)`: only a dict has `.get`; anything else raises AttributeError. */
  function Get(j: Json, key: string, default: Json): (r: Result<Json>)
    ensures r.Success? <==> j.JObj?
  {
    match j
    case JObj(fields) => Success(if key in fields then fields[key] else default)
    case _ => Failure("AttributeError: object has no attribute 'get'")
  }

  /** `value.get(key, default)` on a value already known to be a dict. */
  function Field(j: Json, key: string, default: Json): (r: Json)
    requires j.JObj?
    ensures Get(j, key, default) == Success(r)
  {
    if key in j.fields then j.fields[key] else default
  }

  /** `value.get(k1, {}).get(k2, {})...` along `path`. */
  function GetPath(j: Json, path: seq<string>): Result<Json>
    decreases |path|
  {
    if |path| == 0 then Success(j)
    else
      var next :- Get(j, path[0], EmptyObj);
      GetPath(next, path[1..])
  }

  /** The exact value of a decoded number. */
  function NumberValue(j: Json): real
    requires j.JInt? || j.JFloat?
  {
    if j.JInt? then j.i as real else j.mantissa as real / Pow10(j.scale) as real
  }

  /** Python's `bool(value)`. */
  predicate Truthy(j: Json) {
    match j
    case JNull => false
    case JBool(b) => b
    case JInt(i) => i != 0
    case JFloat(m, _) => m != 0
    case JStr(s) => s != ""
    case JArr(items) => |items| > 0
    case JObj(fields) => |fields| > 0
  }

  /** `value == 1` in Python: `True` and `1.0` compare equal to `1` as well. */
  predicate EqualsOne(j: Json) {
    match j
    case JBool(b) => b
    case JInt(i) => i == 1
    case JFloat(m, scale) => m == Pow10(scale)
    case _ => false
  }

  /** Python's `str(value)`. Floats are rendered in positional notation with at least one
      fractional digit; arrays and objects are rendered as a bracket placeholder. */
  function Str(j: Json): string {
    match j
    case JNull => "None"
    case JBool(b) => if b then "True" else "False"
    case JInt(i) => IntToString(i)
    case JFloat(m, scale) => FloatRepr(m, scale)
    case JStr(s) => s
    case JArr(_) => "[...]"
    case JObj(_) => "{...}"
  }

  /** Drops trailing zero digits of the fraction, keeping the value. */
  function Normalize(m: int, scale: nat): (r: (int, nat))
    ensures r.1 <= scale
    ensures r.0 * Pow10(scale - r.1) == m
    ensures r.1 == 0 || r.0 % 10 != 0
    decreases scale
  {
    if scale > 0 && m % 10 == 0 then Normalize(m / 10, scale - 1) else (m, scale)
  }

  /** `s` with '0's in front up to `width` characters. */
  function LeftPadZeros(s: string, width: nat): (r: string)
    ensures |r| == if |s| >= width then |s| else width
    ensures r[|r| - |s|..] == s
    ensures forall i | 0 <= i < |r| - |s| :: r[i] == '0'
    decreases width - |s|
  {
    if |s| >= width then s else LeftPadZeros("0" + s, width)
  }

  /** `repr(float)` for a decimal literal: sign, integer part, '.', fraction without
      trailing zeros (a single "0" when the value is integral). */
  function FloatRepr(m: int, scale: nat): (r: string)
    ensures '.' in r
  {
    var n := Normalize(m, scale);
    var a := Abs(n.0);
    var p := Pow10(n.1);
    var head := (if n.0 < 0 then "-" else "") + NatToString(NatDiv(a, p));
    var frac := if n.1 == 0 then "0" else LeftPadZeros(NatToString(NatMod(a, p)), n.1);
    DotJoin(head, frac)
  }

  function NatDiv(a: nat, b: nat): nat
    requires b > 0
  {
    a / b
  }

  function NatMod(a: nat, b: nat): nat
    requires b > 0
  {
    a % b
  }

  function Abs(i: int): nat {
    if i < 0 then -i else i
  }

  function DotJoin(a: string, b: string): (r: string)
    ensures '.' in r
  {
    var r := a + "." + b;
    assert r[|a|] == '.';
    r
  }

  /** What `for x in value` visits when every element is then asked for `.get`:
      a list's items; nothing for an empty dict or string; otherwise the loop fails
      (a non-empty dict or string yields `str` elements without `.get`, and other
      values are not iterable). */
  function Elements(j: Json): (r: Result<seq<Json>>)
    ensures j.JArr? ==> r == Success(j.items)
    ensures !Truthy(j) && (j.JObj? || j.JStr?) ==> r == Success([])
  {
    match j
    case JArr(items) => Success(items)
    case JObj(fields) => if |fields| == 0 then Success([]) else Failure("AttributeError: 'str' object has no attribute 'get'")
    case JStr(s) => if s == "" then Success([]) else Failure("AttributeError: 'str' object has no attribute 'get'")
    case _ => Failure("TypeError: object is not iterable")
  }

  /** Python's `needle in value`: substring for a string, element test for a list,
      key test for a dict; other values raise TypeError. */
  function ContainsText(j: Json, needle: string): Result<bool> {
    match j
    case JStr(s) => Success(IsInfix(needle, s))
    case JArr(items) => Success(JStr(needle) in items)
    case JObj(fields) => Success(needle in fields)
    case _ => Failure("TypeError: argument of type is not iterable")
  }

  /** `str()` of a non-negative integer is a digit string holding its value. */
  lemma StrOfNatIsDigits(n: nat)
    ensures IsDigits(Str(JInt(n)))
    ensures DigitsValue(Str(JInt(n))) == n
  {
    NatToStringRoundTrip(n);
  }

  /** `str()` of a value that is not a string or a non-negative integer is never a
      digit string: it holds a '-', a '.', a letter or a bracket. */
  lemma StrNotDigits(j: Json)
    requires !j.JStr? && !(j.JInt? && j.i >= 0)
    ensures !IsDigits(Str(j))
  {
    var s := Str(j);
    match j
    case JInt(i) => assert s[0] == '-';
    case JFloat(m, scale) =>
      var k :| 0 <= k < |s| && s[k] == '.';
      assert !IsDigitChar(s[k]);
    case JNull => assert !IsDigitChar(s[0]);
    case JBool(b) => assert !IsDigitChar(s[0]);
    case JArr(_) => assert !IsDigitChar(s[0]);
    case JObj(_) => assert !IsDigitChar(s[0]);
  }
}
