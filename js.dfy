/**
 * The part of JavaScript's value semantics the pipeline leans on: values as JSON.parse
 * and the request layer hand them over, truthiness, `?.` and `??`, String.prototype.trim
 * and toLowerCase, Number() and String() conversions, and UTF-16 string length.
 */
module Js {
  import opened Common

  /** A JavaScript number. Finite values are exact reals: binary floating point is not modelled. */
  datatype Num = NaN | PosInf | NegInf | Fin(r: real)

  /** A JavaScript value of the kinds JSON text, form fields and SDK replies can produce. */
  datatype JsValue =
    | JUndefined
    | JNull
    | JBool(b: bool)
    | JNum(n: Num)
    | JStr(s: string)
    | JArr(items: seq<JsValue>)
    | JObj(props: map<string, JsValue>)

  predicate IsNullish(v: JsValue) {
    v.JUndefined? || v.JNull?
  }

  /** `Boolean(v)`. */
  predicate Truthy(v: JsValue) {
    match v
    case JUndefined => false
    case JNull => false
    case JBool(b) => b
    case JNum(n) => !n.NaN? && n != Fin(0.0)
    case JStr(s) => s != []
    case JArr(_) => true
    case JObj(_) => true
  }

  /**
   * `v.key` for own data properties. On null or undefined JavaScript throws instead;
   * every caller checks IsNullish first where the source does not use `?.`.
   */
  function Get(v: JsValue, key: string): JsValue {
    if v.JObj? && key in v.props then v.props[key] else JUndefined
  }

  /** `v?.key`. */
  function OptGet(v: JsValue, key: string): JsValue {
    if IsNullish(v) then JUndefined else Get(v, key)
  }

  /** `a ?? b`. */
  function Coalesce(a: JsValue, b: JsValue): JsValue {
    if IsNullish(a) then b else a
  }

  /** `key in v` for a value of type "object". */
  predicate Has(v: JsValue, key: string) {
    v.JObj? && key in v.props
  }

  /** `typeof v === "object" && v !== null`. */
  predicate IsObjectLike(v: JsValue) {
    v.JArr? || v.JObj?
  }

  // ---------------------------------------------------------------- strings

  /** WhiteSpace and LineTerminator code points, the set String.prototype.trim removes. */
  predicate IsWhite(c: char) {
    var k := c as int;
    k == 0x09 || k == 0x0A || k == 0x0B || k == 0x0C || k == 0x0D || k == 0x20
    || k == 0xA0 || k == 0x1680 || (0x2000 <= k <= 0x200A) || k == 0x2028 || k == 0x2029
    || k == 0x202F || k == 0x205F || k == 0x3000 || k == 0xFEFF
  }

  predicate IsLineTerminator(c: char) {
    c == '\n' || c == '\r' || c as int == 0x2028 || c as int == 0x2029
  }

  function TrimStart(s: string): (r: string)
    ensures |r| <= |s| && r == s[|s| - |r|..]
    ensures r == [] || !IsWhite(r[0])
    ensures forall i :: 0 <= i < |s| - |r| ==> IsWhite(s[i])
  {
    if s != [] && IsWhite(s[0]) then
      var r := TrimStart(s[1..]);
      assert forall i :: 1 <= i < |s| ==> s[i] == s[1..][i - 1];
      r
    else s
  }

  function TrimEnd(s: string): (r: string)
    ensures |r| <= |s| && r == s[..|r|]
    ensures r == [] || !IsWhite(r[|r| - 1])
    ensures forall i :: |r| <= i < |s| ==> IsWhite(s[i])
  {
    if s != [] && IsWhite(s[|s| - 1]) then
      var r := TrimEnd(s[..|s| - 1]);
      assert forall i :: 0 <= i < |s| - 1 ==> s[i] == s[..|s| - 1][i];
      r
    else s
  }

  /** String.prototype.trim. */
  function Trim(s: string): string {
    TrimEnd(TrimStart(s))
  }

  /** A trimmed string has no white space at either end. */
  predicate IsTrimmed(s: string) {
    s == [] || (!IsWhite(s[0]) && !IsWhite(s[|s| - 1]))
  }

  /** trim leaves no white space at either end. */
  lemma TrimIsTrimmed(s: string)
    ensures IsTrimmed(Trim(s))
  {
    var a := TrimStart(s);
    var t := TrimEnd(a);
    if t != [] {
      assert t[0] == a[0];
    }
  }

  /** trim gives the empty string exactly when the input is all white space. */
  lemma TrimBlank(s: string)
    ensures Trim(s) == [] <==> forall i :: 0 <= i < |s| ==> IsWhite(s[i])
  {
    if Trim(s) == [] {
      assert TrimStart(s) == [];
    }
  }

  lemma TrimProperties(s: string)
    ensures IsTrimmed(Trim(s))
    ensures Trim(Trim(s)) == Trim(s)
    ensures Trim(s) == [] <==> forall i :: 0 <= i < |s| ==> IsWhite(s[i])
  {
    TrimIsTrimmed(s);
    TrimOfTrimmed(Trim(s));
    TrimBlank(s);
  }

  lemma TrimOfTrimmed(t: string)
    requires IsTrimmed(t)
    ensures Trim(t) == t
  {
  }

  /** The trimmed string is the input with the leading white space and some trailing white space cut. */
  lemma TrimIsInfix(s: string)
    ensures var i := |s| - |TrimStart(s)|; i + |Trim(s)| <= |s| && Trim(s) == s[i..i + |Trim(s)|]
  {
    var a := TrimStart(s);
    var t := TrimEnd(a);
    PrefixOfSuffix(s, |s| - |a|, |t|);
  }

  lemma PrefixOfSuffix(s: string, i: nat, k: nat)
    requires i + k <= |s|
    ensures s[i..][..k] == s[i..i + k]
  {
  }

  /** String.prototype.toLowerCase on Basic Latin and Latin-1 letters. */
  function LowerChar(c: char): char {
    if 'A' <= c <= 'Z' || (0xC0 <= c as int <= 0xDE && c as int != 0xD7) then (c as int + 32) as char else c
  }

  function ToLower(s: string): (r: string)
    ensures |r| == |s|
  {
    seq(|s|, i requires 0 <= i < |s| => LowerChar(s[i]))
  }

  function StartsWith(s: string, prefix: string): bool {
    |prefix| <= |s| && s[..|prefix|] == prefix
  }

  /** `s.includes(sub)`. */
  predicate Contains(s: string, sub: string) {
    exists i :: 0 <= i <= |s| - |sub| && OccursAt(s, sub, i)
  }

  predicate OccursAt(s: string, sub: string, i: int) {
    0 <= i <= |s| - |sub| && s[i..i + |sub|] == sub
  }

  /** `parts.join(sep)`. */
  function Join(parts: seq<string>, sep: string): string {
    if parts == [] then ""
    else if |parts| == 1 then parts[0]
    else parts[0] + sep + Join(parts[1..], sep)
  }

  /** `s.length`: the number of UTF-16 code units. */
  function Utf16Length(s: string): nat {
    if s == [] then 0 else (if s[0] as int >= 0x10000 then 2 else 1) + Utf16Length(s[1..])
  }

  lemma Utf16LengthAppend(a: string, b: string)
    ensures Utf16Length(a + b) == Utf16Length(a) + Utf16Length(b)
  {
    if a == [] {
      assert a + b == b;
    } else {
      assert (a + b)[1..] == a[1..] + b;
      Utf16LengthAppend(a[1..], b);
    }
  }

  lemma Utf16LengthBounds(s: string)
    ensures |s| <= Utf16Length(s) <= 2 * |s|
  {
    if s != [] {
      Utf16LengthBounds(s[1..]);
    }
  }

  // ---------------------------------------------------------------- numbers

  predicate IsDigit(c: char) {
    '0' <= c <= '9'
  }

  predicate AllDigits(s: string) {
    forall i :: 0 <= i < |s| ==> IsDigit(s[i])
  }

  function DigitsValue(ds: string): nat
    requires AllDigits(ds)
  {
    if ds == [] then 0 else DigitsValue(ds[..|ds| - 1]) * 10 + (ds[|ds| - 1] as int - '0' as int)
  }

  function Pow10(k: nat): (p: nat)
    ensures p >= 1
  {
    if k == 0 then 1 else 10 * Pow10(k - 1)
  }

  function DigitPrefixLength(s: string): (k: nat)
    ensures k <= |s| && AllDigits(s[..k])
    ensures k < |s| ==> !IsDigit(s[k])
  {
    if s == [] || !IsDigit(s[0]) then 0
    else
      var k := 1 + DigitPrefixLength(s[1..]);
      assert s[..k] == [s[0]] + s[1..][..k - 1];
      k
  }

  /** An unsigned decimal literal `d+`, `d+.d*` or `.d+`. */
  function ParseUnsignedDecimal(t: string): Option<real> {
    var k := DigitPrefixLength(t);
    var rest := t[k..];
    if rest == [] then
      (if k > 0 then Some(DigitsValue(t[..k]) as real) else None)
    else if rest[0] != '.' || !AllDigits(rest[1..]) || (k == 0 && |rest| == 1) then None
    else
      var frac := rest[1..];
      Some(DigitsValue(t[..k]) as real + DigitsValue(frac) as real / Pow10(|frac|) as real)
  }

  /** Number(s) for a string: decimal literals with an optional sign, and the Infinity forms. */
  function StringToNumber(s: string): Num {
    var t := Trim(s);
    if t == [] then Fin(0.0)
    else if t == "Infinity" || t == "+Infinity" then PosInf
    else if t == "-Infinity" then NegInf
    else
      var negative := t[0] == '-';
      var body := if t[0] == '-' || t[0] == '+' then t[1..] else t;
      match ParseUnsignedDecimal(body)
      case Some(x) => Fin(if negative then -x else x)
      case None => NaN
  }

  /** Number(v). */
  function ToNumber(v: JsValue): Num {
    match v
    case JUndefined => NaN
    case JNull => Fin(0.0)
    case JBool(b) => Fin(if b then 1.0 else 0.0)
    case JNum(n) => n
    case JStr(s) => StringToNumber(s)
    case JArr(_) => StringToNumber(JsString(v))
    case JObj(_) => NaN
  }

  predicate IsFinite(n: Num) {
    n.Fin?
  }

  function DigitChar(d: nat): char
    requires d < 10
  {
    ('0' as int + d) as char
  }

  function NatToString(n: nat): string
  {
    if n < 10 then [DigitChar(n)] else NatToString(n / 10) + [DigitChar(n % 10)]
  }

  function IntToString(i: int): string {
    if i < 0 then "-" + NatToString(-i) else NatToString(i)
  }

  /** Up to `k` digits of the decimal expansion of a fraction in [0, 1). */
  function FractionDigits(f: real, k: nat): string
    requires 0.0 <= f < 1.0
    decreases k
  {
    if k == 0 || f == 0.0 then ""
    else
      var d := (f * 10.0).Floor;
      [DigitChar(d)] + FractionDigits(f * 10.0 - d as real, k - 1)
  }

  function UnsignedRealToString(x: real): string
    requires x >= 0.0
  {
    DecimalText(x.Floor, x - x.Floor as real)
  }

  /** A whole part and, unless the fraction is zero, a point and up to 20 fraction digits. */
  function DecimalText(whole: nat, frac: real): string
    requires 0.0 <= frac < 1.0
  {
    NatToString(whole) + (if frac == 0.0 then "" else "." + FractionDigits(frac, 20))
  }

  /** String(n) for a number. */
  function NumberToString(n: Num): string {
    match n
    case NaN => "NaN"
    case PosInf => "Infinity"
    case NegInf => "-Infinity"
    case Fin(r) => (if r < 0.0 then "-" else "") + UnsignedRealToString(Magnitude(r))
  }

  function Magnitude(r: real): (m: real)
    ensures m >= 0.0 && (m == r || m == -r)
  {
    if r < 0.0 then -r else r
  }

  /** String(v), also what a template literal `${v}` and Array.prototype.join produce. */
  function JsString(v: JsValue): string
    decreases v, 1
  {
    match v
    case JUndefined => "undefined"
    case JNull => "null"
    case JBool(b) => if b then "true" else "false"
    case JNum(n) => NumberToString(n)
    case JStr(s) => s
    case JArr(items) => JoinElements(v, 0, ",")
    case JObj(_) => "[object Object]"
  }

  /** `arr.slice(i).join(sep)`, where null and undefined elements become "". */
  function JoinElements(arr: JsValue, i: nat, sep: string): string
    requires arr.JArr? && i <= |arr.items|
    decreases arr, 0, |arr.items| - i
  {
    if i == |arr.items| then ""
    else
      var e := arr.items[i];
      var head := if IsNullish(e) then "" else JsString(e);
      if i + 1 == |arr.items| then head else head + sep + JoinElements(arr, i + 1, sep)
  }
}
