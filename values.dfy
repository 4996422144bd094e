/** The values the JavaScript bridge receives from V8, stripped of handles,
    together with the conversions the bridge applies to them and the error
    codes and outcomes it raises. */
module V8Values {

  datatype Option<+T> = None | Some(value: T)

  /** The shapes of a V8 value the bridge tells apart. Numbers are integers:
      floating point is not modelled. */
  datatype Value =
    | Undefined
    | Null
    | Bool(b: bool)
    | Num(n: int)
    | Str(s: string)
    | Arr(elems: seq<Value>)
    | Obj(props: map<string, Value>)

  /** V8's IsObject(): arrays are objects too. */
  predicate IsObject(v: Value) {
    v.Obj? || v.Arr?
  }

  /** `args[i]` of a call: V8 yields undefined past the last argument. */
  function Arg(args: seq<Value>, i: nat): Value {
    if i < |args| then args[i] else Undefined
  }

  /** A named property of an object. Arrays carry no named properties here. */
  function Get(v: Value, key: string): Option<Value> {
    if v.Obj? && key in v.props then Some(v.props[key]) else None
  }

  predicate Has(v: Value, key: string) {
    Get(v, key).Some?
  }

  /** The property `key` when it holds a string. */
  function StringProperty(v: Value, key: string): Option<string> {
    if v.Obj? && key in v.props && v.props[key].Str? then Some(v.props[key].s) else None
  }

  /** TRI_ObjectToBoolean: a boolean gives its value, every other value false. */
  function ToBoolean(v: Value): bool {
    v.Bool? && v.b
  }

  // ---------------------------------------------------------------------------
  // Decimal digits
  // ---------------------------------------------------------------------------

  predicate IsDigit(c: char) {
    '0' <= c <= '9'
  }

  function DigitChar(d: nat): (c: char)
    requires d < 10
    ensures IsDigit(c)
  {
    (d + '0' as int) as char
  }

  function DigitValue(c: char): nat
    requires IsDigit(c)
  {
    (c as int) - ('0' as int)
  }

  /** The decimal spelling of a natural number, without leading zeros. */
  function NatToString(n: nat): (s: string)
    ensures |s| > 0
    ensures forall i :: 0 <= i < |s| ==> IsDigit(s[i])
    decreases n
  {
    if n < 10 then [DigitChar(n)] else NatToString(n / 10) + [DigitChar(n % 10)]
  }

  /** The leading run of decimal digits of a string. */
  function LeadingDigits(s: string): (d: string)
    ensures |d| <= |s| && d == s[..|d|]
    ensures forall i :: 0 <= i < |d| ==> IsDigit(d[i])
    ensures |d| < |s| ==> !IsDigit(s[|d|])
  {
    if |s| == 0 || !IsDigit(s[0]) then "" else [s[0]] + LeadingDigits(s[1..])
  }

  /** The number a string of decimal digits spells. */
  function DigitsValue(d: string): nat
    requires forall i :: 0 <= i < |d| ==> IsDigit(d[i])
  {
    if |d| == 0 then 0 else DigitsValue(d[..|d| - 1]) * 10 + DigitValue(d[|d| - 1])
  }

  lemma {:induction false} DigitsValueOfNatToString(n: nat)
    ensures DigitsValue(NatToString(n)) == n
    decreases n
  {
    var s := NatToString(n);
    if n >= 10 {
      DigitsValueOfNatToString(n / 10);
      assert s[..|s| - 1] == NatToString(n / 10);
    }
  }

  lemma {:induction false} LeadingDigitsOfDigits(d: string)
    requires forall i :: 0 <= i < |d| ==> IsDigit(d[i])
    ensures LeadingDigits(d) == d
  {
    if |d| > 0 {
      LeadingDigitsOfDigits(d[1..]);
    }
  }

  /** TRI_ObjectToUInt64 on a string: the value of its leading decimal digits,
      0 when it has none. */
  function StringToUInt64(s: string): nat {
    DigitsValue(LeadingDigits(s))
  }

  /** The revision strings the bridge hands out read back as the same number. */
  lemma RevisionStringRoundTrip(n: nat)
    ensures StringToUInt64(NatToString(n)) == n
  {
    LeadingDigitsOfDigits(NatToString(n));
    DigitsValueOfNatToString(n);
  }

  /** TRI_ObjectToUInt64: a non-negative number gives its value, a string its
      decimal value when strings are allowed, anything else 0. */
  function ToUInt64(v: Value, allowStrings: bool): nat {
    match v
    case Num(n) => if n >= 0 then n else 0
    case Str(s) => if allowStrings then StringToUInt64(s) else 0
    case _ => 0
  }

  function IntToString(n: int): string {
    if n < 0 then "-" + NatToString(-n) else NatToString(n)
  }

  /** TRI_ObjectToString: JavaScript's String(v). */
  function ToString(v: Value): string
    decreases v
  {
    match v
    case Undefined => "undefined"
    case Null => "null"
    case Bool(b) => if b then "true" else "false"
    case Num(n) => IntToString(n)
    case Str(s) => s
    case Arr(elems) => JoinElements(v, 0)
    case Obj(_) => "[object Object]"
  }

  /** Array.prototype.toString from element `i` on: elements joined by commas,
      null and undefined elements written as the empty string. */
  function JoinElements(a: Value, i: nat): string
    requires a.Arr? && i <= |a.elems|
    decreases a, |a.elems| - i
  {
    if i == |a.elems| then ""
    else
      var e := a.elems[i];
      var first := if e.Undefined? || e.Null? then "" else ToString(e);
      if i + 1 == |a.elems| then first else first + "," + JoinElements(a, i + 1)
  }
}

/** Error numbers of the database (as in its error table) and the two ways a
    bridge function ends: it returns a value or throws an exception. */
module Errors {
  import opened V8Values

  type ErrorCode = int

  const NoError: ErrorCode := 0
  const OutOfMemory: ErrorCode := 3
  const Internal: ErrorCode := 4
  const NotImplemented: ErrorCode := 9
  const BadParameter: ErrorCode := 10
  const Forbidden: ErrorCode := 11
  const Conflict: ErrorCode := 1200
  const DocumentNotFound: ErrorCode := 1202
  const CollectionNotFound: ErrorCode := 1203
  const DocumentHandleBad: ErrorCode := 1205
  const CrossCollectionRequest: ErrorCode := 1213
  const DocumentKeyBad: ErrorCode := 1221
  const DocumentKeyMissing: ErrorCode := 1226
  const DocumentTypeInvalid: ErrorCode := 1227
  const DatabaseNotFound: ErrorCode := 1228

  /** What a bridge function hands back to JavaScript. A thrown exception
      carries an error number and a message; the empty message stands for
      the standard text of the error number. */
  datatype Outcome = Returns(value: Value) | Throws(code: ErrorCode, message: string)

  function Fail(code: ErrorCode): Outcome {
    Throws(code, "")
  }

  /** TRI_V8_THROW_EXCEPTION_USAGE */
  function Usage(signature: string): Outcome {
    Throws(BadParameter, "usage: " + signature)
  }

  /** TRI_V8_THROW_EXCEPTION_PARAMETER */
  function ParameterError(message: string): Outcome {
    Throws(BadParameter, message)
  }
}
