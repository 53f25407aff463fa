/** A small model of the JavaScript values the client passes around, and of the
    language operations on them that the client relies on: truthiness (`if (x)`,
    `x || y`), `typeof x === 'object'`, property reads, and string conversion in
    concatenation (`'a' + x`). */
module JsValues {

  datatype Option<+T> = None | Some(value: T)

  /** A JavaScript value. Objects are snapshots of their own enumerable properties;
      a function is known only by an identity. */
  datatype JsValue =
    | Undefined
    | Null
    | Bool(b: bool)
    | Num(n: int)
    | Str(s: string)
    | Date(time: int)
    | Func(id: nat)
    | Arr(items: seq<JsValue>)
    | Obj(props: map<string, JsValue>)

  /** The string and byte conversions the client calls but does not define:
      `Base64.encode`, the free `b64encode` (on a string and on a `Blob`) and
      `Utf8.encode`, `Buffer#toString('base64')`,
      `encodeURI`, `encodeURIComponent`, `Date#toISOString` and `Date#toString`.
      They are parameters of the model, never interpreted. */
  datatype Encoders = Encoders(
    base64: string -> string,
    b64encode: string -> string,
    bytesBase64: seq<bv8> -> string,
    blobBase64: seq<bv8> -> string,
    utf8: string -> string,
    uri: string -> string,
    uriComponent: string -> string,
    isoString: int -> string,
    dateString: int -> string)

  /** JavaScript's ToBoolean. */
  predicate Truthy(v: JsValue) {
    match v
    case Undefined => false
    case Null => false
    case Bool(b) => b
    case Num(n) => n != 0
    case Str(s) => s != ""
    case _ => true
  }

  /** `a || b` */
  function Or(a: JsValue, b: JsValue): (r: JsValue)
    ensures Truthy(a) ==> r == a
    ensures !Truthy(a) ==> r == b
  {
    if Truthy(a) then a else b
  }

  /** `typeof v === 'object'` */
  predicate IsObjectTyped(v: JsValue) {
    v.Null? || v.Date? || v.Arr? || v.Obj?
  }

  /** `o[k]` on a plain object: a missing key reads as `undefined`. */
  function Get(m: map<string, JsValue>, k: string): (r: JsValue)
    ensures k !in m ==> r == Undefined
    ensures k in m ==> r == m[k]
  {
    if k in m then m[k] else Undefined
  }

  /** `v.k` on a value that is neither `undefined` nor `null` (reading a property
      of those two throws). Only plain-object properties are modelled; every other
      value reads as having none. */
  function Prop(v: JsValue, k: string): JsValue
    requires !v.Undefined? && !v.Null?
  {
    if v.Obj? then Get(v.props, k) else Undefined
  }

  /** Decimal digits of a natural number, most significant first. */
  function NatToString(n: nat): (s: string)
    ensures |s| >= 1
    ensures forall i :: 0 <= i < |s| ==> IsDigit(s[i])
    decreases n
  {
    var d := [(('0' as int) + n % 10) as char];
    if n < 10 then d else NatToString(n / 10) + d
  }

  predicate IsDigit(c: char) {
    '0' <= c <= '9'
  }

  function IntToString(n: int): string {
    if n < 0 then "-" + NatToString(-n) else NatToString(n)
  }

  /** String conversion as `'' + v` performs it. */
  function ToStr(v: JsValue, enc: Encoders): string
    decreases v
  {
    match v
    case Undefined => "undefined"
    case Null => "null"
    case Bool(b) => if b then "true" else "false"
    case Num(n) => IntToString(n)
    case Str(s) => s
    case Date(t) => enc.dateString(t)
    case Func(_) => "function"
    case Arr(xs) => Join(seq(|xs|, i requires 0 <= i < |xs| =>
                      if xs[i].Undefined? || xs[i].Null? then "" else ToStr(xs[i], enc)), ",")
    case Obj(_) => "[object Object]"
  }

  /** `parts.join(sep)` */
  function Join(parts: seq<string>, sep: string): string
    decreases |parts|
  {
    if |parts| == 0 then ""
    else if |parts| == 1 then parts[0]
    else parts[0] + sep + Join(parts[1..], sep)
  }

  predicate StartsWith(s: string, prefix: string) {
    |prefix| <= |s| && s[..|prefix|] == prefix
  }

  /** `s.indexOf(t) >= 0` */
  predicate Contains(s: string, t: string) {
    exists i | 0 <= i <= |s| :: OccursAt(s, t, i)
  }

  /** `t` occurs in `s` starting at index `i`. */
  predicate OccursAt(s: string, t: string, i: int) {
    0 <= i <= |s| - |t| && s[i..i + |t|] == t
  }

  /** Membership in the class `\s` of JavaScript regular expressions. */
  predicate IsSpace(c: char) {
    c == ' ' || c == '\t' || c == '\n' || c == '\r' || c == '\U{000B}' || c == '\U{000C}'
    || c == '\U{00A0}' || c == '\U{1680}' || ('\U{2000}' <= c <= '\U{200A}')
    || c == '\U{2028}' || c == '\U{2029}' || c == '\U{202F}' || c == '\U{205F}'
    || c == '\U{3000}' || c == '\U{FEFF}'
  }

  /** The characters that `.` in a JavaScript regular expression does not match. */
  predicate IsLineTerminator(c: char) {
    c == '\n' || c == '\r' || c == '\U{2028}' || c == '\U{2029}'
  }

  /** A JavaScript object that callers and the client share by reference and that
      the client may change in place. */
  class JsObject {
    var props: map<string, JsValue>

    constructor(props: map<string, JsValue>)
      ensures this.props == props
    {
      this.props := props;
    }
  }
}
