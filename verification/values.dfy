/**
 * The dynamic values that flow through the server. Tool arguments arrive as a
 * JSON object whose fields are checked for presence only, so the client reads
 * them as untyped JavaScript values; this module gives those values and the
 * three JavaScript conversions the source relies on: truthiness (`if (x)`),
 * the `undefined` test and string conversion (template literals and property
 * keys), including the TypeError that conversion throws for some objects.
 */
module JsValues {
  import opened Wrappers
  import opened Errors

  /** A JavaScript value as it can appear in tool arguments or responses.
      Numbers are modelled as integers. */
  datatype Value =
    | Undefined
    | Null
    | Bool(b: bool)
    | Num(n: int)
    | Str(s: string)
    | Arr(items: seq<Value>)
    | Obj(fields: map<string, Value>)

  /** A plain object, such as the `arguments` record of a tool call. */
  type Record = map<string, Value>

  /** `obj[key]`: a missing key reads as `undefined`. */
  function Field(obj: Record, key: string): (v: Value)
    ensures key !in obj ==> v == Undefined
    ensures key in obj ==> v == obj[key]
  {
    if key in obj then obj[key] else Undefined
  }

  /** JavaScript truthiness: `undefined`, `null`, `false`, `0` and `""` are falsy. */
  predicate Truthy(v: Value) {
    match v
    case Undefined => false
    case Null => false
    case Bool(b) => b
    case Num(n) => n != 0
    case Str(s) => s != ""
    case Arr(_) => true
    case Obj(_) => true
  }

  /** Whether `String(v)` returns rather than throws. A parsed JSON object that
      has its own `toString` key hides the inherited method behind a value that
      cannot be called, and the inherited `valueOf` yields the object itself, so
      converting it throws; an array converts each of its elements. */
  predicate Convertible(v: Value)
    decreases v
  {
    match v
    case Obj(fields) => "toString" !in fields
    case Arr(items) => forall i :: 0 <= i < |items| ==> Convertible(items[i])
    case _ => true
  }

  /** The text `String(v)` yields for a convertible value. */
  function JsString(v: Value): string
    decreases v
  {
    match v
    case Undefined => "undefined"
    case Null => "null"
    case Bool(b) => if b then "true" else "false"
    case Num(n) => IntToDecimal(n)
    case Str(s) => s
    case Arr(items) => JoinElements(items)
    case Obj(_) => "[object Object]"
  }

  /** The message of the TypeError an unconvertible object throws. */
  const CannotConvert := "Cannot convert object to primitive value"

  /** `String(v)` as template literals and property lookups perform it: the
      text, or the TypeError for an unconvertible value. */
  function ToJsString(v: Value): (r: Result<string, Thrown>)
    ensures r.Success? <==> Convertible(v)
    ensures r.Success? ==> r.value == JsString(v)
    ensures r.Failure? ==> r.error == PlainError(CannotConvert)
  {
    if Convertible(v) then Success(JsString(v)) else Failure(PlainError(CannotConvert))
  }

  /** `items.join(",")`: `null` and `undefined` elements become empty strings. */
  function JoinElements(items: seq<Value>): string
    decreases items
  {
    if |items| == 0 then ""
    else
      var head := if items[0].Undefined? || items[0].Null? then "" else JsString(items[0]);
      if |items| == 1 then head else head + "," + JoinElements(items[1..])
  }

  predicate IsDigit(c: char) {
    '0' <= c <= '9'
  }

  function DigitChar(d: nat): (c: char)
    requires d < 10
    ensures IsDigit(c)
  {
    "0123456789"[d]
  }

  /** The decimal numeral of a natural number, without leading zeros. */
  function NatToDecimal(n: nat): (s: string)
    ensures |s| > 0
    ensures forall i :: 0 <= i < |s| ==> IsDigit(s[i])
    decreases n
  {
    if n < 10 then [DigitChar(n)] else NatToDecimal(n / 10) + [DigitChar(n % 10)]
  }

  /** The decimal numeral of an integer, with a leading `-` when negative. */
  function IntToDecimal(n: int): (s: string)
    ensures |s| > 0
    ensures forall i :: 0 <= i < |s| ==> IsDigit(s[i]) || s[i] == '-'
    ensures n >= 0 <==> IsDigit(s[0])
  {
    if n < 0 then "-" + NatToDecimal(-n) else NatToDecimal(n)
  }
}

/** The errors the server throws: MCP protocol errors, plain `Error`s and the
    HTTP client's errors. */
module Errors {
  import opened Wrappers

  /** The protocol error codes the gateway raises. */
  datatype ErrorCode = InvalidParams | MethodNotFound | InternalError

  /** A thrown error. `AxiosError` carries the remote body's optional `message`
      and the transport's own description. */
  datatype Thrown =
    | McpError(code: ErrorCode, text: string)
    | PlainError(text: string)
    | AxiosError(remoteMessage: Option<string>, text: string)
  {
    /** `error.message`. */
    function Message(): string {
      text
    }
  }
}
