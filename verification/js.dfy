/**
 * The JavaScript values that the request builders put into parameters:
 * strings, safe non-negative integers, booleans, arrays and plain objects
 * (whose properties are kept in insertion order), together with the two
 * ways the scripts turn them into text: ToString (`.toString()`, template
 * literals) and `JSON.stringify`.
 */
module Js {
  import opened Hex
  import opened Decimal

  datatype Value =
    | JString(s: string)
    | JNumber(n: nat)
    | JBool(b: bool)
    | JArray(items: seq<Value>)
    | JObject(members: seq<(string, Value)>)

  /** ToString (section 7.1.17 of ECMA-262), as `.toString()` computes it. */
  function ToJsString(v: Value): string
    decreases v
  {
    match v
    case JString(s) => s
    case JNumber(n) => NumberText(n)
    case JBool(b) => BoolText(b)
    case JArray(items) => JoinItems(items)
    case JObject(_) => "[object Object]"
  }

  /** Array.prototype.toString: the elements' strings joined with commas. */
  function JoinItems(items: seq<Value>): string
    decreases items
  {
    if items == [] then ""
    else if |items| == 1 then ToJsString(items[0])
    else ToJsString(items[0]) + "," + JoinItems(items[1..])
  }

  /** One character of QuoteJSONString: the short escapes, `\u00XX` with
      lower-case hex for the other control characters, the character itself
      otherwise. */
  function EscapeChar(c: char): string
  {
    var n := c as int;
    if n == 0x08 then "\\b"
    else if n == 0x09 then "\\t"
    else if n == 0x0A then "\\n"
    else if n == 0x0C then "\\f"
    else if n == 0x0D then "\\r"
    else if c == '"' then "\\\""
    else if c == '\\' then "\\\\"
    else if n < 0x20 then "\\u00" + [LowerDigits[n / 16], LowerDigits[n % 16]]
    else [c]
  }

  function QuoteBody(s: string): string
  {
    if s == [] then "" else EscapeChar(s[0]) + QuoteBody(s[1..])
  }

  /** QuoteJSONString (section 25.5.2 of ECMA-262). */
  function QuoteJsonString(s: string): string
  {
    "\"" + QuoteBody(s) + "\""
  }

  /** `JSON.stringify(v)` with no replacer and no indentation:
      SerializeJSONProperty, SerializeJSONArray and SerializeJSONObject
      (section 25.5.2 of ECMA-262) on the values above. */
  function Stringify(v: Value): string
    decreases v
  {
    match v
    case JString(s) => QuoteJsonString(s)
    case JNumber(n) => NumberText(n)
    case JBool(b) => BoolText(b)
    case JArray(items) => "[" + StringifyItems(items) + "]"
    case JObject(members) => "{" + StringifyMembers(members) + "}"
  }

  /** The elements of an array, separated by commas. */
  function StringifyItems(items: seq<Value>): string
    decreases items
  {
    if items == [] then ""
    else if |items| == 1 then Stringify(items[0])
    else Stringify(items[0]) + "," + StringifyItems(items[1..])
  }

  /** One property of an object: its quoted key, a colon, its value. */
  function StringifyMember(m: (string, Value)): string
    decreases m
  {
    QuoteJsonString(m.0) + ":" + Stringify(m.1)
  }

  /** The properties of an object, separated by commas. */
  function StringifyMembers(members: seq<(string, Value)>): string
    decreases members
  {
    if members == [] then ""
    else if |members| == 1 then StringifyMember(members[0])
    else StringifyMember(members[0]) + "," + StringifyMembers(members[1..])
  }
}
