/**
 * A parser for the compact JSON text that `JSON.stringify` produces from
 * the values of module Js. It is the inverse against which the
 * serialisation is checked: every value comes back from its text
 * (StringifyRoundTrip), so the text of a nested payload determines the
 * payload, keys and their order included.
 */
module JsonParse {
  import opened Wrappers
  import opened Hex
  import opened Decimal
  import opened Js

  /** The escape sequence that follows a backslash: the character it stands
      for and how many characters it takes. Surrogate escapes are refused,
      since the strings here hold scalar values only. */
  function Unescape(t: string): (r: Option<(char, nat)>)
    ensures r.Some? ==> 1 <= r.value.1 <= |t|
  {
    if t == [] then None
    else if t[0] == 'b' then Some((8 as char, 1))
    else if t[0] == 't' then Some((9 as char, 1))
    else if t[0] == 'n' then Some((10 as char, 1))
    else if t[0] == 'f' then Some((12 as char, 1))
    else if t[0] == 'r' then Some((13 as char, 1))
    else if t[0] == '"' || t[0] == '\\' || t[0] == '/' then Some((t[0], 1))
    else if t[0] == 'u' && |t| >= 5 then
      var a :- HexDigitValue(t[1]);
      var b :- HexDigitValue(t[2]);
      var c :- HexDigitValue(t[3]);
      var d :- HexDigitValue(t[4]);
      var n := ((a * 16 + b) * 16 + c) * 16 + d;
      if n < 0xD800 || 0xE000 <= n < 0x1_0000 then Some((n as char, 5)) else None
    else None
  }

  /** The rest of a string after its opening quote: its contents and what
      follows the closing quote. */
  function ParseStringBody(s: string): (r: Option<(string, string)>)
    ensures r.Some? ==> |r.value.1| < |s|
    decreases |s|
  {
    if s == [] then None
    else if s[0] == '"' then Some(("", s[1..]))
    else if s[0] == '\\' then
      var e :- Unescape(s[1..]);
      var tail :- ParseStringBody(s[1 + e.1..]);
      Some(([e.0] + tail.0, tail.1))
    else if s[0] as int < 0x20 then None
    else
      var tail :- ParseStringBody(s[1..]);
      Some(([s[0]] + tail.0, tail.1))
  }

  /** The number of decimal digits at the start of `s`. */
  function DigitRun(s: string): (k: nat)
    ensures k <= |s|
    ensures forall i :: 0 <= i < k ==> IsDigit(s[i])
    ensures k < |s| ==> !IsDigit(s[k])
  {
    if s == [] || !IsDigit(s[0]) then 0 else 1 + DigitRun(s[1..])
  }

  /** A string, number or boolean at the start of `s`, and the text after it. */
  function ParseScalar(s: string): (r: Option<(Value, string)>)
    ensures r.Some? ==> |r.value.1| < |s|
  {
    if s == [] then None
    else if s[0] == '"' then
      var str :- ParseStringBody(s[1..]);
      Some((JString(str.0), str.1))
    else if IsDigit(s[0]) then
      var k := DigitRun(s);
      if s[0] == '0' && k > 1 then None
      else Some((JNumber(DigitsValue(s[..k])), s[k..]))
    else if |s| >= 4 && s[..4] == "true" then Some((JBool(true), s[4..]))
    else if |s| >= 5 && s[..5] == "false" then Some((JBool(false), s[5..]))
    else None
  }

  /** A value at the start of `s`, and the text after it. */
  function ParseValue(s: string): (r: Option<(Value, string)>)
    ensures r.Some? ==> |r.value.1| < |s|
    decreases |s|, 3
  {
    if s == [] then None
    else if s[0] == '[' then ParseArray(s[1..])
    else if s[0] == '{' then ParseObject(s[1..])
    else ParseScalar(s)
  }

  /** An array after its `[`, and the text after its `]`. */
  function ParseArray(t: string): (r: Option<(Value, string)>)
    ensures r.Some? ==> |r.value.1| < |t|
    decreases |t|, 5
  {
    if |t| >= 1 && t[0] == ']' then Some((JArray([]), t[1..]))
    else
      var items :- ParseItems(t);
      Some((JArray(items.0), items.1))
  }

  /** An object after its `{`, and the text after its `}`. */
  function ParseObject(t: string): (r: Option<(Value, string)>)
    ensures r.Some? ==> |r.value.1| < |t|
    decreases |t|, 6
  {
    if |t| >= 1 && t[0] == '}' then Some((JObject([]), t[1..]))
    else
      var members :- ParseMembers(t);
      Some((JObject(members.0), members.1))
  }

  /** The elements of a non-empty array and the text after its `]`. */
  function ParseItems(s: string): (r: Option<(seq<Value>, string)>)
    ensures r.Some? ==> |r.value.1| < |s|
    decreases |s|, 4
  {
    var first :- ParseValue(s);
    var t := first.1;
    if t == [] then None
    else if t[0] == ']' then Some(([first.0], t[1..]))
    else if t[0] == ',' then
      var more :- ParseItems(t[1..]);
      Some(([first.0] + more.0, more.1))
    else None
  }

  /** One property, `"key":value`, and the text after it. */
  function ParseMember(s: string): (r: Option<((string, Value), string)>)
    ensures r.Some? ==> |r.value.1| < |s|
    decreases |s|, 4
  {
    if s == [] || s[0] != '"' then None
    else
      var key :- ParseStringBody(s[1..]);
      var t := key.1;
      if t == [] || t[0] != ':' then None
      else
        var value :- ParseValue(t[1..]);
        Some(((key.0, value.0), value.1))
  }

  /** The properties of a non-empty object and the text after its `}`. */
  function ParseMembers(s: string): (r: Option<(seq<(string, Value)>, string)>)
    ensures r.Some? ==> |r.value.1| < |s|
    decreases |s|, 5
  {
    var first :- ParseMember(s);
    var t := first.1;
    if t == [] then None
    else if t[0] == '}' then Some(([first.0], t[1..]))
    else if t[0] == ',' then
      var more :- ParseMembers(t[1..]);
      Some(([first.0] + more.0, more.1))
    else None
  }

  /** `JSON.parse` on the compact text of a value. */
  function Parse(text: string): Option<Value>
  {
    match ParseValue(text)
    case Some((v, rest)) => if rest == "" then Some(v) else None
    case None => None
  }

  /** Text that cannot continue a number. */
  predicate Delimited(rest: string)
  {
    rest == [] || !IsDigit(rest[0])
  }

  /** What parsing the text of one more character gives. */
  function Prepend(c: char, r: Option<(string, string)>): Option<(string, string)>
  {
    match r
    case Some((body, rest)) => Some(([c] + body, rest))
    case None => None
  }

  lemma ShortEscapeRoundTrip(c: char, t: string)
    requires var n := c as int;
      n == 0x08 || n == 0x09 || n == 0x0A || n == 0x0C || n == 0x0D || c == '"' || c == '\\'
    ensures ParseStringBody(EscapeChar(c) + t) == Prepend(c, ParseStringBody(t))
  {
    var s := EscapeChar(c) + t;
    assert |EscapeChar(c)| == 2 && EscapeChar(c)[0] == '\\';
    assert s[1..] == [s[1]] + t;
    assert Unescape(s[1..]) == Some((c, 1));
    assert s[2..] == t;
  }

  lemma LowerDigitValue(k: nat)
    requires k < 16
    ensures HexDigitValue(LowerDigits[k]) == Some(k)
  {
  }

  lemma UnicodeEscapeRoundTrip(c: char, t: string)
    requires var n := c as int;
      n < 0x20 && n != 0x08 && n != 0x09 && n != 0x0A && n != 0x0C && n != 0x0D
    ensures ParseStringBody(EscapeChar(c) + t) == Prepend(c, ParseStringBody(t))
  {
    var n := c as int;
    var s := EscapeChar(c) + t;
    assert EscapeChar(c) == "\\u00" + [LowerDigits[n / 16], LowerDigits[n % 16]];
    var u := s[1..];
    assert u[0] == 'u' && u[1] == '0' && u[2] == '0';
    assert u[3] == LowerDigits[n / 16] && u[4] == LowerDigits[n % 16];
    LowerDigitValue(n / 16);
    LowerDigitValue(n % 16);
    assert ((0 * 16 + 0) * 16 + n / 16) * 16 + n % 16 == n;
    assert Unescape(u) == Some((c, 5));
    assert s[6..] == t;
  }

  lemma PlainCharRoundTrip(c: char, t: string)
    requires c as int >= 0x20 && c != '"' && c != '\\'
    ensures ParseStringBody(EscapeChar(c) + t) == Prepend(c, ParseStringBody(t))
  {
    var s := EscapeChar(c) + t;
    assert EscapeChar(c) == [c];
    assert s[1..] == t;
  }

  lemma EscapeCharRoundTrip(c: char, t: string)
    ensures ParseStringBody(EscapeChar(c) + t) == Prepend(c, ParseStringBody(t))
  {
    var n := c as int;
    if n == 0x08 || n == 0x09 || n == 0x0A || n == 0x0C || n == 0x0D || c == '"' || c == '\\' {
      ShortEscapeRoundTrip(c, t);
    } else if n < 0x20 {
      UnicodeEscapeRoundTrip(c, t);
    } else {
      PlainCharRoundTrip(c, t);
    }
  }

  lemma {:induction false} QuoteBodyRoundTrip(s: string, rest: string)
    ensures ParseStringBody(QuoteBody(s) + "\"" + rest) == Some((s, rest))
  {
    if s == [] {
      assert QuoteBody(s) + "\"" + rest == "\"" + rest;
    } else {
      var t := QuoteBody(s[1..]) + "\"" + rest;
      assert QuoteBody(s) + "\"" + rest == EscapeChar(s[0]) + t;
      QuoteBodyRoundTrip(s[1..], rest);
      EscapeCharRoundTrip(s[0], t);
      assert [s[0]] + s[1..] == s;
    }
  }

  /** The text of a value starts with a character that tells its kind. */
  lemma StringifyStart(v: Value)
    ensures |Stringify(v)| > 0
    ensures Stringify(v)[0] != ']' && Stringify(v)[0] != '}' && Stringify(v)[0] != ','
  {
    match v
    case JNumber(n) =>
      assert IsDigit(NumberText(n)[0]);
    case _ =>
  }

  lemma {:induction false} DigitRunAppend(d: string, rest: string)
    requires forall i :: 0 <= i < |d| ==> IsDigit(d[i])
    requires Delimited(rest)
    ensures DigitRun(d + rest) == |d|
  {
    if d != [] {
      assert (d + rest)[0] == d[0];
      assert (d + rest)[1..] == d[1..] + rest;
      DigitRunAppend(d[1..], rest);
    } else {
      assert d + rest == rest;
    }
  }

  lemma NumberRoundTrip(n: nat, rest: string)
    requires Delimited(rest)
    ensures ParseValue(NumberText(n) + rest) == Some((JNumber(n), rest))
  {
    var d := NumberText(n);
    var s := d + rest;
    assert s[0] == d[0];
    DigitRunAppend(d, rest);
    assert s[..|d|] == d && s[|d|..] == rest;
    NumberTextRoundTrip(n);
  }

  lemma StringRoundTrip(str: string, rest: string)
    ensures ParseValue(Stringify(JString(str)) + rest) == Some((JString(str), rest))
  {
    var body := QuoteBody(str) + "\"" + rest;
    var s := Stringify(JString(str)) + rest;
    assert s == ['"'] + body;
    HeadAndTail('"', body);
    QuoteBodyRoundTrip(str, rest);
    assert ParseScalar(s) == Some((JString(str), rest));
  }

  lemma BoolRoundTrip(b: bool, rest: string)
    ensures ParseValue(Stringify(JBool(b)) + rest) == Some((JBool(b), rest))
  {
    var s := Stringify(JBool(b)) + rest;
    if b {
      assert s[..4] == "true" && s[4..] == rest;
    } else {
      assert s[..5] == "false" && s[5..] == rest;
    }
  }

  /** Parsing the text of a value, followed by anything that cannot
      continue it, gives the value back and leaves that text. */
  lemma {:induction false} ValueRoundTrip(v: Value, rest: string)
    requires Delimited(rest)
    ensures ParseValue(Stringify(v) + rest) == Some((v, rest))
    decreases v
  {
    match v
    case JString(str) =>
      StringRoundTrip(str, rest);
    case JNumber(n) =>
      NumberRoundTrip(n, rest);
    case JBool(b) =>
      BoolRoundTrip(b, rest);
    case JArray(items) =>
      if items != [] {
        ItemsRoundTrip(items, rest);
      }
      ArrayText(items, rest);
    case JObject(members) =>
      if members != [] {
        MembersRoundTrip(members, rest);
      }
      ObjectText(members, rest);
  }

  /** An array's text parses back once its elements' text does. */
  lemma ArrayText(items: seq<Value>, rest: string)
    requires items != [] ==> ParseItems(StringifyItems(items) + "]" + rest) == Some((items, rest))
    ensures ParseValue(Stringify(JArray(items)) + rest) == Some((JArray(items), rest))
  {
    var body := StringifyItems(items) + "]" + rest;
    assert Stringify(JArray(items)) == "[" + StringifyItems(items) + "]";
    WrapRegroup("[", StringifyItems(items), "]", rest);
    ParseAfterOpen('[', body);
    ArrayBody(items, rest);
  }

  lemma ArrayBody(items: seq<Value>, rest: string)
    requires items != [] ==> ParseItems(StringifyItems(items) + "]" + rest) == Some((items, rest))
    ensures ParseArray(StringifyItems(items) + "]" + rest) == Some((JArray(items), rest))
  {
    var body := StringifyItems(items) + "]" + rest;
    if items == [] {
      assert body == "]" + rest;
      HeadAndTail(']', rest);
    } else {
      ItemsStart(items);
      FirstOfConcat(StringifyItems(items), "]" + rest);
    }
  }

  /** An object's text parses back once its properties' text does. */
  lemma ObjectText(members: seq<(string, Value)>, rest: string)
    requires members != [] ==> ParseMembers(StringifyMembers(members) + "}" + rest) == Some((members, rest))
    ensures ParseValue(Stringify(JObject(members)) + rest) == Some((JObject(members), rest))
  {
    var body := StringifyMembers(members) + "}" + rest;
    assert Stringify(JObject(members)) == "{" + StringifyMembers(members) + "}";
    WrapRegroup("{", StringifyMembers(members), "}", rest);
    ParseAfterOpen('{', body);
    ObjectBody(members, rest);
  }

  lemma ObjectBody(members: seq<(string, Value)>, rest: string)
    requires members != [] ==> ParseMembers(StringifyMembers(members) + "}" + rest) == Some((members, rest))
    ensures ParseObject(StringifyMembers(members) + "}" + rest) == Some((JObject(members), rest))
  {
    var body := StringifyMembers(members) + "}" + rest;
    if members == [] {
      assert body == "}" + rest;
      HeadAndTail('}', rest);
    } else {
      MembersStart(members);
      FirstOfConcat(StringifyMembers(members), "}" + rest);
    }
  }

  lemma ParseAfterOpen(open: char, body: string)
    requires open == '[' || open == '{'
    ensures ParseValue([open] + body) == if open == '[' then ParseArray(body) else ParseObject(body)
  {
    var s := [open] + body;
    assert s[0] == open && s[1..] == body;
  }

  lemma ItemsStart(items: seq<Value>)
    requires items != []
    ensures |StringifyItems(items)| > 0 && StringifyItems(items)[0] != ']'
  {
    var h := Stringify(items[0]);
    StringifyStart(items[0]);
    if |items| > 1 {
      var tail := "," + StringifyItems(items[1..]);
      assert StringifyItems(items) == h + tail;
      FirstOfConcat(h, tail);
    }
  }

  lemma MembersStart(members: seq<(string, Value)>)
    requires members != []
    ensures |StringifyMembers(members)| > 0 && StringifyMembers(members)[0] == '"'
  {
    var m := members[0];
    var h := StringifyMember(m);
    var after := QuoteBody(m.0) + "\"" + ":" + Stringify(m.1);
    assert h == "\"" + after;
    FirstOfConcat("\"", after);
    if |members| > 1 {
      var tail := "," + StringifyMembers(members[1..]);
      assert StringifyMembers(members) == h + tail;
      FirstOfConcat(h, tail);
    }
  }

  lemma FirstOfConcat(h: string, t: string)
    requires h != []
    ensures |h + t| > 0 && (h + t)[0] == h[0]
  {
  }

  lemma {:induction false} ItemsRoundTrip(items: seq<Value>, rest: string)
    requires items != []
    ensures ParseItems(StringifyItems(items) + "]" + rest) == Some((items, rest))
    decreases items
  {
    var v := items[0];
    if |items| == 1 {
      assert StringifyItems(items) == Stringify(v);
      ValueRoundTrip(v, "]" + rest);
      LastItemRoundTrip(v, rest);
      assert [v] == items;
    } else {
      var more := StringifyItems(items[1..]);
      var tail := more + "]" + rest;
      assert StringifyItems(items) == Stringify(v) + "," + more;
      ListRegroup(Stringify(v), more, "]", rest);
      ItemsRoundTrip(items[1..], rest);
      ValueRoundTrip(v, "," + tail);
      NextItemRoundTrip(v, tail);
      assert [v] + items[1..] == items;
    }
  }

  lemma MemberText(m: (string, Value), rest: string)
    ensures var s := StringifyMember(m) + rest;
      s[0] == '"' && s[1..] == QuoteBody(m.0) + "\"" + (":" + (Stringify(m.1) + rest))
  {
    var q, v := QuoteBody(m.0), Stringify(m.1);
    assert StringifyMember(m) == QuoteJsonString(m.0) + ":" + v;
    assert QuoteJsonString(m.0) == "\"" + q + "\"";
    Regroup("\"", q, "\"", ":", v, rest);
    HeadAndTail('"', q + "\"" + (":" + (v + rest)));
  }

  lemma WrapRegroup(open: string, inner: string, close: string, rest: string)
    ensures (open + inner + close) + rest == open + (inner + close + rest)
  {
  }

  lemma ListRegroup(h: string, more: string, close: string, rest: string)
    ensures (h + "," + more) + close + rest == h + "," + (more + close + rest)
  {
  }

  lemma Regroup(a: string, b: string, c: string, d: string, e: string, f: string)
    ensures (a + b + c) + d + e + f == a + (b + c + (d + (e + f)))
  {
  }

  lemma HeadAndTail(c: char, t: string)
    ensures ([c] + t)[0] == c && ([c] + t)[1..] == t
  {
  }

  lemma LastItemRoundTrip(v: Value, rest: string)
    requires ParseValue(Stringify(v) + ("]" + rest)) == Some((v, "]" + rest))
    ensures ParseItems(Stringify(v) + "]" + rest) == Some(([v], rest))
  {
    assert Stringify(v) + "]" + rest == Stringify(v) + ("]" + rest);
    assert ("]" + rest)[1..] == rest;
  }

  lemma NextItemRoundTrip(v: Value, tail: string)
    requires ParseValue(Stringify(v) + ("," + tail)) == Some((v, "," + tail))
    ensures ParseItems(Stringify(v) + "," + tail) ==
      match ParseItems(tail)
      case None => None
      case Some(more) => Some(([v] + more.0, more.1))
  {
    assert Stringify(v) + "," + tail == Stringify(v) + ("," + tail);
    assert ("," + tail)[1..] == tail;
  }

  lemma {:induction false} MemberRoundTrip(m: (string, Value), rest: string)
    requires Delimited(rest)
    ensures ParseMember(StringifyMember(m) + rest) == Some((m, rest))
    decreases m
  {
    var v := Stringify(m.1) + rest;
    var t := ":" + v;
    var s := StringifyMember(m) + rest;
    MemberText(m, rest);
    QuoteBodyRoundTrip(m.0, t);
    assert t[0] == ':' && t[1..] == v;
    ValueRoundTrip(m.1, rest);
    KeyThenValue(s, m.0, t);
  }

  /** A property whose key and value parse one after the other. */
  lemma KeyThenValue(s: string, key: string, t: string)
    requires s != [] && s[0] == '"' && ParseStringBody(s[1..]) == Some((key, t))
    requires t != [] && t[0] == ':'
    ensures ParseMember(s) == match ParseValue(t[1..])
      case None => None
      case Some(value) => Some(((key, value.0), value.1))
  {
  }

  lemma LastMemberRoundTrip(m: (string, Value), rest: string)
    requires ParseMember(StringifyMember(m) + ("}" + rest)) == Some((m, "}" + rest))
    ensures ParseMembers(StringifyMember(m) + "}" + rest) == Some(([m], rest))
  {
    assert StringifyMember(m) + "}" + rest == StringifyMember(m) + ("}" + rest);
    assert ("}" + rest)[1..] == rest;
  }

  lemma NextMemberRoundTrip(m: (string, Value), tail: string)
    requires ParseMember(StringifyMember(m) + ("," + tail)) == Some((m, "," + tail))
    ensures ParseMembers(StringifyMember(m) + "," + tail) ==
      match ParseMembers(tail)
      case None => None
      case Some(more) => Some(([m] + more.0, more.1))
  {
    assert StringifyMember(m) + "," + tail == StringifyMember(m) + ("," + tail);
    assert ("," + tail)[1..] == tail;
  }

  lemma {:induction false} MembersRoundTrip(members: seq<(string, Value)>, rest: string)
    requires members != []
    ensures ParseMembers(StringifyMembers(members) + "}" + rest) == Some((members, rest))
    decreases members
  {
    var m := members[0];
    if |members| == 1 {
      assert StringifyMembers(members) == StringifyMember(m);
      MemberRoundTrip(m, "}" + rest);
      LastMemberRoundTrip(m, rest);
      assert [m] == members;
    } else {
      var more := StringifyMembers(members[1..]);
      var tail := more + "}" + rest;
      assert StringifyMembers(members) == StringifyMember(m) + "," + more;
      ListRegroup(StringifyMember(m), more, "}", rest);
      MembersRoundTrip(members[1..], rest);
      MemberRoundTrip(m, "," + tail);
      NextMemberRoundTrip(m, tail);
      assert [m] + members[1..] == members;
    }
  }

  /** `JSON.parse(JSON.stringify(v))` gives `v` back. */
  lemma StringifyRoundTrip(v: Value)
    ensures Parse(Stringify(v)) == Some(v)
  {
    ValueRoundTrip(v, "");
    assert Stringify(v) + "" == Stringify(v);
  }

  /** Different values have different texts. */
  lemma StringifyInjective(v: Value, w: Value)
    requires Stringify(v) == Stringify(w)
    ensures v == w
  {
    StringifyRoundTrip(v);
    StringifyRoundTrip(w);
  }
}
