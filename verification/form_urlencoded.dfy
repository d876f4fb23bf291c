/**
 * The application/x-www-form-urlencoded format of the WHATWG URL Standard
 * (section 5): how `new URLSearchParams(obj).toString()` writes the query
 * string and the POST body, and the parser that reads such text back.
 */
module FormUrlEncoded {
  import opened Wrappers
  import opened Hex
  import Utf8

  /** Name-value pairs, in order. */
  type Pairs = seq<(string, string)>

  /** The bytes outside the form-urlencoded percent-encode set: ASCII
      alphanumerics and `*`, `-`, `.`, `_`. */
  predicate Unreserved(b: Byte)
  {
    0x30 <= b <= 0x39 || 0x41 <= b <= 0x5A || 0x61 <= b <= 0x7A
    || b == 0x2A || b == 0x2D || b == 0x2E || b == 0x5F
  }

  /** One byte of a name or value: a space becomes `+`, an unreserved byte
      stays, any other byte becomes `%` and two upper-case hex digits. */
  function EncodeByte(b: Byte): string
  {
    if b == 0x20 then "+"
    else if Unreserved(b) then [b as char]
    else ['%', UpperDigits[b / 16], UpperDigits[b % 16]]
  }

  function EncodeBytes(bs: seq<Byte>): string
  {
    if bs == [] then "" else EncodeByte(bs[0]) + EncodeBytes(bs[1..])
  }

  /** Percent-encode after encoding: the UTF-8 bytes of `s`, each written
      as above. */
  function EncodeComponent(s: string): string
  {
    EncodeBytes(Utf8.Encode(s))
  }

  function SerializePair(p: (string, string)): string
  {
    EncodeComponent(p.0) + "=" + EncodeComponent(p.1)
  }

  /** The application/x-www-form-urlencoded serializer (section 5.2):
      `name=value` for each pair, joined by `&`. */
  function Serialize(ps: Pairs): string
  {
    if ps == [] then ""
    else if |ps| == 1 then SerializePair(ps[0])
    else SerializePair(ps[0]) + "&" + Serialize(ps[1..])
  }

  /** The position of the first `c` in `s`, or `|s|` when there is none. */
  function IndexOf(s: string, c: char): (i: nat)
    ensures i <= |s|
    ensures i < |s| ==> s[i] == c
    ensures forall j :: 0 <= j < i ==> s[j] != c
  {
    if s == [] || s[0] == c then 0 else 1 + IndexOf(s[1..], c)
  }

  /** Percent-decoding with `+` read as a space: `%` and two hex digits
      give one byte, any other character its UTF-8 bytes. */
  function DecodeBytes(t: string): seq<Byte>
  {
    if t == [] then []
    else if t[0] == '+' then [0x20] + DecodeBytes(t[1..])
    else if t[0] == '%' && |t| >= 3 && HexDigitValue(t[1]).Some? && HexDigitValue(t[2]).Some? then
      [HexDigitValue(t[1]).value * 16 + HexDigitValue(t[2]).value] + DecodeBytes(t[3..])
    else Utf8.EncodeChar(t[0]) + DecodeBytes(t[1..])
  }

  function DecodeComponent(t: string): Option<string>
  {
    Utf8.Decode(DecodeBytes(t))
  }

  /** One `name=value` sequence, split at its first `=`; without one, the
      value is empty. */
  function ParsePair(t: string): Option<(string, string)>
  {
    var i := IndexOf(t, '=');
    var name :- DecodeComponent(t[..i]);
    var value :- DecodeComponent(if i < |t| then t[i + 1..] else "");
    Some((name, value))
  }

  /** The application/x-www-form-urlencoded parser (section 5.1): the
      sequences between `&`s, empty ones skipped. It answers `None` where
      the standard would put U+FFFD for bytes that are not UTF-8. */
  function Parse(s: string): Option<Pairs>
    decreases |s|
  {
    if s == [] then Some([])
    else
      var i := IndexOf(s, '&');
      var rest :- if i < |s| then Parse(s[i + 1..]) else Some([]);
      if i == 0 then Some(rest)
      else
        var p :- ParsePair(s[..i]);
        Some([p] + rest)
  }

  /** The text of one byte reads back as that byte, whatever follows. */
  lemma EncodeByteDecode(b: Byte, t: string)
    ensures DecodeBytes(EncodeByte(b) + t) == [b] + DecodeBytes(t)
  {
    var s := EncodeByte(b) + t;
    if b == 0x20 {
      assert s[1..] == t;
    } else if Unreserved(b) {
      assert s[0] == b as char && s[1..] == t;
    } else {
      UpperDigit(b / 16);
      UpperDigit(b % 16);
      assert s[0] == '%' && s[1] == UpperDigits[b / 16] && s[2] == UpperDigits[b % 16];
      assert s[3..] == t;
    }
  }

  lemma {:induction false} DecodeEncodeBytes(bs: seq<Byte>)
    ensures DecodeBytes(EncodeBytes(bs)) == bs
  {
    if bs != [] {
      EncodeByteDecode(bs[0], EncodeBytes(bs[1..]));
      DecodeEncodeBytes(bs[1..]);
      assert [bs[0]] + bs[1..] == bs;
    }
  }

  /** Text with no `&` and no `=` of its own. */
  predicate NoSeparator(t: string)
  {
    forall i :: 0 <= i < |t| ==> t[i] != '&' && t[i] != '='
  }

  lemma EncodeBytePlain(b: Byte)
    ensures NoSeparator(EncodeByte(b))
  {
    if b != 0x20 && !Unreserved(b) {
      var t := EncodeByte(b);
      assert t[1] in UpperDigits && t[2] in UpperDigits;
    }
  }

  /** Encoded text holds no `&` or `=` of its own: those bytes are
      percent-encoded. */
  lemma {:induction false} EncodeBytesPlain(bs: seq<Byte>)
    ensures NoSeparator(EncodeBytes(bs))
  {
    if bs != [] {
      EncodeBytePlain(bs[0]);
      EncodeBytesPlain(bs[1..]);
      var h := EncodeByte(bs[0]);
      var t := EncodeBytes(bs[1..]);
      assert EncodeBytes(bs) == h + t;
      assert forall i :: 0 <= i < |h + t| ==> (h + t)[i] == if i < |h| then h[i] else t[i - |h|];
    }
  }

  /** A component decodes back to the string it encodes. */
  lemma ComponentRoundTrip(s: string)
    ensures DecodeComponent(EncodeComponent(s)) == Some(s)
    ensures NoSeparator(EncodeComponent(s))
  {
    DecodeEncodeBytes(Utf8.Encode(s));
    Utf8.DecodeEncode(s);
    EncodeBytesPlain(Utf8.Encode(s));
  }

  lemma IndexOfAfter(a: string, c: char, b: string)
    requires forall i :: 0 <= i < |a| ==> a[i] != c
    ensures IndexOf(a + [c] + b, c) == |a|
  {
    var s := a + [c] + b;
    assert s[|a|] == c;
    assert forall j :: 0 <= j < |a| ==> s[j] == a[j];
  }

  lemma IndexOfAbsent(a: string, c: char)
    requires forall i :: 0 <= i < |a| ==> a[i] != c
    ensures IndexOf(a, c) == |a|
  {
  }

  lemma PairRoundTrip(p: (string, string))
    ensures ParsePair(SerializePair(p)) == Some(p)
    ensures |SerializePair(p)| > 0
    ensures forall i :: 0 <= i < |SerializePair(p)| ==> SerializePair(p)[i] != '&'
  {
    var a := EncodeComponent(p.0);
    var b := EncodeComponent(p.1);
    ComponentRoundTrip(p.0);
    ComponentRoundTrip(p.1);
    var t := SerializePair(p);
    IndexOfAfter(a, '=', b);
    assert t[..|a|] == a && t[|a| + 1..] == b;
    assert forall i :: 0 <= i < |t| ==> t[i] != '&' by {
      forall i | 0 <= i < |t|
        ensures t[i] != '&'
      {
        if i < |a| {
          assert t[i] == a[i];
        } else if i > |a| {
          assert t[i] == b[i - |a| - 1];
        }
      }
    }
  }

  /** `new URLSearchParams(new URLSearchParams(ps).toString())` holds the
      same pairs in the same order: the serializer loses nothing. */
  lemma {:induction false} SerializeRoundTrip(ps: Pairs)
    ensures Parse(Serialize(ps)) == Some(ps)
  {
    if ps != [] {
      var head := SerializePair(ps[0]);
      PairRoundTrip(ps[0]);
      if |ps| == 1 {
        IndexOfAbsent(head, '&');
        assert Serialize(ps) == head;
        assert head[..|head|] == head;
        assert [ps[0]] + [] == ps;
      } else {
        var s := Serialize(ps);
        assert s == head + "&" + Serialize(ps[1..]);
        IndexOfAfter(head, '&', Serialize(ps[1..]));
        assert s[..|head|] == head && s[|head| + 1..] == Serialize(ps[1..]);
        SerializeRoundTrip(ps[1..]);
        assert [ps[0]] + ps[1..] == ps;
      }
    }
  }

  /** Different pair lists serialize differently. */
  lemma SerializeInjective(ps: Pairs, qs: Pairs)
    requires Serialize(ps) == Serialize(qs)
    ensures ps == qs
  {
    SerializeRoundTrip(ps);
    SerializeRoundTrip(qs);
  }
}
