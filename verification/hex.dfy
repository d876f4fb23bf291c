/** Hexadecimal rendering of a digest, as `digest('hex').toUpperCase()`. */
module Hex {
  import opened Wrappers

  type Byte = b: int | 0 <= b < 0x100

  const LowerDigits: string := "0123456789abcdef"
  const UpperDigits: string := "0123456789ABCDEF"

  /** `digest('hex')` / `buffer.toString('hex')`: two lower-case digits per
      byte, high nibble first. */
  function LowerHex(bs: seq<Byte>): string
  {
    if bs == [] then ""
    else [LowerDigits[bs[0] / 16], LowerDigits[bs[0] % 16]] + LowerHex(bs[1..])
  }

  /** `String.prototype.toUpperCase` on one character of ASCII text. */
  function UpperChar(c: char): char
  {
    if 'a' <= c <= 'z' then (c as int - 32) as char else c
  }

  /** `String.prototype.toUpperCase` on ASCII text. */
  function ToUpperAscii(s: string): string
  {
    seq(|s|, i requires 0 <= i < |s| => UpperChar(s[i]))
  }

  /** The signature text: upper-cased lower-case hex. */
  function UpperHex(bs: seq<Byte>): string
  {
    ToUpperAscii(LowerHex(bs))
  }

  predicate IsUpperHex(s: string)
  {
    forall i :: 0 <= i < |s| ==> s[i] in UpperDigits
  }

  /** The value of an upper-case hex digit. */
  function DigitValue(c: char): Option<nat>
  {
    if '0' <= c <= '9' then Some(c as int - '0' as int)
    else if 'A' <= c <= 'F' then Some(c as int - 'A' as int + 10)
    else None
  }

  /** The value of a hex digit of either case. */
  function HexDigitValue(c: char): (r: Option<nat>)
    ensures r.Some? ==> r.value < 16
  {
    if '0' <= c <= '9' then Some(c as int - '0' as int)
    else if 'a' <= c <= 'f' then Some(c as int - 'a' as int + 10)
    else if 'A' <= c <= 'F' then Some(c as int - 'A' as int + 10)
    else None
  }

  /** Reads upper-case hex text back into bytes: the inverse of UpperHex. */
  function ParseUpperHex(s: string): Option<seq<Byte>>
  {
    if s == [] then Some([])
    else if |s| == 1 then None
    else
      var hi :- DigitValue(s[0]);
      var lo :- DigitValue(s[1]);
      var rest :- ParseUpperHex(s[2..]);
      Some([(hi * 16 + lo) % 0x100] + rest)
  }

  lemma UpperDigit(d: nat)
    requires d < 16
    ensures UpperChar(LowerDigits[d]) == UpperDigits[d]
    ensures DigitValue(UpperDigits[d]) == Some(d)
    ensures HexDigitValue(UpperDigits[d]) == Some(d)
    ensures HexDigitValue(LowerDigits[d]) == Some(d)
  {
  }

  lemma {:induction false} UpperHexCons(bs: seq<Byte>)
    requires bs != []
    ensures UpperHex(bs) == [UpperDigits[bs[0] / 16], UpperDigits[bs[0] % 16]] + UpperHex(bs[1..])
  {
    UpperDigit(bs[0] / 16);
    UpperDigit(bs[0] % 16);
  }

  /** Two upper-case hex digits per byte. */
  lemma {:induction false} UpperHexShape(bs: seq<Byte>)
    ensures |UpperHex(bs)| == 2 * |bs|
    ensures IsUpperHex(UpperHex(bs))
  {
    if bs != [] {
      UpperHexCons(bs);
      UpperHexShape(bs[1..]);
    }
  }

  lemma Nibbles(b: Byte)
    ensures b / 16 < 16 && b % 16 < 16 && b / 16 * 16 + b % 16 == b
  {
  }

  /** Parsing reads two digits into one byte and goes on with the rest. */
  lemma ParsePair(hi: nat, lo: nat, t: string)
    requires hi < 16 && lo < 16
    ensures ParseUpperHex([UpperDigits[hi], UpperDigits[lo]] + t) ==
      match ParseUpperHex(t)
      case None => None
      case Some(rest) => Some([hi * 16 + lo] + rest)
  {
    var s := [UpperDigits[hi], UpperDigits[lo]] + t;
    UpperDigit(hi);
    UpperDigit(lo);
    assert s[2..] == t;
  }

  /** The hex text determines the bytes it was made from. */
  lemma {:induction false} UpperHexRoundTrip(bs: seq<Byte>)
    ensures ParseUpperHex(UpperHex(bs)) == Some(bs)
  {
    if bs != [] {
      var hi, lo := bs[0] / 16, bs[0] % 16;
      Nibbles(bs[0]);
      var tail := UpperHex(bs[1..]);
      assert UpperHex(bs) == [UpperDigits[hi], UpperDigits[lo]] + tail by {
        UpperHexCons(bs);
      }
      UpperHexRoundTrip(bs[1..]);
      ParsePair(hi, lo, tail);
      assert bs == [bs[0]] + bs[1..];
    }
  }
}
