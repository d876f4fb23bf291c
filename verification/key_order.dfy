/**
 * The order in which `Object.keys(params).sort()` arranges keys.
 *
 * With no comparator, `Array.prototype.sort` compares the string forms of
 * its elements with IsLessThan (section 7.2.13 of ECMA-262), which compares
 * the two strings code unit by code unit in their UTF-16 form; a proper
 * prefix comes first. A Dafny `char` is a Unicode scalar value, so a
 * character above U+FFFF stands for a surrogate pair here.
 */
module KeyOrder {

  /** The UTF-16 code units of one scalar value. */
  function CodeUnits(c: char): seq<int>
  {
    var cp := c as int;
    if cp < 0x1_0000 then [cp]
    else [0xD800 + (cp - 0x1_0000) / 0x400, 0xDC00 + (cp - 0x1_0000) % 0x400]
  }

  /** A string as the code unit sequence JavaScript sees. */
  function Utf16(s: string): seq<int>
  {
    if s == [] then [] else CodeUnits(s[0]) + Utf16(s[1..])
  }

  /** Lexicographic order on code unit sequences; a proper prefix is less. */
  predicate UnitsLess(u: seq<int>, v: seq<int>)
  {
    if u == [] then v != []
    else if v == [] then false
    else if u[0] == v[0] then UnitsLess(u[1..], v[1..])
    else u[0] < v[0]
  }

  /** IsLessThan on two strings: the comparison of the default `sort()`. */
  predicate CodeUnitLess(a: string, b: string)
  {
    UnitsLess(Utf16(a), Utf16(b))
  }

  /** `a` and `b` agree before position `i`, and there `a` has ended while
      `b` goes on, or `a` holds the character that ranks lower. */
  predicate DiffersAt(a: string, b: string, i: nat)
  {
    i <= |a| && i < |b| && a[..i] == b[..i] && (i < |a| ==> Rank(a[i]) < Rank(b[i]))
  }

  /** The same order read character by character (KeyLessIsCodeUnitLess):
      `a` comes first when they first differ at a position where `a` ranks
      lower or has ended. */
  predicate KeyLess(a: string, b: string)
  {
    exists i: nat | i <= |a| :: DiffersAt(a, b, i)
  }

  /** Where a character falls in code-unit order: characters below U+D800,
      then the supplementary characters (whose first unit is a high
      surrogate), then U+E000 to U+FFFF. */
  function Rank(c: char): int
  {
    var cp := c as int;
    if cp < 0xD800 then cp
    else if cp < 0x1_0000 then cp + 0x10_0000
    else cp - 0x1_0000 + 0xD800
  }

  lemma RankInjective(c: char, d: char)
    requires c != d
    ensures Rank(c) != Rank(d)
  {
  }

  /** A common prefix does not change the comparison. */
  lemma {:induction false} UnitsLessPrefix(p: seq<int>, x: seq<int>, y: seq<int>)
    ensures UnitsLess(p + x, p + y) == UnitsLess(x, y)
  {
    if p != [] {
      assert (p + x)[1..] == p[1..] + x;
      assert (p + y)[1..] == p[1..] + y;
      UnitsLessPrefix(p[1..], x, y);
    } else {
      assert p + x == x && p + y == y;
    }
  }

  /** Two different characters compare by their code units as they compare
      by Rank, whatever follows them. */
  lemma CharsCompare(c: char, d: char, x: seq<int>, y: seq<int>)
    requires c != d
    ensures UnitsLess(CodeUnits(c) + x, CodeUnits(d) + y) <==> Rank(c) < Rank(d)
  {
    var u, v := CodeUnits(c) + x, CodeUnits(d) + y;
    var cp, dp := c as int, d as int;
    assert u[0] == CodeUnits(c)[0] && v[0] == CodeUnits(d)[0];
    if cp >= 0x1_0000 && dp >= 0x1_0000 && u[0] == v[0] {
      var xc, xd := cp - 0x1_0000, dp - 0x1_0000;
      assert xc == xc / 0x400 * 0x400 + xc % 0x400;
      assert xd == xd / 0x400 * 0x400 + xd % 0x400;
      assert xc / 0x400 == xd / 0x400;
      assert u[1..][0] == 0xDC00 + xc % 0x400;
      assert v[1..][0] == 0xDC00 + xd % 0x400;
      assert xc % 0x400 != xd % 0x400;
    }
  }

  /** The key order read one character at a time. */
  lemma KeyLessStep(a: string, b: string)
    ensures a == [] ==> (KeyLess(a, b) <==> b != [])
    ensures a != [] && b == [] ==> !KeyLess(a, b)
    ensures a != [] && b != [] ==>
      (KeyLess(a, b) <==>
        if a[0] == b[0] then KeyLess(a[1..], b[1..]) else Rank(a[0]) < Rank(b[0]))
  {
    if a == [] && b != [] {
      assert DiffersAt(a, b, 0);
    } else if a != [] && b != [] {
      if a[0] == b[0] {
        if KeyLess(a, b) {
          var i: nat :| i <= |a| && DiffersAt(a, b, i);
          assert i > 0;
          assert a[1..][..i - 1] == a[..i][1..] && b[1..][..i - 1] == b[..i][1..];
          assert DiffersAt(a[1..], b[1..], i - 1);
        }
        if KeyLess(a[1..], b[1..]) {
          var j: nat :| j <= |a[1..]| && DiffersAt(a[1..], b[1..], j);
          assert a[..j + 1] == [a[0]] + a[1..][..j] && b[..j + 1] == [b[0]] + b[1..][..j];
          assert DiffersAt(a, b, j + 1);
        }
      } else {
        if KeyLess(a, b) {
          var i: nat :| i <= |a| && DiffersAt(a, b, i);
          assert i == 0;
        }
        if Rank(a[0]) < Rank(b[0]) {
          assert DiffersAt(a, b, 0);
        }
      }
    }
  }

  /** The character-by-character reading agrees with IsLessThan on code
      units. */
  lemma {:induction false} KeyLessIsCodeUnitLess(a: string, b: string)
    ensures KeyLess(a, b) <==> CodeUnitLess(a, b)
  {
    KeyLessStep(a, b);
    if a != [] && b != [] {
      assert Utf16(a) == CodeUnits(a[0]) + Utf16(a[1..]);
      assert Utf16(b) == CodeUnits(b[0]) + Utf16(b[1..]);
      if a[0] == b[0] {
        UnitsLessPrefix(CodeUnits(a[0]), Utf16(a[1..]), Utf16(b[1..]));
        KeyLessIsCodeUnitLess(a[1..], b[1..]);
      } else {
        CharsCompare(a[0], b[0], Utf16(a[1..]), Utf16(b[1..]));
      }
    } else if a == [] && b != [] {
      assert Utf16(b) == CodeUnits(b[0]) + Utf16(b[1..]);
    } else if a != [] {
      assert Utf16(a) == CodeUnits(a[0]) + Utf16(a[1..]);
    }
  }

  lemma {:induction false} KeyLessIrreflexive(a: string)
    ensures !KeyLess(a, a)
  {
    KeyLessStep(a, a);
    if a != [] {
      KeyLessIrreflexive(a[1..]);
    }
  }

  lemma {:induction false} KeyLessTransitive(a: string, b: string, c: string)
    requires KeyLess(a, b) && KeyLess(b, c)
    ensures KeyLess(a, c)
  {
    KeyLessStep(a, b);
    KeyLessStep(b, c);
    KeyLessStep(a, c);
    if a != [] && a[0] == b[0] && b[0] == c[0] {
      KeyLessTransitive(a[1..], b[1..], c[1..]);
    }
  }

  lemma {:induction false} KeyLessTotal(a: string, b: string)
    requires a != b
    ensures KeyLess(a, b) || KeyLess(b, a)
  {
    KeyLessStep(a, b);
    KeyLessStep(b, a);
    if a != [] && b != [] {
      if a[0] == b[0] {
        assert a == [a[0]] + a[1..] && b == [b[0]] + b[1..];
        KeyLessTotal(a[1..], b[1..]);
      } else {
        RankInjective(a[0], b[0]);
      }
    }
  }

  lemma KeyLessAsymmetric(a: string, b: string)
    requires KeyLess(a, b)
    ensures !KeyLess(b, a)
  {
    if KeyLess(b, a) {
      KeyLessTransitive(a, b, a);
      KeyLessIrreflexive(a);
    }
  }

  /** `a` comes before `b` when they agree up to position `i` and the
      character of `a` there ranks lower. */
  lemma KeyLessAt(a: string, b: string, i: nat)
    requires i < |a| && i < |b| && a[..i] == b[..i] && Rank(a[i]) < Rank(b[i])
    ensures KeyLess(a, b)
  {
    assert DiffersAt(a, b, i);
  }

  /** A proper prefix comes first. */
  lemma KeyLessPrefix(a: string, b: string)
    requires |a| < |b| && b[..|a|] == a
    ensures KeyLess(a, b)
  {
    assert DiffersAt(a, b, |a|);
  }
}
