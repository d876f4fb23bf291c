/**
 * Sorting the keys of a parameter set. The engine's sort algorithm is not
 * specified by ECMA-262, but for keys that are all different and an order
 * that is strict and total every correct sort returns the same sequence
 * (IncreasingUnique), so an insertion sort stands for it here.
 */
module KeySort {
  import opened KeyOrder

  predicate Increasing(ks: seq<string>)
  {
    forall i, j :: 0 <= i < j < |ks| ==> KeyLess(ks[i], ks[j])
  }

  predicate Distinct(ks: seq<string>)
  {
    forall i, j :: 0 <= i < j < |ks| ==> ks[i] != ks[j]
  }

  function Insert(k: string, ks: seq<string>): seq<string>
  {
    if ks == [] then [k]
    else if KeyLess(ks[0], k) then [ks[0]] + Insert(k, ks[1..])
    else [k] + ks
  }

  lemma {:induction false} InsertPermutes(k: string, ks: seq<string>)
    ensures multiset(Insert(k, ks)) == multiset(ks) + multiset{k}
  {
    if ks != [] && KeyLess(ks[0], k) {
      InsertPermutes(k, ks[1..]);
      assert ks == [ks[0]] + ks[1..];
    }
  }

  lemma {:induction false} InsertIncreasing(k: string, ks: seq<string>)
    requires Increasing(ks) && k !in ks
    ensures Increasing(Insert(k, ks))
  {
    if ks != [] {
      if KeyLess(ks[0], k) {
        InsertIncreasing(k, ks[1..]);
        InsertPermutes(k, ks[1..]);
        var r := Insert(k, ks[1..]);
        forall j | 0 <= j < |r| ensures KeyLess(ks[0], r[j]) {
          assert r[j] in multiset(r);
          if r[j] != k {
            assert r[j] in ks[1..];
          }
        }
      } else {
        assert k != ks[0];
        KeyLessTotal(k, ks[0]);
        forall j | 0 <= j < |ks| ensures KeyLess(k, ks[j]) {
          if j > 0 {
            KeyLessTransitive(k, ks[0], ks[j]);
          }
        }
      }
    }
  }

  /** `Object.keys(params).sort()`: the same keys, in increasing order when
      they are all different (as the keys of an object are). */
  function SortKeys(ks: seq<string>): (r: seq<string>)
    ensures multiset(r) == multiset(ks)
    ensures Distinct(ks) ==> Increasing(r)
  {
    if ks == [] then []
    else
      var rest := SortKeys(ks[1..]);
      InsertPermutes(ks[0], rest);
      assert ks == [ks[0]] + ks[1..];
      if Distinct(ks) then
        assert Distinct(ks[1..]);
        assert ks[0] !in multiset(ks[1..]);
        InsertIncreasing(ks[0], rest);
        Insert(ks[0], rest)
      else
        Insert(ks[0], rest)
  }

  /** Two increasing sequences with the same elements are equal. */
  lemma {:induction false} IncreasingUnique(a: seq<string>, b: seq<string>)
    requires Increasing(a) && Increasing(b)
    requires forall k :: k in a <==> k in b
    ensures a == b
  {
    if a != [] { assert a[0] in a; }
    if b != [] { assert b[0] in b; }
    if a != [] && b != [] {
      assert a[0] in b && b[0] in a;
      if a[0] != b[0] {
        var i :| 0 <= i < |b| && b[i] == a[0];
        var j :| 0 <= j < |a| && a[j] == b[0];
        assert KeyLess(b[0], a[0]);
        assert KeyLess(a[0], b[0]);
        KeyLessAsymmetric(a[0], b[0]);
        assert false;
      }
      forall k ensures k in a[1..] <==> k in b[1..] {
        if k in a[1..] {
          var i :| 1 <= i < |a| && a[i] == k;
          KeyLessIrreflexive(k);
          assert k != a[0];
          assert k in b;
        }
        if k in b[1..] {
          var i :| 1 <= i < |b| && b[i] == k;
          KeyLessIrreflexive(k);
          assert k != b[0];
          assert k in a;
        }
      }
      IncreasingUnique(a[1..], b[1..]);
      assert a == [a[0]] + a[1..] && b == [b[0]] + b[1..];
    }
  }

  /** Sorting keys that are already increasing changes nothing. */
  lemma SortIncreasing(ks: seq<string>)
    requires Increasing(ks)
    ensures SortKeys(ks) == ks
  {
    forall i, j | 0 <= i < j < |ks| ensures ks[i] != ks[j] {
      KeyLessIrreflexive(ks[i]);
    }
    var r := SortKeys(ks);
    forall k ensures k in r <==> k in ks {
      assert k in r <==> k in multiset(r);
    }
    IncreasingUnique(r, ks);
  }

  /** Each key comes before the next one. */
  predicate Adjacent(ks: seq<string>)
  {
    forall i :: 0 <= i < |ks| - 1 ==> KeyLess(ks[i], ks[i + 1])
  }

  /** Two chains in order, the last key of the first before the first key
      of the second, make one chain. */
  lemma AdjacentJoin(a: seq<string>, b: seq<string>)
    requires Adjacent(a) && Adjacent(b)
    requires a != [] && b != [] && KeyLess(a[|a| - 1], b[0])
    ensures Adjacent(a + b)
  {
    var ab := a + b;
    forall i | 0 <= i < |ab| - 1 ensures KeyLess(ab[i], ab[i + 1]) {
      if i >= |a| {
        assert ab[i] == b[i - |a|] && ab[i + 1] == b[i - |a| + 1];
      }
    }
  }

  /** Adjacent order is enough for increasing order. */
  lemma {:induction false} IncreasingFromAdjacent(ks: seq<string>)
    requires Adjacent(ks)
    ensures Increasing(ks)
  {
    if |ks| > 1 {
      IncreasingFromAdjacent(ks[1..]);
      forall j | 1 <= j < |ks| ensures KeyLess(ks[0], ks[j]) {
        if j > 1 {
          assert KeyLess(ks[1], ks[j]) by { assert ks[1..][0] == ks[1] && ks[1..][j - 1] == ks[j]; }
          KeyLessTransitive(ks[0], ks[1], ks[j]);
        }
      }
      forall i, j | 0 <= i < j < |ks| ensures KeyLess(ks[i], ks[j]) {
        if i > 0 {
          assert ks[1..][i - 1] == ks[i] && ks[1..][j - 1] == ks[j];
        }
      }
    }
  }
}
