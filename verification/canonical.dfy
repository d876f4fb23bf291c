/**
 * The canonical string that is signed: the keys of the parameter set in
 * sorted order, each followed by its value, with no separators.
 */
module Canonical {
  import opened Wrappers
  import opened Record
  import opened KeyOrder
  import opened KeySort

  /** A flat set of request parameters whose values are all strings
      (`Record<string, string>`), in property order. */
  type ParamSet = Entries<string>

  /** `${params[k]}`: the value, or the text of `undefined` when the key is
      missing (which the canonicaliser never asks for). */
  function Lookup(ps: ParamSet, k: string): string
  {
    match Get(ps, k)
    case Some(v) => v
    case None => "undefined"
  }

  /** `keys.map(k => `${k}${params[k]}`).join('')` */
  function Concatenate(ks: seq<string>, ps: ParamSet): string
  {
    if ks == [] then "" else ks[0] + Lookup(ps, ks[0]) + Concatenate(ks[1..], ps)
  }

  /** `generateSignature`'s string: `Object.keys(params).sort()`, then each
      key followed by its value. */
  function Canonicalize(ps: ParamSet): string
  {
    Concatenate(SortKeys(Keys(ps)), ps)
  }

  /** Each entry's key followed by its value, in the entries' own order. */
  function Flatten(ps: ParamSet): string
  {
    if ps == [] then "" else ps[0].0 + ps[0].1 + Flatten(ps[1..])
  }

  lemma {:induction false} ConcatenateEntries(s: ParamSet, ps: ParamSet)
    requires DistinctKeys(ps)
    requires forall e :: e in s ==> e in ps
    ensures Concatenate(Keys(s), ps) == Flatten(s)
  {
    if s != [] {
      assert Keys(s) == [s[0].0] + Keys(s[1..]);
      assert s[0] in s;
      var i :| 0 <= i < |ps| && ps[i] == s[0];
      GetAt(ps, i);
      ConcatenateEntries(s[1..], ps);
    }
  }

  /** The canonical string is the concatenation of `key + value` over the
      entries taken in increasing key order. */
  lemma CanonicalIsSortedConcatenation(ps: ParamSet, sorted: ParamSet)
    requires DistinctKeys(ps)
    requires Increasing(Keys(sorted))
    requires forall e :: e in ps <==> e in sorted
    ensures Canonicalize(ps) == Flatten(sorted)
  {
    var ks := Keys(ps);
    assert Distinct(ks);
    var r := SortKeys(ks);
    forall k ensures k in r <==> k in Keys(sorted) {
      assert k in r <==> k in multiset(r);
      if k in ks {
        var i :| 0 <= i < |ps| && ks[i] == k;
        assert ps[i] in sorted;
        var j :| 0 <= j < |sorted| && sorted[j] == ps[i];
        assert Keys(sorted)[j] == k;
      }
      if k in Keys(sorted) {
        var j :| 0 <= j < |sorted| && Keys(sorted)[j] == k;
        assert sorted[j] in ps;
        var i :| 0 <= i < |ps| && ps[i] == sorted[j];
        assert ks[i] == k;
      }
    }
    IncreasingUnique(r, Keys(sorted));
    ConcatenateEntries(sorted, ps);
  }

  /** The same, with the order of the keys checked pair by adjacent pair. */
  lemma CanonicalOfChain(ps: ParamSet, sorted: ParamSet)
    requires DistinctKeys(ps)
    requires Adjacent(Keys(sorted))
    requires forall e :: e in ps <==> e in sorted
    ensures Canonicalize(ps) == Flatten(sorted)
  {
    IncreasingFromAdjacent(Keys(sorted));
    CanonicalIsSortedConcatenation(ps, sorted);
  }

  /** The entries of `ps` rearranged in increasing key order. */
  function SortedEntries(ps: ParamSet): ParamSet
  {
    var ks := SortKeys(Keys(ps));
    seq(|ks|, i requires 0 <= i < |ks| => (ks[i], Lookup(ps, ks[i])))
  }

  lemma SortedEntriesSame(ps: ParamSet)
    requires DistinctKeys(ps)
    ensures Increasing(Keys(SortedEntries(ps)))
    ensures forall e :: e in ps <==> e in SortedEntries(ps)
  {
    var ks := SortKeys(Keys(ps));
    var s := SortedEntries(ps);
    assert Distinct(Keys(ps));
    assert Keys(s) == ks;
    forall e ensures e in ps <==> e in s {
      if e in ps {
        var i :| 0 <= i < |ps| && ps[i] == e;
        assert Keys(ps)[i] == e.0;
        assert e.0 in multiset(ks);
        var j :| 0 <= j < |ks| && ks[j] == e.0;
        GetAt(ps, i);
        assert s[j] == e;
      }
      if e in s {
        var j :| 0 <= j < |s| && s[j] == e;
        assert ks[j] in multiset(Keys(ps));
        GetPresent(ps, ks[j]);
      }
    }
  }

  /** The canonical string depends only on the key/value pairs, not on the
      order in which they were inserted. */
  lemma CanonicalIgnoresOrder(p: ParamSet, q: ParamSet)
    requires DistinctKeys(p) && DistinctKeys(q)
    requires forall e :: e in p <==> e in q
    ensures Canonicalize(p) == Canonicalize(q)
  {
    SortedEntriesSame(p);
    CanonicalIsSortedConcatenation(p, SortedEntries(p));
    CanonicalIsSortedConcatenation(q, SortedEntries(p));
  }

  /** Keys are sorted before concatenation. */
  lemma SortExample()
    ensures Canonicalize([("b", "2"), ("a", "1")]) == "a1b2"
  {
    var sorted := [("a", "1"), ("b", "2")];
    KeyLessAt("a", "b", 0);
    CanonicalOfChain([("b", "2"), ("a", "1")], sorted);
  }
}
