/**
 * A plain JavaScript object as an ordered list of own properties.
 *
 * For string keys that are not array indices, ECMAScript keeps the own
 * properties of an ordinary object in insertion order: `Object.keys`,
 * object spread, `JSON.stringify` and `new URLSearchParams(obj)` all visit
 * them in that order. An object literal `{ a: x, ...o, b: y }` defines its
 * properties one after the other; defining a key that already exists
 * replaces its value but leaves it where it was.
 */
module Record {
  import opened Wrappers

  type Entries<T> = seq<(string, T)>

  /** The keys, in property order (`Object.keys`). */
  function Keys<T>(m: Entries<T>): seq<string>
  {
    seq(|m|, i requires 0 <= i < |m| => m[i].0)
  }

  /** A JavaScript object never holds the same key twice. */
  predicate DistinctKeys<T>(m: Entries<T>)
  {
    forall i, j :: 0 <= i < j < |m| ==> m[i].0 != m[j].0
  }

  /** Property lookup `m[k]`; `None` stands for `undefined`. */
  function Get<T>(m: Entries<T>, k: string): Option<T>
  {
    if m == [] then None
    else if m[0].0 == k then Some(m[0].1)
    else Get(m[1..], k)
  }

  /** Defining one property, `{ ...m, [k]: v }`: an existing key keeps its
      position and takes the new value, a new key goes at the end. */
  function Put<T>(m: Entries<T>, k: string, v: T): Entries<T>
  {
    if m == [] then [(k, v)]
    else if m[0].0 == k then [(k, v)] + m[1..]
    else [m[0]] + Put(m[1..], k, v)
  }

  /** Defining a property keeps every key where it was and appends a new one. */
  lemma {:induction false} PutKeys<T>(m: Entries<T>, k: string, v: T)
    ensures Keys(Put(m, k, v)) == if k in Keys(m) then Keys(m) else Keys(m) + [k]
  {
    if m != [] {
      assert Keys(m) == [m[0].0] + Keys(m[1..]);
      if m[0].0 == k {
        assert Keys(m)[0] == k;
      } else {
        PutKeys(m[1..], k, v);
        assert Keys([m[0]] + Put(m[1..], k, v)) == [m[0].0] + Keys(Put(m[1..], k, v));
      }
    }
  }

  /** After defining `k`, a lookup of `k` finds the new value and every other
      lookup is unchanged. */
  lemma {:induction false} PutGet<T>(m: Entries<T>, k: string, v: T, j: string)
    ensures Get(Put(m, k, v), j) == if j == k then Some(v) else Get(m, j)
  {
    if m != [] && m[0].0 != k {
      PutGet(m[1..], k, v, j);
    }
  }

  /** Defining `k` leaves every property with another key in its place. */
  lemma {:induction false} PutKeeps<T>(m: Entries<T>, k: string, v: T, i: nat)
    requires i < |m| && m[i].0 != k
    ensures i < |Put(m, k, v)| && Put(m, k, v)[i] == m[i]
  {
    if i > 0 && m[0].0 != k {
      PutKeeps(m[1..], k, v, i - 1);
    } else if i > 0 {
      assert Put(m, k, v)[i] == m[1..][i - 1];
    }
  }

  /** Defining a property keeps the keys distinct. */
  lemma {:induction false} PutDistinct<T>(m: Entries<T>, k: string, v: T)
    requires DistinctKeys(m)
    ensures DistinctKeys(Put(m, k, v))
  {
    var r := Put(m, k, v);
    PutKeys(m, k, v);
    forall i, j | 0 <= i < j < |r| ensures r[i].0 != r[j].0 {
      assert Keys(r)[i] == r[i].0 && Keys(r)[j] == r[j].0;
      if k !in Keys(m) && j == |m| {
        assert Keys(m)[i] == r[i].0;
      } else {
        assert Keys(m)[i] == r[i].0 && Keys(m)[j] == r[j].0;
      }
    }
  }

  /** The keys that spreading `kb` onto an object with keys `ka` appends. */
  function Fresh(ka: seq<string>, kb: seq<string>): seq<string>
    decreases |kb|
  {
    if kb == [] then []
    else if kb[0] in ka then Fresh(ka, kb[1..])
    else [kb[0]] + Fresh(ka + [kb[0]], kb[1..])
  }

  /** Object spread `{ ...a, ...b }`: the properties of `b` are defined on a
      copy of `a`, one by one in `b`'s order. */
  function Spread<T>(a: Entries<T>, b: Entries<T>): Entries<T>
    decreases |b|
  {
    if b == [] then a else Spread(Put(a, b[0].0, b[0].1), b[1..])
  }

  /** Spread keeps the keys of `a` where they were and appends the new keys
      of `b`, in `b`'s order. */
  lemma {:induction false} SpreadKeys<T>(a: Entries<T>, b: Entries<T>)
    ensures Keys(Spread(a, b)) == Keys(a) + Fresh(Keys(a), Keys(b))
    decreases |b|
  {
    if b != [] {
      var a' := Put(a, b[0].0, b[0].1);
      assert Keys(b) == [b[0].0] + Keys(b[1..]);
      PutKeys(a, b[0].0, b[0].1);
      SpreadKeys(a', b[1..]);
    }
  }

  /** The later object wins: a key of `b` takes `b`'s value, any other key
      keeps `a`'s. */
  lemma {:induction false} SpreadGet<T>(a: Entries<T>, b: Entries<T>, k: string)
    requires DistinctKeys(b)
    ensures Get(Spread(a, b), k) == if k in Keys(b) then Get(b, k) else Get(a, k)
    decreases |b|
  {
    if b != [] {
      var a' := Put(a, b[0].0, b[0].1);
      DistinctTail(b);
      PutGet(a, b[0].0, b[0].1, k);
      SpreadGet(a', b[1..], k);
    }
  }

  /** A property of `a` whose key `b` does not define is left in place. */
  lemma {:induction false} SpreadKeepsEntry<T>(a: Entries<T>, b: Entries<T>, i: nat)
    requires i < |a| && a[i].0 !in Keys(b)
    ensures i < |Spread(a, b)| && Spread(a, b)[i] == a[i]
    decreases |b|
  {
    if b != [] {
      var a' := Put(a, b[0].0, b[0].1);
      assert Keys(b) == [b[0].0] + Keys(b[1..]);
      PutKeeps(a, b[0].0, b[0].1, i);
      PutKeys(a, b[0].0, b[0].1);
      SpreadKeepsEntry(a', b[1..], i);
    }
  }

  /** Spreading onto an object keeps its keys distinct. */
  lemma {:induction false} SpreadDistinct<T>(a: Entries<T>, b: Entries<T>)
    requires DistinctKeys(a)
    ensures DistinctKeys(Spread(a, b))
    decreases |b|
  {
    if b != [] {
      PutDistinct(a, b[0].0, b[0].1);
      SpreadDistinct(Put(a, b[0].0, b[0].1), b[1..]);
    }
  }

  /** No key of `b` is a key of `a`. */
  predicate DisjointKeys<T>(a: Entries<T>, b: Entries<T>)
  {
    forall i, j :: 0 <= i < |a| && 0 <= j < |b| ==> a[i].0 != b[j].0
  }

  /** Spreading an object whose keys are all new appends its properties. */
  lemma {:induction false} SpreadDisjoint<T>(a: Entries<T>, b: Entries<T>)
    requires DisjointKeys(a, b) && DistinctKeys(b)
    ensures Spread(a, b) == a + b
    decreases |b|
  {
    if b != [] {
      var a' := a + [b[0]];
      assert Spread(a, b) == Spread(a', b[1..]) by {
        assert b[0].0 !in Keys(a);
        PutAbsent(a, b[0].0, b[0].1);
      }
      assert DisjointKeys(a', b[1..]) by {
        forall i, j | 0 <= i < |a'| && 0 <= j < |b| - 1 ensures a'[i].0 != b[1..][j].0 {
          assert b[1..][j] == b[j + 1];
        }
      }
      assert DistinctKeys(b[1..]) by { DistinctTail(b); }
      SpreadDisjoint(a', b[1..]);
      assert a' + b[1..] == a + b;
    }
  }

  /** The tail of an object with distinct keys has distinct keys and does
      not hold the head's key. */
  lemma DistinctTail<T>(b: Entries<T>)
    requires b != [] && DistinctKeys(b)
    ensures DistinctKeys(b[1..]) && b[0].0 !in Keys(b[1..])
    ensures Keys(b) == [b[0].0] + Keys(b[1..])
  {
    assert Keys(b) == [b[0].0] + Keys(b[1..]);
  }

  /** Defining a key the object does not have appends it. */
  lemma {:induction false} PutAbsent<T>(m: Entries<T>, k: string, v: T)
    requires k !in Keys(m)
    ensures Put(m, k, v) == m + [(k, v)]
  {
    if m != [] {
      assert Keys(m) == [m[0].0] + Keys(m[1..]);
      PutAbsent(m[1..], k, v);
      assert [m[0]] + (m[1..] + [(k, v)]) == m + [(k, v)];
    }
  }

  /** The property stored at a known position is what a lookup finds. */
  lemma {:induction false} GetAt<T>(m: Entries<T>, i: nat)
    requires i < |m| && DistinctKeys(m)
    ensures Get(m, m[i].0) == Some(m[i].1)
  {
    if i > 0 {
      assert m[1..][i - 1] == m[i];
      GetAt(m[1..], i - 1);
    }
  }

  /** A lookup of a key that is present finds the property holding it. */
  lemma {:induction false} GetPresent<T>(m: Entries<T>, k: string)
    requires k in Keys(m)
    ensures Get(m, k).Some? && (k, Get(m, k).value) in m
  {
    if m[0].0 != k {
      assert Keys(m) == [m[0].0] + Keys(m[1..]);
      GetPresent(m[1..], k);
    }
  }

  /** A lookup finds a value exactly when the key is present. */
  lemma {:induction false} GetDefined<T>(m: Entries<T>, k: string)
    ensures Get(m, k).Some? <==> k in Keys(m)
  {
    if m != [] {
      assert Keys(m) == [m[0].0] + Keys(m[1..]);
      GetDefined(m[1..], k);
    }
  }

  /** Defining a key the object already has replaces its value where it
      stands. */
  lemma {:induction false} PutPresent<T>(m: Entries<T>, i: nat, v: T)
    requires i < |m| && forall j :: 0 <= j < i ==> m[j].0 != m[i].0
    ensures Put(m, m[i].0, v) == m[..i] + [(m[i].0, v)] + m[i + 1..]
  {
    if i > 0 {
      assert m[1..][i - 1] == m[i];
      PutPresent(m[1..], i - 1, v);
      assert m[1..][..i - 1] == m[1..i] && m[1..][i..] == m[i + 1..];
      assert [m[0]] + (m[1..i] + [(m[i].0, v)] + m[i + 1..]) == m[..i] + [(m[i].0, v)] + m[i + 1..];
    }
  }
}
