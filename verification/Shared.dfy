/** Small shared types, and the JavaScript Map that several components lean on for its order. */
module Wrappers {
  datatype Option<+T> = None | Some(value: T) {
    function GetOr(default: T): T {
      match this
      case Some(v) => v
      case None => default
    }
  }

  datatype Result<+T, +E> = Ok(value: T) | Err(error: E)
}

/** Cardinality of finite sets, and the largest of a set of integers. */
module FiniteSets {
  lemma {:induction false} HasMember(ids: set<int>)
    requires ids != {}
    ensures exists x :: x in ids
  {
    assert (forall x :: x !in ids) ==> ids == {};
  }

  lemma {:induction false} MaxExists(ids: set<int>) returns (m: int)
    requires ids != {}
    ensures m in ids && forall j :: j in ids ==> j <= m
  {
    HasMember(ids);
    var x :| x in ids;
    var rest := ids - {x};
    m := x;
    if rest != {} {
      var y := MaxExists(rest);
      m := if y < x then x else y;
    }
    assert forall j :: j in ids ==> j == x || j in rest;
  }

  function Max(ids: set<int>): (m: int)
    requires ids != {}
    ensures m in ids && forall j :: j in ids ==> j <= m
  {
    assert exists m :: m in ids && forall j :: j in ids ==> j <= m by {
      var m := MaxExists(ids);
    }
    var m :| m in ids && forall j :: j in ids ==> j <= m;
    m
  }

  lemma {:induction false} SubsetCard<T>(a: set<T>, b: set<T>)
    requires a <= b
    ensures |a| <= |b|
  {
    if a != {} {
      var x :| x in a;
      SubsetCard(a - {x}, b - {x});
    }
  }
}

/** Functions that go over a list from the front. */
module Folds {
  /** What puts together something for each element, in order, can be taken apart anywhere. */
  lemma {:induction false} PiecewiseAppend<C(!new), D>(run: seq<C> -> seq<D>, piece: C -> seq<D>, a: seq<C>, b: seq<C>)
    requires run([]) == []
    requires forall c, more :: run([c] + more) == piece(c) + run(more)
    ensures run(a + b) == run(a) + run(b)
    decreases |a|
  {
    if a == [] {
      assert a + b == b;
    } else {
      var c, rest := a[0], a[1..];
      PiecewiseAppend(run, piece, rest, b);
      assert a == [c] + rest && a + b == [c] + (rest + b);
      assert piece(c) + (run(rest) + run(b)) == piece(c) + run(rest) + run(b);
    }
  }
}

module JsText {
  /** JavaScript's `\s`, also what `trim` removes. */
  predicate IsSpace(ch: char) {
    ch == ' ' || ('\t' <= ch <= '\r') || ch == '\U{00A0}' || ch == '\U{1680}' || ('\U{2000}' <= ch <= '\U{200A}')
    || ch == '\U{2028}' || ch == '\U{2029}' || ch == '\U{202F}' || ch == '\U{205F}' || ch == '\U{3000}'
        || ch == '\U{FEFF}'
  }

  function Trim(s: string): string {
    if s == [] then ""
    else if IsSpace(s[0]) then Trim(s[1..])
    else if IsSpace(s[|s| - 1]) then Trim(s[..|s| - 1])
    else s
  }
}

/**
 A JavaScript Map as the sequence its iterator yields: keys in insertion order. Re-setting a
 present key keeps its place; deleting and setting again moves it to the end.
 */
module JsMap {
  import opened Wrappers

  type Entries<K, V> = seq<(K, V)>

  function Keys<K(==), V>(m: Entries<K, V>): set<K> {
    if m == [] then {} else {m[0].0} + Keys(m[1..])
  }

  function Lookup<K(==), V>(m: Entries<K, V>, k: K): Option<V> {
    if m == [] then None
    else if m[0].0 == k then Some(m[0].1)
    else Lookup(m[1..], k)
  }

  /** `delete(k)` */
  function Delete<K(==), V>(m: Entries<K, V>, k: K): Entries<K, V> {
    if m == [] then []
    else if m[0].0 == k then Delete(m[1..], k)
    else [m[0]] + Delete(m[1..], k)
  }

  /** `set(k, v)` */
  function Put<K(==), V>(m: Entries<K, V>, k: K, v: V): Entries<K, V> {
    if m == [] then [(k, v)]
    else if m[0].0 == k then [(k, v)] + m[1..]
    else [m[0]] + Put(m[1..], k, v)
  }

  /** Every key once: what the runtime guarantees of a Map, kept by every operation below. */
  ghost predicate Distinct<K, V>(m: Entries<K, V>) {
    m == [] || (m[0].0 !in Keys(m[1..]) && Distinct(m[1..]))
  }

  lemma {:induction false} LookupKeys<K, V>(m: Entries<K, V>, k: K)
    ensures Lookup(m, k).Some? <==> k in Keys(m)
    ensures forall p :: p in m ==> p.0 in Keys(m)
    ensures Lookup(m, k).Some? ==> (k, Lookup(m, k).value) in m
  {
    if m != [] {
      LookupKeys(m[1..], k);
      assert m == [m[0]] + m[1..];
    }
  }

  lemma {:induction false} LookupOnly<K, V>(m: Entries<K, V>, p: (K, V))
    requires Distinct(m) && p in m
    ensures Lookup(m, p.0) == Some(p.1)
  {
    if m[0] != p {
      assert p in m[1..];
      LookupKeys(m[1..], p.0);
      LookupOnly(m[1..], p);
    }
  }

  lemma {:induction false} DeleteEffect<K, V>(m: Entries<K, V>, k: K)
    ensures Keys(Delete(m, k)) == Keys(m) - {k}
    ensures forall p :: p in Delete(m, k) <==> p in m && p.0 != k
    ensures forall j :: Lookup(Delete(m, k), j) == if j == k then None else Lookup(m, j)
    ensures Distinct(m) ==> Distinct(Delete(m, k))
    ensures |Delete(m, k)| <= |m|
    ensures Distinct(m) && k in Keys(m) ==> |Delete(m, k)| == |m| - 1
    ensures k !in Keys(m) ==> Delete(m, k) == m
  {
    if m != [] {
      DeleteEffect(m[1..], k);
      assert m == [m[0]] + m[1..];
    }
  }

  lemma {:induction false} PutEffect<K, V>(m: Entries<K, V>, k: K, v: V)
    ensures Keys(Put(m, k, v)) == Keys(m) + {k}
    ensures forall j :: Lookup(Put(m, k, v), j) == if j == k then Some(v) else Lookup(m, j)
    ensures Distinct(m) ==> Distinct(Put(m, k, v))
    ensures |Put(m, k, v)| == if k in Keys(m) then |m| else |m| + 1
    ensures k !in Keys(m) ==> Put(m, k, v) == m + [(k, v)]
    ensures forall p :: p in Put(m, k, v) ==> p == (k, v) || p in m
  {
    if m != [] {
      PutEffect(m[1..], k, v);
      assert m == [m[0]] + m[1..];
      var t := Put(m, k, v);
      assert t == [t[0]] + t[1..];
    }
  }

  lemma {:induction false} KeysAppend<K, V>(a: Entries<K, V>, b: Entries<K, V>)
    ensures Keys(a + b) == Keys(a) + Keys(b)
  {
    if a == [] {
      assert a + b == b;
    } else {
      KeysAppend(a[1..], b);
      assert (a + b)[1..] == a[1..] + b;
    }
  }

  lemma {:induction false} DistinctAppend<K, V>(a: Entries<K, V>, b: Entries<K, V>)
    ensures Keys(a + b) == Keys(a) + Keys(b)
    ensures Distinct(a + b) <==> Distinct(a) && Distinct(b) && Keys(a) !! Keys(b)
  {
    KeysAppend(a, b);
    if a == [] {
      assert a + b == b;
    } else {
      var tail := a[1..];
      DistinctAppend(tail, b);
      var whole := a + b;
      assert whole[0] == a[0] && whole[1..] == tail + b;
      assert Keys(a) == {a[0].0} + Keys(tail);
    }
  }

  lemma {:induction false} LookupAppend<K, V>(a: Entries<K, V>, b: Entries<K, V>, k: K)
    ensures Lookup(a + b, k) == if k in Keys(a) then Lookup(a, k) else Lookup(b, k)
  {
    if a == [] {
      assert a + b == b;
    } else {
      LookupAppend(a[1..], b, k);
      assert (a + b)[1..] == a[1..] + b;
      assert a == [a[0]] + a[1..];
    }
  }

  lemma {:induction false} DeleteCons<K, V>(p: (K, V), m: Entries<K, V>, k: K)
    ensures Delete([p] + m, k) == if p.0 == k then Delete(m, k) else [p] + Delete(m, k)
  {
    assert ([p] + m)[1..] == m;
  }

  lemma {:induction false} DeleteAppend<K, V>(a: Entries<K, V>, b: Entries<K, V>, k: K)
    ensures Delete(a + b, k) == Delete(a, k) + Delete(b, k)
  {
    if a == [] {
      assert a + b == b;
    } else {
      var p, tail := a[0], a[1..];
      DeleteAppend(tail, b, k);
      assert a + b == [p] + (tail + b);
      DeleteCons(p, tail + b, k);
      var kept, more := Delete(tail, k), Delete(b, k);
      assert [p] + (kept + more) == [p] + kept + more;
    }
  }

  /** Deleting another key works on both sides of an entry. */
  lemma {:induction false} DeleteAround<K, V>(a: Entries<K, V>, k: K, v: V, b: Entries<K, V>, other: K)
    requires other != k
    ensures Delete(a + [(k, v)] + b, other) == Delete(a, other) + [(k, v)] + Delete(b, other)
  {
    DeleteAppend(a + [(k, v)], b, other);
    DeleteAppend(a, [(k, v)], other);
    assert [(k, v)][1..] == [];
    assert Delete([(k, v)], other) == [(k, v)];
  }

  lemma {:induction false} DistinctCard<K, V>(m: Entries<K, V>)
    requires Distinct(m)
    ensures |Keys(m)| == |m|
  {
    if m != [] {
      DistinctCard(m[1..]);
      assert m == [m[0]] + m[1..];
      assert Keys(m) == {m[0].0} + Keys(m[1..]);
    }
  }
}
