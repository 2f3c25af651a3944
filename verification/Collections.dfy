/** Sums over sequences and maps, and the ascending listing of a finite set of ids. */
module Collections {

  datatype Option<+T> = None | Some(value: T)

  ghost function SumSeq<T>(s: seq<T>, f: T -> nat): nat {
    if s == [] then 0 else f(s[0]) + SumSeq(s[1..], f)
  }

  lemma {:induction false} SumSeqConcat<T>(a: seq<T>, b: seq<T>, f: T -> nat)
    ensures SumSeq(a + b, f) == SumSeq(a, f) + SumSeq(b, f)
  {
    if a == [] {
      assert a + b == b;
    } else {
      SumSeqConcat(a[1..], b, f);
      assert (a + b)[1..] == a[1..] + b;
    }
  }

  ghost function SumMap<K, V>(m: map<K, V>, f: V -> nat): nat {
    if m == map[] then 0 else
      var k :| k in m;
      f(m[k]) + SumMap(m - {k}, f)
  }

  /** Any key may be split off first: the sum does not depend on the order of removal. */
  lemma {:induction false} SumMapRemove<K, V>(m: map<K, V>, k: K, f: V -> nat)
    requires k in m
    ensures SumMap(m, f) == f(m[k]) + SumMap(m - {k}, f)
    decreases |m|
  {
    var k0 :| k0 in m && SumMap(m, f) == f(m[k0]) + SumMap(m - {k0}, f);
    if k0 != k {
      SumMapRemove(m - {k0}, k, f);
      SumMapRemove(m - {k}, k0, f);
      assert (m - {k0}) - {k} == (m - {k}) - {k0};
    }
  }

  lemma SumMapInsert<K, V>(m: map<K, V>, k: K, v: V, f: V -> nat)
    requires k !in m
    ensures SumMap(m[k := v], f) == f(v) + SumMap(m, f)
  {
    SumMapRemove(m[k := v], k, f);
    assert m[k := v] - {k} == m;
  }

  ghost predicate Ascending(s: seq<nat>) {
    forall i, j :: 0 <= i < j < |s| ==> s[i] < s[j]
  }

  predicate IsLeast(x: nat, s: set<nat>) {
    x in s && forall y :: y in s ==> x <= y
  }

  lemma {:induction false} LeastExists(s: set<nat>)
    requires s != {}
    ensures exists x :: IsLeast(x, s)
    decreases |s|
  {
    var x :| x in s;
    if s - {x} == {} {
      assert s == {x};
      assert IsLeast(x, s);
    } else {
      LeastExists(s - {x});
      var m :| IsLeast(m, s - {x});
      var l := if m < x then m else x;
      forall y | y in s ensures l <= y {
        assert y == x || y in s - {x};
      }
      assert IsLeast(l, s);
    }
  }

  function Least(s: set<nat>): (x: nat)
    requires s != {}
    ensures IsLeast(x, s)
  {
    LeastExists(s);
    var x :| IsLeast(x, s);
    x
  }

  /** The ids of a set, in ascending order. */
  function SortedIds(s: set<nat>): (r: seq<nat>)
    decreases |s|
  {
    if s == {} then [] else [Least(s)] + SortedIds(s - {Least(s)})
  }

  lemma {:induction false} SortedIdsListsTheSet(s: set<nat>)
    ensures Ascending(SortedIds(s))
    ensures forall x :: x in SortedIds(s) <==> x in s
    ensures |SortedIds(s)| == |s|
    decreases |s|
  {
    if s != {} {
      var x, t := Least(s), SortedIds(s - {Least(s)});
      SortedIdsListsTheSet(s - {x});
      var r := SortedIds(s);
      assert r == [x] + t;
      forall j | 0 < j < |r| ensures x < r[j] {
        assert r[j] == t[j - 1];
        assert t[j - 1] in t;
      }
    }
  }
}
