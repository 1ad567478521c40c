/**
 * A stable descending sort by a real-valued key: the behaviour of Python's
 * `list.sort(key=..., reverse=True)`, which keeps elements with equal keys
 * in their original order.
 */
module Sorting {

  /** Descending by `key`. */
  ghost predicate SortedDesc<T>(s: seq<T>, key: T -> real)
  {
    forall i, j :: 0 <= i < j < |s| ==> key(s[i]) >= key(s[j])
  }

  /** The elements of `s` whose key is exactly `v`, in order. */
  function WithKey<T>(s: seq<T>, key: T -> real, v: real): (r: seq<T>)
    ensures |r| <= |s|
  {
    if s == [] then []
    else if key(s[0]) == v then [s[0]] + WithKey(s[1..], key, v)
    else WithKey(s[1..], key, v)
  }

  /** Insert `x` in front of the first element whose key does not exceed its own. */
  function Insert<T>(x: T, s: seq<T>, key: T -> real): seq<T>
  {
    if s == [] || key(x) >= key(s[0]) then [x] + s
    else [s[0]] + Insert(x, s[1..], key)
  }

  /** Insertion sort; earlier elements are inserted ahead of later ones with equal key. */
  function SortDesc<T>(s: seq<T>, key: T -> real): seq<T>
  {
    if s == [] then [] else Insert(s[0], SortDesc(s[1..], key), key)
  }

  /** Inserting adds exactly `x`. */
  lemma {:induction false} InsertPerm<T>(x: T, s: seq<T>, key: T -> real)
    ensures multiset(Insert(x, s, key)) == multiset(s) + multiset{x}
    ensures |Insert(x, s, key)| == |s| + 1
  {
    if s != [] && key(x) < key(s[0]) {
      InsertPerm(x, s[1..], key);
      assert s == [s[0]] + s[1..];
    }
  }

  /** The first element after inserting is `x` or the old first element. */
  lemma InsertHead<T>(x: T, s: seq<T>, key: T -> real)
    ensures |Insert(x, s, key)| > 0
    ensures Insert(x, s, key)[0] == x || (s != [] && Insert(x, s, key)[0] == s[0])
  {
  }

  /** Inserting into a descending sequence keeps it descending. */
  lemma {:induction false} InsertSorted<T>(x: T, s: seq<T>, key: T -> real)
    requires SortedDesc(s, key)
    ensures SortedDesc(Insert(x, s, key), key)
  {
    if s != [] && key(x) < key(s[0]) {
      var t := Insert(x, s[1..], key);
      InsertSorted(x, s[1..], key);
      InsertHead(x, s[1..], key);
      assert Insert(x, s, key) == [s[0]] + t;
      assert key(s[0]) >= key(t[0]);
      assert forall j :: 0 <= j < |t| ==> key(s[0]) >= key(t[j]);
    }
  }

  lemma {:induction false} InsertWithKey<T>(x: T, s: seq<T>, key: T -> real, v: real)
    requires SortedDesc(s, key)
    ensures WithKey(Insert(x, s, key), key, v)
         == if key(x) == v then [x] + WithKey(s, key, v) else WithKey(s, key, v)
  {
    if s == [] || key(x) >= key(s[0]) {
      assert ([x] + s)[1..] == s;
    } else {
      InsertWithKey(x, s[1..], key, v);
      assert ([s[0]] + Insert(x, s[1..], key))[1..] == Insert(x, s[1..], key);
      if key(x) == v {
        // s[0] has a larger key than x, so it is not among the elements keyed v
        assert key(s[0]) != v;
      }
    }
  }

  /** The sort is ordered, a permutation, and stable: every key class keeps its order. */
  lemma {:induction false} SortDescFacts<T>(s: seq<T>, key: T -> real)
    ensures SortedDesc(SortDesc(s, key), key)
    ensures multiset(SortDesc(s, key)) == multiset(s)
    ensures |SortDesc(s, key)| == |s|
    ensures forall v :: WithKey(SortDesc(s, key), key, v) == WithKey(s, key, v)
  {
    if s != [] {
      SortDescFacts(s[1..], key);
      var t := SortDesc(s[1..], key);
      InsertPerm(s[0], t, key);
      InsertSorted(s[0], t, key);
      assert s == [s[0]] + s[1..];
      forall v ensures WithKey(SortDesc(s, key), key, v) == WithKey(s, key, v) {
        InsertWithKey(s[0], t, key, v);
      }
    }
  }

  /** No two elements share an identity. */
  ghost predicate DistinctBy<T, K>(s: seq<T>, id: T -> K)
  {
    forall i, j :: 0 <= i < j < |s| ==> id(s[i]) != id(s[j])
  }

  /** Dropping the head keeps identities distinct, and no later element shares the head's identity. */
  lemma DistinctTail<T, K>(s: seq<T>, id: T -> K)
    requires DistinctBy(s, id) && s != []
    ensures DistinctBy(s[1..], id)
    ensures forall y :: y in s[1..] ==> id(y) != id(s[0])
  {
    forall i, j | 0 <= i < j < |s[1..]| ensures id(s[1..][i]) != id(s[1..][j]) {
      assert s[1..][i] == s[i + 1] && s[1..][j] == s[j + 1];
    }
    forall y | y in s[1..] ensures id(y) != id(s[0]) {
      var k :| 0 <= k < |s[1..]| && s[1..][k] == y;
      assert s[k + 1] == y;
    }
  }

  lemma DistinctCons<T, K>(x: T, s: seq<T>, id: T -> K)
    requires DistinctBy(s, id) && forall y :: y in s ==> id(y) != id(x)
    ensures DistinctBy([x] + s, id)
  {
    var r := [x] + s;
    forall i, j | 0 <= i < j < |r| ensures id(r[i]) != id(r[j]) {
      assert r[j] == s[j - 1];
      if i > 0 { assert r[i] == s[i - 1]; }
    }
  }

  lemma DistinctSnoc<T, K>(s: seq<T>, x: T, id: T -> K)
    requires DistinctBy(s, id) && forall y :: y in s ==> id(y) != id(x)
    ensures DistinctBy(s + [x], id)
  {
    var r := s + [x];
    forall i, j | 0 <= i < j < |r| ensures id(r[i]) != id(r[j]) {
      assert r[i] == s[i];
      if j < |s| { assert r[j] == s[j]; }
    }
  }

  lemma {:induction false} InsertDistinct<T, K>(x: T, s: seq<T>, key: T -> real, id: T -> K)
    requires DistinctBy(s, id) && forall y :: y in s ==> id(y) != id(x)
    ensures DistinctBy(Insert(x, s, key), id)
  {
    if s == [] || key(x) >= key(s[0]) {
      DistinctCons(x, s, id);
    } else {
      var t := Insert(x, s[1..], key);
      DistinctTail(s, id);
      InsertDistinct(x, s[1..], key, id);
      InsertPerm(x, s[1..], key);
      forall y | y in t ensures id(y) != id(s[0]) {
        assert y in multiset(s[1..]) + multiset{x};
        assert s[0] in s;
      }
      DistinctCons(s[0], t, id);
    }
  }

  /** Sorting keeps identities distinct. */
  lemma {:induction false} SortDescDistinct<T, K>(s: seq<T>, key: T -> real, id: T -> K)
    requires DistinctBy(s, id)
    ensures DistinctBy(SortDesc(s, key), id)
  {
    if s != [] {
      var t := SortDesc(s[1..], key);
      DistinctTail(s, id);
      SortDescDistinct(s[1..], key, id);
      SortDescFacts(s[1..], key);
      forall y | y in t ensures id(y) != id(s[0]) {
        assert y in multiset(s[1..]);
      }
      InsertDistinct(s[0], t, key, id);
    }
  }
}
