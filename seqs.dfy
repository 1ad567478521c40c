/** Python list idioms used throughout: slicing, batching into chunks, flattening. */
module Seqs {
  import opened Wrappers

  /** `[y for x in s if (y := f(x)) is not None]`, built left to right. */
  function FilterMap<A, B>(f: A -> Option<B>, s: seq<A>): (r: seq<B>)
    ensures |r| <= |s|
  {
    if s == [] then []
    else
      var n := |s| - 1;
      FilterMap(f, s[..n]) + (if f(s[n]).Some? then [f(s[n]).value] else [])
  }

  lemma {:induction false} FilterMapAppend<A, B>(f: A -> Option<B>, a: seq<A>, b: seq<A>)
    ensures FilterMap(f, a + b) == FilterMap(f, a) + FilterMap(f, b)
  {
    if b == [] {
      assert a + b == a;
    } else {
      var n := |b| - 1;
      assert (a + b)[..|a + b| - 1] == a + b[..n];
      FilterMapAppend(f, a, b[..n]);
    }
  }

  /** Every element of the result is the image of some element of `s`. */
  lemma {:induction false} FilterMapFrom<A, B>(f: A -> Option<B>, s: seq<A>, y: B)
    requires y in FilterMap(f, s)
    ensures exists x :: x in s && f(x) == Some(y)
  {
    var n := |s| - 1;
    if y in FilterMap(f, s[..n]) {
      FilterMapFrom(f, s[..n], y);
      var x :| x in s[..n] && f(x) == Some(y);
      assert x in s;
    } else {
      assert f(s[n]) == Some(y);
    }
  }

  /** Every element of `s` that `f` keeps has its image in the result. */
  lemma {:induction false} FilterMapHas<A, B>(f: A -> Option<B>, s: seq<A>, k: nat)
    requires k < |s| && f(s[k]).Some?
    ensures f(s[k]).value in FilterMap(f, s)
  {
    var n := |s| - 1;
    if k < n {
      assert s[..n][k] == s[k];
      FilterMapHas(f, s[..n], k);
    }
  }

  /** `[x for x in s if p(x)]`, built left to right. */
  function Filter<A>(p: A -> bool, s: seq<A>): (r: seq<A>)
    ensures |r| <= |s|
  {
    if s == [] then []
    else
      var n := |s| - 1;
      Filter(p, s[..n]) + (if p(s[n]) then [s[n]] else [])
  }

  lemma {:induction false} FilterMember<A>(p: A -> bool, s: seq<A>, x: A)
    requires x in Filter(p, s)
    ensures x in s && p(x)
  {
    var n := |s| - 1;
    if x in Filter(p, s[..n]) {
      FilterMember(p, s[..n], x);
      assert x in s[..n];
    } else {
      assert x == s[n];
    }
  }

  lemma {:induction false} FilterHas<A>(p: A -> bool, s: seq<A>, x: A)
    requires x in s && p(x)
    ensures x in Filter(p, s)
  {
    var n := |s| - 1;
    if x != s[n] {
      assert x in s[..n];
      FilterHas(p, s[..n], x);
    }
  }

  /** Filtering first does not change a filter-map that already discards what the filter drops. */
  lemma {:induction false} FilterMapAfterFilter<A, B>(p: A -> bool, f: A -> Option<B>, s: seq<A>)
    requires forall x :: x in s && !p(x) ==> f(x).None?
    ensures FilterMap(f, Filter(p, s)) == FilterMap(f, s)
  {
    if s != [] {
      var n := |s| - 1;
      var last := s[n];
      assert forall x :: x in s[..n] ==> x in s;
      FilterMapAfterFilter(p, f, s[..n]);
      var tail := if f(last).Some? then [f(last).value] else [];
      assert FilterMap(f, s) == FilterMap(f, s[..n]) + tail;
      if p(last) {
        assert Filter(p, s) == Filter(p, s[..n]) + [last];
        FilterMapAppend(f, Filter(p, s[..n]), [last]);
        assert [last][..0] == [];
        assert FilterMap(f, [last]) == FilterMap(f, []) + tail;
      } else {
        assert last in s;
        assert Filter(p, s) == Filter(p, s[..n]);
        assert tail == [];
      }
    }
  }

  lemma SnocSplit<T>(s: seq<T>)
    requires s != []
    ensures s == s[..|s| - 1] + [s[|s| - 1]]
  {
  }

  lemma PrefixSnoc<T>(s: seq<T>, i: nat)
    requires i < |s|
    ensures s[..i + 1] == s[..i] + [s[i]]
  {
  }

  lemma AppendAssoc<T>(a: seq<T>, b: seq<T>, c: seq<T>)
    ensures (a + b) + c == a + (b + c)
  {
  }

  lemma AppendEmpty<T>(a: seq<T>)
    ensures a + [] == a
  {
  }

  function Flatten<T>(ss: seq<seq<T>>): seq<T>
  {
    if ss == [] then [] else ss[0] + Flatten(ss[1..])
  }

  lemma {:induction false} FlattenAppend<T>(a: seq<seq<T>>, b: seq<seq<T>>)
    ensures Flatten(a + b) == Flatten(a) + Flatten(b)
  {
    if a == [] {
      assert a + b == b;
    } else {
      assert (a + b)[1..] == a[1..] + b;
      FlattenAppend(a[1..], b);
    }
  }

  /**
   * `[s[i:i+n] for i in range(0, len(s), n)]`: consecutive slices of length `n`,
   * the last one possibly shorter.
   */
  function Chunks<T>(s: seq<T>, n: nat): seq<seq<T>>
    requires n > 0
    decreases |s|
  {
    if s == [] then []
    else if |s| <= n then [s]
    else [s[..n]] + Chunks(s[n..], n)
  }

  /** The chunks cover `s` in order; each is non-empty and at most `n` long; all but the last are exactly `n` long. */
  lemma ChunksFacts<T>(s: seq<T>, n: nat)
    requires n > 0
    ensures Flatten(Chunks(s, n)) == s
    ensures forall k :: 0 <= k < |Chunks(s, n)| ==> 0 < |Chunks(s, n)[k]| <= n
    ensures forall k :: 0 <= k < |Chunks(s, n)| - 1 ==> |Chunks(s, n)[k]| == n
  {
    ChunksFlatten(s, n);
    ChunksSizes(s, n);
  }

  lemma {:induction false} ChunksFlatten<T>(s: seq<T>, n: nat)
    requires n > 0
    ensures Flatten(Chunks(s, n)) == s
    decreases |s|
  {
    if s == [] {
    } else if |s| <= n {
      assert Flatten([s]) == s + Flatten([s][1..]);
    } else {
      var rest := Chunks(s[n..], n);
      ChunksFlatten(s[n..], n);
      var cs := [s[..n]] + rest;
      assert cs[1..] == rest;
      assert Flatten(cs) == s[..n] + Flatten(rest);
      assert s == s[..n] + s[n..];
    }
  }

  lemma {:induction false} ChunksSizes<T>(s: seq<T>, n: nat)
    requires n > 0
    ensures forall k :: 0 <= k < |Chunks(s, n)| ==> 0 < |Chunks(s, n)[k]| <= n
    ensures forall k :: 0 <= k < |Chunks(s, n)| - 1 ==> |Chunks(s, n)[k]| == n
    decreases |s|
  {
    if |s| > n {
      var rest := Chunks(s[n..], n);
      ChunksSizes(s[n..], n);
      var cs := [s[..n]] + rest;
      assert forall k :: 1 <= k < |cs| ==> cs[k] == rest[k - 1];
    }
  }

  /** A sequence of length at most `n` is a single chunk. */
  lemma ChunksShort<T>(s: seq<T>, n: nat)
    requires 0 < |s| <= n
    ensures Chunks(s, n) == [s]
  {
  }

  /** One full chunk in front of `r`. */
  lemma ChunksCons<T>(x: seq<T>, r: seq<T>, n: nat)
    requires n > 0 && |x| == n
    ensures Chunks(x + r, n) == [x] + Chunks(r, n)
  {
    if r == [] {
      assert x + r == x;
    } else {
      assert (x + r)[..n] == x;
      assert (x + r)[n..] == r;
    }
  }

  /** Chunking a run of full chunks followed by `b` gives those chunks, then the chunks of `b`. */
  lemma {:induction false} ChunksAfterFull<T>(full: seq<seq<T>>, b: seq<T>, n: nat)
    requires n > 0
    requires forall k :: 0 <= k < |full| ==> |full[k]| == n
    ensures Chunks(Flatten(full) + b, n) == full + Chunks(b, n)
  {
    if full == [] {
      assert Flatten(full) + b == b;
    } else {
      var rest := full[1..];
      assert forall k :: 0 <= k < |rest| ==> |rest[k]| == n by {
        forall k | 0 <= k < |rest| ensures |rest[k]| == n {
          assert rest[k] == full[k + 1];
        }
      }
      ChunksAfterFull(rest, b, n);
      AppendAssoc(full[0], Flatten(rest), b);
      ChunksCons(full[0], Flatten(rest) + b, n);
      assert full == [full[0]] + rest;
      AppendAssoc([full[0]], rest, Chunks(b, n));
    }
  }

  /** Python's `s[:k]`, where a negative `k` counts from the end. */
  function PyTake<T>(s: seq<T>, k: int): (r: seq<T>)
    ensures |r| <= |s| && r == s[..|r|]
    ensures k >= 0 ==> |r| == if k < |s| then k else |s|
    ensures k < 0 ==> |r| == if |s| + k > 0 then |s| + k else 0
  {
    if k >= 0 then (if k < |s| then s[..k] else s)
    else (if |s| + k > 0 then s[..|s| + k] else [])
  }

  /** Python's `s[-k:]` for `k >= 0`; `s[-0:]` is the whole list. */
  function PyLast<T>(s: seq<T>, k: nat): (r: seq<T>)
    ensures |r| <= |s| && r == s[|s| - |r|..]
    ensures 0 < k ==> |r| == if k < |s| then k else |s|
    ensures k == 0 ==> r == s
  {
    if k == 0 || k >= |s| then s else s[|s| - k..]
  }

  /** Python's `s[k:]`, where a negative `k` counts from the end. */
  function PyDrop<T>(s: seq<T>, k: int): (r: seq<T>)
    ensures |r| <= |s| && r == s[|s| - |r|..]
    ensures k >= 0 ==> |r| == if k < |s| then |s| - k else 0
    ensures k < 0 ==> |r| == if -k < |s| then -k else |s|
  {
    if k >= 0 then (if k < |s| then s[k..] else [])
    else (if -k < |s| then s[|s| + k..] else s)
  }

  /** Python's `//`, which rounds toward negative infinity. */
  function FloorDiv(a: int, b: int): (q: int)
    requires b != 0
    ensures b > 0 ==> q * b <= a < q * b + b
    ensures b < 0 ==> q * b >= a > q * b + b
  {
    if b > 0 then a / b else (-a) / (-b)
  }
}
