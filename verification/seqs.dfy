/**
 * Sequence utilities shared by the model: `Array.prototype.filter`, the
 * subsequence relation that states "order preserved", first-occurrence
 * de-duplication (`[...new Set(xs)]`) and `slice(0, n)`.
 */
module Seqs {
  import opened Wrappers

  /** `s.find(x => idOf(x) === id)`: the first element carrying that id. */
  function FindById<T(!new)>(s: seq<T>, idOf: T -> string, id: string): (r: Option<T>)
    ensures r.Some? ==> r.value in s && idOf(r.value) == id
    ensures r.Some? ==> exists i :: 0 <= i < |s| && s[i] == r.value && forall j :: 0 <= j < i ==> idOf(s[j]) != id
    ensures r.None? <==> forall i :: 0 <= i < |s| ==> idOf(s[i]) != id
  {
    if s == [] then None
    else if idOf(s[0]) == id then Some(s[0])
    else FindById(s[1..], idOf, id)
  }

  /** `s.filter(p)`: the elements of `s` that satisfy `p`, in order. */
  function Filter<T(!new)>(s: seq<T>, p: T -> bool): (r: seq<T>)
    ensures |r| <= |s|
    ensures forall i :: 0 <= i < |r| ==> p(r[i])
    ensures forall x :: x in r <==> x in s && p(x)
  {
    if s == [] then [] else (if p(s[0]) then [s[0]] else []) + Filter(s[1..], p)
  }

  /** `s.filter(p).length`. */
  function Count<T(!new)>(s: seq<T>, p: T -> bool): nat {
    |Filter(s, p)|
  }

  /** Map every element: `s.map(f)`. */
  function Map<T, U>(s: seq<T>, f: T -> U): (r: seq<U>)
    ensures |r| == |s|
    ensures forall i :: 0 <= i < |s| ==> r[i] == f(s[i])
  {
    seq(|s|, i requires 0 <= i < |s| => f(s[i]))
  }

  /** `a` can be obtained from `b` by deleting elements: order is preserved. */
  predicate IsSubsequence<T(==,!new)>(a: seq<T>, b: seq<T>)
    decreases |b|
  {
    if a == [] then true
    else if b == [] then false
    else if a[0] == b[0] then IsSubsequence(a[1..], b[1..])
    else IsSubsequence(a, b[1..])
  }

  /** No element occurs twice. */
  predicate NoDup<T(==,!new)>(s: seq<T>) {
    forall i, j :: 0 <= i < j < |s| ==> s[i] != s[j]
  }

  /** `[...new Set(s)]`: each element once, at the position of its first occurrence. */
  function Distinct<T(==,!new)>(s: seq<T>): (r: seq<T>)
    ensures NoDup(r)
    ensures |r| <= |s|
    ensures forall x :: x in r <==> x in s
  {
    if s == [] then []
    else
      var d := Distinct(s[..|s| - 1]);
      assert forall x :: x in s[..|s| - 1] ==> x in s;
      assert forall x :: x in s ==> x in s[..|s| - 1] || x == s[|s| - 1];
      if s[|s| - 1] in d then d else d + [s[|s| - 1]]
  }

  /** `s.slice(0, n)`. */
  function Take<T(!new)>(s: seq<T>, n: nat): (r: seq<T>)
    ensures |r| == if n <= |s| then n else |s|
    ensures forall i :: 0 <= i < |r| ==> r[i] == s[i]
  {
    if n <= |s| then s[..n] else s
  }

  // ---------------------------------------------------------------- lemmas

  /** Filtering distributes over concatenation. */
  lemma {:induction false} FilterAppend<T(!new)>(a: seq<T>, b: seq<T>, p: T -> bool)
    ensures Filter(a + b, p) == Filter(a, p) + Filter(b, p)
  {
    if a == [] {
      assert a + b == b;
    } else {
      assert (a + b)[0] == a[0];
      assert (a + b)[1..] == a[1..] + b;
      FilterAppend(a[1..], b, p);
    }
  }

  /** Filtering keeps exactly the elements, so filtering a sequence whose
      elements all pass is the identity. */
  lemma {:induction false} FilterAllPass<T(!new)>(s: seq<T>, p: T -> bool)
    requires forall i :: 0 <= i < |s| ==> p(s[i])
    ensures Filter(s, p) == s
  {
    if s != [] {
      FilterAllPass(s[1..], p);
    }
  }

  /** The filter keeps every element exactly when every element passes. */
  lemma {:induction false} FilterFull<T(!new)>(s: seq<T>, p: T -> bool)
    ensures |Filter(s, p)| == |s| <==> forall i :: 0 <= i < |s| ==> p(s[i])
  {
    if s != [] {
      FilterFull(s[1..], p);
      if !p(s[0]) {
        assert |Filter(s, p)| <= |s[1..]|;
      } else {
        assert forall i :: 1 <= i < |s| ==> s[i] == s[1..][i - 1];
      }
    }
  }

  /** Filtering never reorders: the result is a subsequence of the input. */
  lemma {:induction false} FilterIsSubsequence<T(!new)>(s: seq<T>, p: T -> bool)
    ensures IsSubsequence(Filter(s, p), s)
  {
    if s != [] {
      FilterIsSubsequence(s[1..], p);
      if p(s[0]) {
        assert Filter(s, p) == [s[0]] + Filter(s[1..], p);
        assert Filter(s, p)[1..] == Filter(s[1..], p);
      } else {
        assert Filter(s, p) == Filter(s[1..], p);
        SkipHead(Filter(s[1..], p), s);
      }
    }
  }

  /** A subsequence of the tail is a subsequence of the whole. */
  lemma {:induction false} SkipHead<T(!new)>(a: seq<T>, b: seq<T>)
    requires b != []
    requires IsSubsequence(a, b[1..])
    ensures IsSubsequence(a, b)
    decreases |b|, 0
  {
    if a != [] && a[0] == b[0] {
      SubsequenceDropHead(a, b[1..]);
    }
  }

  /** Dropping the first element of a subsequence keeps it a subsequence. */
  lemma {:induction false} SubsequenceDropHead<T(!new)>(a: seq<T>, c: seq<T>)
    requires a != []
    requires IsSubsequence(a, c)
    ensures IsSubsequence(a[1..], c)
    decreases |c|, 1
  {
    if a[1..] == [] {
    } else if a[0] == c[0] {
      SkipHead(a[1..], c);
    } else {
      SubsequenceDropHead(a, c[1..]);
      SkipHead(a[1..], c);
    }
  }

  /** A subsequence sits in the whole at strictly increasing positions. */
  lemma {:induction false} SubsequencePositions<T(!new)>(a: seq<T>, b: seq<T>) returns (f: seq<nat>)
    requires IsSubsequence(a, b)
    ensures |f| == |a|
    ensures forall i :: 0 <= i < |a| ==> f[i] < |b| && a[i] == b[f[i]]
    ensures forall i, j :: 0 <= i < j < |a| ==> f[i] < f[j]
    decreases |b|
  {
    if a == [] {
      f := [];
    } else if a[0] == b[0] {
      var g := SubsequencePositions(a[1..], b[1..]);
      f := [0] + seq(|g|, k requires 0 <= k < |g| => g[k] + 1);
    } else {
      var g := SubsequencePositions(a, b[1..]);
      f := seq(|g|, k requires 0 <= k < |g| => g[k] + 1);
    }
  }

  /** A stronger predicate keeps no more elements than a weaker one. */
  lemma {:induction false} FilterStronger<T(!new)>(s: seq<T>, p: T -> bool, q: T -> bool)
    requires forall x :: q(x) ==> p(x)
    ensures |Filter(s, q)| <= |Filter(s, p)|
  {
    if s != [] {
      FilterStronger(s[1..], p, q);
    }
  }

  /** Filtering twice is filtering once with the conjunction. */
  lemma {:induction false} FilterFilter<T(!new)>(s: seq<T>, p: T -> bool, q: T -> bool, pq: T -> bool)
    requires forall x :: pq(x) == (p(x) && q(x))
    ensures Filter(Filter(s, p), q) == Filter(s, pq)
  {
    if s != [] {
      FilterFilter(s[1..], p, q, pq);
      if p(s[0]) {
        assert Filter(s, p) == [s[0]] + Filter(s[1..], p);
        FilterAppend([s[0]], Filter(s[1..], p), q);
        assert [s[0]][1..] == [];
        assert Filter([s[0]], q) == if q(s[0]) then [s[0]] else [];
      } else {
        assert Filter(s, p) == Filter(s[1..], p);
      }
    }
  }

  /** Filters with pointwise equal predicates agree. */
  lemma {:induction false} FilterCongruent<T(!new)>(s: seq<T>, p: T -> bool, q: T -> bool)
    requires forall i :: 0 <= i < |s| ==> p(s[i]) == q(s[i])
    ensures Filter(s, p) == Filter(s, q)
  {
    if s != [] {
      FilterCongruent(s[1..], p, q);
    }
  }

  /** The distinct elements of a sequence number at most its length, so a
      duplicate-free sequence's elements fill a set of the same size. */
  lemma {:induction false} NoDupCard<T(!new)>(s: seq<T>)
    requires NoDup(s)
    ensures |set x | x in s| == |s|
  {
    if s != [] {
      var t := s[..|s| - 1];
      NoDupCard(t);
      var last := s[|s| - 1];
      assert last !in t;
      assert (set x | x in s) == (set x | x in t) + {last};
    }
  }

  /** Any set of elements drawn from `s` has at most `|s|` members. */
  lemma {:induction false} CardFromSeq<T(!new)>(xs: set<T>, s: seq<T>)
    requires forall x :: x in xs ==> x in s
    ensures |xs| <= |s|
  {
    if s == [] {
      assert xs == {};
    } else {
      var t := s[1..];
      var rest := xs - {s[0]};
      assert forall x :: x in rest ==> x in t;
      CardFromSeq(rest, t);
    }
  }

  /** Appending the same element to both sides keeps a subsequence. */
  lemma {:induction false} SubsequenceAppendBoth<T(!new)>(a: seq<T>, b: seq<T>, x: T)
    requires IsSubsequence(a, b)
    ensures IsSubsequence(a + [x], b + [x])
    decreases |b|
  {
    if a == [] {
      assert a + [x] == [x];
      SingletonAtEnd(b, x);
    } else if a[0] == b[0] {
      assert (a + [x])[1..] == a[1..] + [x];
      assert (b + [x])[1..] == b[1..] + [x];
      SubsequenceAppendBoth(a[1..], b[1..], x);
    } else {
      assert (b + [x])[1..] == b[1..] + [x];
      SubsequenceAppendBoth(a, b[1..], x);
    }
  }

  /** `[x]` is a subsequence of anything that ends with `x`. */
  lemma {:induction false} SingletonAtEnd<T(!new)>(b: seq<T>, x: T)
    ensures IsSubsequence([x], b + [x])
    decreases |b|
  {
    if b != [] && b[0] != x {
      assert (b + [x])[1..] == b[1..] + [x];
      SingletonAtEnd(b[1..], x);
    }
  }

  /** Appending to the larger side keeps a subsequence. */
  lemma {:induction false} SubsequenceAppendRight<T(!new)>(a: seq<T>, b: seq<T>, x: T)
    requires IsSubsequence(a, b)
    ensures IsSubsequence(a, b + [x])
    decreases |b|
  {
    if a != [] {
      assert (b + [x])[1..] == b[1..] + [x];
      if a[0] == b[0] {
        SubsequenceAppendRight(a[1..], b[1..], x);
      } else {
        SubsequenceAppendRight(a, b[1..], x);
      }
    }
  }

  /** De-duplication keeps the order of first occurrences. */
  lemma {:induction false} DistinctIsSubsequence<T(!new)>(s: seq<T>)
    ensures IsSubsequence(Distinct(s), s)
  {
    if s != [] {
      var pre := s[..|s| - 1];
      DistinctIsSubsequence(pre);
      assert s == pre + [s[|s| - 1]];
      if s[|s| - 1] in Distinct(pre) {
        SubsequenceAppendRight(Distinct(pre), pre, s[|s| - 1]);
      } else {
        SubsequenceAppendBoth(Distinct(pre), pre, s[|s| - 1]);
      }
    }
  }

  /** The first element survives de-duplication in first place. */
  lemma {:induction false} DistinctFirst<T(!new)>(s: seq<T>)
    requires s != []
    ensures Distinct(s) != [] && Distinct(s)[0] == s[0]
  {
    if |s| > 1 {
      var pre := s[..|s| - 1];
      DistinctFirst(pre);
    }
  }

  /** A duplicate-free sequence is its own de-duplication. */
  lemma {:induction false} DistinctOfNoDup<T(!new)>(s: seq<T>)
    requires NoDup(s)
    ensures Distinct(s) == s
  {
    if s != [] {
      var pre := s[..|s| - 1];
      DistinctOfNoDup(pre);
      assert s[|s| - 1] !in pre;
      assert s == pre + [s[|s| - 1]];
    }
  }

  /** Nothing passes, nothing is kept. */
  lemma {:induction false} FilterNonePass<T(!new)>(s: seq<T>, p: T -> bool)
    requires forall i :: 0 <= i < |s| ==> !p(s[i])
    ensures Filter(s, p) == []
  {
    if s != [] {
      FilterNonePass(s[1..], p);
    }
  }
}
