/**
 * JavaScript's `Set`: a duplicate-free collection that iterates in insertion
 * order. It is modelled as a duplicate-free sequence so that `[...set]`, the
 * order in which the source serialises a set, is determined.
 */
module OrderedSet {
  import opened Seqs

  /** The members, forgetting order. */
  function Elems<T>(s: seq<T>): set<T> {
    set x | x in s
  }

  /** `set.add(x)`: appends `x` unless it is already a member. */
  function Add<T(==,!new)>(s: seq<T>, x: T): (r: seq<T>)
    ensures forall y :: y in r <==> y in s || y == x
    ensures NoDup(s) ==> NoDup(r)
    ensures x !in s ==> r == s + [x]
    ensures x in s ==> r == s
  {
    if x in s then s else s + [x]
  }

  /** `set.delete(x)`: removes `x`, keeping the order of the rest. */
  function Delete<T(==,!new)>(s: seq<T>, x: T): (r: seq<T>)
    ensures forall y :: y in r <==> y in s && y != x
    ensures NoDup(s) ==> NoDup(r)
  {
    FilterNoDup(s, y => y != x);
    Filter(s, y => y != x)
  }

  /** The toggle used by every checklist in the source: delete when present,
      add otherwise. */
  function Toggle<T(==,!new)>(s: seq<T>, x: T): (r: seq<T>)
    ensures NoDup(s) ==> NoDup(r)
  {
    if x in s then Delete(s, x) else Add(s, x)
  }

  /** `new Set(xs)`: first occurrences, in order. */
  function FromSeq<T(==,!new)>(xs: seq<T>): (r: seq<T>)
    ensures NoDup(r)
    ensures Elems(r) == Elems(xs)
  {
    Distinct(xs)
  }

  // ---------------------------------------------------------------- lemmas

  /** Filtering a duplicate-free sequence leaves it duplicate-free. */
  lemma {:induction false} FilterNoDup<T(!new)>(s: seq<T>, p: T -> bool)
    ensures NoDup(s) ==> NoDup(Filter(s, p))
  {
    if s != [] && NoDup(s) {
      assert NoDup(s[1..]);
      FilterNoDup(s[1..], p);
      assert s[0] !in s[1..];
    }
  }

  /** One toggle flips the membership of `x` and of nothing else. */
  lemma ToggleMembership<T(!new)>(s: seq<T>, x: T, y: T)
    ensures y in Toggle(s, x) <==> (if y == x then x !in s else y in s)
  {
  }

  /** Toggling the same member twice restores the set of members. */
  lemma ToggleTwice<T(!new)>(s: seq<T>, x: T)
    ensures Elems(Toggle(Toggle(s, x), x)) == Elems(s)
  {
    forall y
      ensures y in Toggle(Toggle(s, x), x) <==> y in s
    {
      ToggleMembership(s, x, y);
      ToggleMembership(Toggle(s, x), x, y);
    }
  }

  /** When `x` was absent, toggling it twice restores even the iteration
      order: it is appended and then removed again. */
  lemma ToggleTwiceAbsent<T(!new)>(s: seq<T>, x: T)
    requires x !in s
    ensures Toggle(Toggle(s, x), x) == s
  {
    var p := (y: T) => y != x;
    FilterAppend(s, [x], p);
    FilterAllPass(s, p);
    assert [x][1..] == [];
  }

  /** A JavaScript set's `size` is the length of the model; removing a member
      shrinks it by one. */
  lemma {:induction false} DeleteLength<T(!new)>(s: seq<T>, x: T)
    requires NoDup(s)
    requires x in s
    ensures |Delete(s, x)| == |s| - 1
  {
    var p := (y: T) => y != x;
    if s[0] == x {
      assert x !in s[1..];
      FilterAllPass(s[1..], p);
    } else {
      assert NoDup(s[1..]);
      DeleteLength(s[1..], x);
    }
  }

  /** One toggle changes the size by exactly one. */
  lemma ToggleLength<T(!new)>(s: seq<T>, x: T)
    requires NoDup(s)
    ensures x in s ==> |Toggle(s, x)| == |s| - 1
    ensures x !in s ==> |Toggle(s, x)| == |s| + 1
  {
    if x in s {
      DeleteLength(s, x);
    }
  }
}
