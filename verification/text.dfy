/**
 * The string operations the source uses: `startsWith`, `endsWith`,
 * `includes`, `split` on one character, and `trim() === ''`.
 */
module Text {

  predicate StartsWith(s: string, prefix: string) {
    |prefix| <= |s| && s[..|prefix|] == prefix
  }

  predicate EndsWith(s: string, suffix: string) {
    |suffix| <= |s| && s[|s| - |suffix|..] == suffix
  }

  /** `s.includes(sub)`, written so that it evaluates on literals. */
  predicate Contains(s: string, sub: string)
    decreases |s|
  {
    StartsWith(s, sub) || (|s| > 0 && Contains(s[1..], sub))
  }

  /** Index of the first occurrence of `c`. */
  function IndexOf(s: string, c: char): (i: nat)
    requires c in s
    ensures i < |s| && s[i] == c
    ensures c !in s[..i]
  {
    if s[0] == c then 0 else
      assert c in s[1..];
      var j := IndexOf(s[1..], c);
      assert s[..j + 1] == [s[0]] + s[1..][..j];
      j + 1
  }

  /** `s.split(c)` for a one-character separator. */
  function Split(s: string, c: char): (parts: seq<string>)
    ensures |parts| >= 1
    ensures forall i :: 0 <= i < |parts| ==> c !in parts[i]
    decreases |s|
  {
    if c !in s then [s]
    else
      var i := IndexOf(s, c);
      [s[..i]] + Split(s[i + 1..], c)
  }

  /** `parts.join(c)`: the inverse of `Split`. */
  function Join(parts: seq<string>, c: char): string
    requires |parts| >= 1
  {
    if |parts| == 1 then parts[0] else parts[0] + [c] + Join(parts[1..], c)
  }

  /** The characters `String.prototype.trim` removes: white space and line
      terminators (sections 12.2 and 12.3 of ECMA-262). */
  predicate IsJsWhitespace(ch: char) {
    || ch == '\t' || ch == '\n' || ch == '\U{000B}' || ch == '\U{000C}' || ch == '\r'
    || ch == ' ' || ch == '\U{00A0}' || ch == '\U{1680}'
    || ('\U{2000}' <= ch <= '\U{200A}')
    || ch == '\U{2028}' || ch == '\U{2029}' || ch == '\U{202F}' || ch == '\U{205F}'
    || ch == '\U{3000}' || ch == '\U{FEFF}'
  }

  /** `!s.trim()`: the string is empty after trimming. */
  predicate IsBlank(s: string) {
    forall i :: 0 <= i < |s| ==> IsJsWhitespace(s[i])
  }

  // ---------------------------------------------------------------- lemmas

  /** `sub` occurs in `s` at offset `i`. */
  predicate OccursAt(s: string, sub: string, i: int) {
    0 <= i <= |s| - |sub| && s[i..i + |sub|] == sub
  }

  /** `Contains` is the usual "occurs at some offset". */
  lemma {:induction false} ContainsAt(s: string, sub: string)
    ensures Contains(s, sub) <==> exists i :: OccursAt(s, sub, i)
  {
    if StartsWith(s, sub) {
      assert OccursAt(s, sub, 0);
    } else {
      if |s| > 0 {
        ContainsAt(s[1..], sub);
        if Contains(s[1..], sub) {
          var i :| OccursAt(s[1..], sub, i);
          assert s[i + 1..i + 1 + |sub|] == s[1..][i..i + |sub|];
          assert OccursAt(s, sub, i + 1);
        }
      }
      if exists i :: OccursAt(s, sub, i) {
        var i :| OccursAt(s, sub, i);
        assert i != 0;
        assert s[1..][i - 1..i - 1 + |sub|] == s[i..i + |sub|];
        assert OccursAt(s[1..], sub, i - 1);
      }
    }
  }

  /** A string contains whatever is written inside it. */
  lemma ContainsInfix(a: string, sub: string, b: string)
    ensures Contains(a + sub + b, sub)
  {
    var s := a + sub + b;
    assert s[|a|..|a| + |sub|] == sub;
    assert OccursAt(s, sub, |a|);
    ContainsAt(s, sub);
  }

  /** A string contained in `b` is contained in `a + b`. */
  lemma ContainsAppend(a: string, b: string, sub: string)
    requires Contains(b, sub)
    ensures Contains(a + b, sub)
  {
    ContainsAt(b, sub);
    var i :| OccursAt(b, sub, i);
    assert (a + b)[|a| + i..|a| + i + |sub|] == b[i..i + |sub|];
    assert OccursAt(a + b, sub, |a| + i);
    ContainsAt(a + b, sub);
  }

  /** Every character of a contained string occurs in the container, so a
      string lacking one of `sub`'s characters does not contain `sub`. */
  lemma ContainsChars(s: string, sub: string, c: char)
    requires c in sub && c !in s
    ensures !Contains(s, sub)
  {
    ContainsAt(s, sub);
  }

  /** The first occurrence of `c` in `a + [c] + b` is just after `a`. */
  lemma IndexOfAfter(a: string, c: char, b: string)
    requires c !in a
    ensures IndexOf(a + [c] + b, c) == |a|
  {
    var s := a + [c] + b;
    assert s[|a|] == c;
  }

  /** Joining the parts restores the string. */
  lemma {:induction false} SplitJoin(s: string, c: char)
    ensures Join(Split(s, c), c) == s
    decreases |s|
  {
    if c in s {
      var i := IndexOf(s, c);
      SplitJoin(s[i + 1..], c);
      assert s == s[..i] + [c] + s[i + 1..];
    }
  }

  /** Splitting `"/" + seg + rest` on '/' puts `seg` at index 1 when the
      segment holds no '/' and `rest` is empty or starts a new segment. */
  lemma SecondSegment(seg: string, rest: string)
    requires '/' !in seg
    requires rest == [] || rest[0] == '/'
    ensures |Split("/" + seg + rest, '/')| >= 2
    ensures Split("/" + seg + rest, '/')[1] == seg
  {
    var s := "/" + seg + rest;
    assert s == [] + ['/'] + (seg + rest);
    IndexOfAfter([], '/', seg + rest);
    assert s[1..] == seg + rest;
    if rest == [] {
      assert '/' !in seg + rest;
    } else {
      assert seg + rest == seg + ['/'] + rest[1..];
      IndexOfAfter(seg, '/', rest[1..]);
      assert (seg + rest)[..|seg|] == seg;
    }
  }
}
