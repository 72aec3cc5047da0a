/**
 * The string operations the analysis engine relies on, stated over `seq<char>`:
 * JavaScript's `startsWith`, `endsWith`, `includes`, ASCII `toLowerCase`,
 * `split` on one separator character, `join`, and `slice(0, n)`.
 */
module Strings {

  /** `s.startsWith(p)`: `p` is a prefix of `s` (used for strings and for other sequences). */
  predicate StartsWith<T(==)>(s: seq<T>, p: seq<T>) {
    |p| <= |s| && s[..|p|] == p
  }

  /** `s.endsWith(suffix)`. */
  predicate EndsWith(s: string, suffix: string) {
    |suffix| <= |s| && s[|s| - |suffix|..] == suffix
  }

  /** `s.includes(sub)`: `sub` occurs somewhere in `s`. */
  predicate Contains(s: string, sub: string)
    decreases |s|
  {
    StartsWith(s, sub) || (|s| > 0 && Contains(s[1..], sub))
  }

  /** `sub` occurs in `s` starting at position `i`. */
  predicate OccursAt(s: string, sub: string, i: int) {
    0 <= i && i + |sub| <= |s| && s[i..i + |sub|] == sub
  }

  /** `Contains` means exactly that there is a position where `sub` occurs. */
  lemma {:induction false} ContainsIffOccurs(s: string, sub: string)
    ensures Contains(s, sub) <==> exists i :: OccursAt(s, sub, i)
    decreases |s|
  {
    if StartsWith(s, sub) {
      assert OccursAt(s, sub, 0);
    } else if |s| > 0 {
      ContainsIffOccurs(s[1..], sub);
      if Contains(s[1..], sub) {
        var i :| OccursAt(s[1..], sub, i);
        assert s[1..][i..i + |sub|] == s[i + 1..i + 1 + |sub|];
        assert OccursAt(s, sub, i + 1);
      }
      if i :| OccursAt(s, sub, i) {
        assert i != 0;
        assert s[1..][i - 1..i - 1 + |sub|] == s[i..i + |sub|];
        assert OccursAt(s[1..], sub, i - 1);
      }
    }
  }

  /** Both halves of an occurring concatenation occur. */
  lemma ContainsHalves(s: string, a: string, b: string)
    requires Contains(s, a + b)
    ensures Contains(s, a) && Contains(s, b)
  {
    ContainsIffOccurs(s, a + b);
    var i :| OccursAt(s, a + b, i);
    assert s[i..i + |a|] == (a + b)[..|a|] == a;
    assert OccursAt(s, a, i);
    assert s[i + |a|..i + |a| + |b|] == (a + b)[|a|..] == b;
    assert OccursAt(s, b, i + |a|);
    ContainsIffOccurs(s, a);
    ContainsIffOccurs(s, b);
  }

  /** True iff `s` contains at least one of `keys` (`keys.some(k => s.includes(k))`). */
  predicate ContainsAny(s: string, keys: seq<string>) {
    exists k :: 0 <= k < |keys| && Contains(s, keys[k])
  }

  /** ASCII lower-casing of one character. */
  function LowerChar(c: char): char {
    if 'A' <= c <= 'Z' then (c as int - 'A' as int + 'a' as int) as char else c
  }

  /** `s.toLowerCase()` restricted to the ASCII letters. */
  function Lower(s: string): (r: string)
    ensures |r| == |s|
    ensures forall i :: 0 <= i < |s| ==> r[i] == LowerChar(s[i])
    ensures forall i :: 0 <= i < |r| ==> !('A' <= r[i] <= 'Z')
  {
    seq(|s|, i requires 0 <= i < |s| => LowerChar(s[i]))
  }

  /** Lower-casing keeps occurrences: a string containing `sub` contains it lower-cased once lower-cased itself. */
  lemma LowerContains(s: string, sub: string)
    requires Contains(s, sub)
    ensures Contains(Lower(s), Lower(sub))
  {
    ContainsIffOccurs(s, sub);
    var i :| OccursAt(s, sub, i);
    assert Lower(s)[i..i + |sub|] == Lower(sub);
    assert OccursAt(Lower(s), Lower(sub), i);
    ContainsIffOccurs(Lower(s), Lower(sub));
  }

  /** `s.slice(0, n)` on any sequence: the first `n` elements, or all of them. */
  function Take<T>(s: seq<T>, n: nat): (r: seq<T>)
    ensures |r| == if n <= |s| then n else |s|
    ensures r == s[..|r|]
  {
    if n <= |s| then s[..n] else s
  }

  /** `s.split(sep)` for a one-character separator: never empty, "" gives [""]. */
  function Split(s: string, sep: char): (parts: seq<string>)
    ensures |parts| >= 1
    decreases |s|
  {
    if s == [] then [[]]
    else
      var rest := Split(s[1..], sep);
      if s[0] == sep then [[]] + rest
      else [[s[0]] + rest[0]] + rest[1..]
  }

  /** `parts.join(sep)`; the join of no parts is "". */
  function Join(parts: seq<string>, sep: char): string
    decreases |parts|
  {
    if |parts| == 0 then []
    else if |parts| == 1 then parts[0]
    else parts[0] + [sep] + Join(parts[1..], sep)
  }

  /** Splitting then joining gives back the original string. */
  lemma {:induction false} JoinSplit(s: string, sep: char)
    ensures Join(Split(s, sep), sep) == s
    decreases |s|
  {
    if s != [] {
      var rest := Split(s[1..], sep);
      JoinSplit(s[1..], sep);
      if s[0] == sep {
        assert Split(s, sep) == [[]] + rest;
        assert ([[]] + rest)[1..] == rest;
      } else {
        var parts := [[s[0]] + rest[0]] + rest[1..];
        assert Split(s, sep) == parts;
        if |rest| == 1 {
          assert Join(rest, sep) == rest[0];
        } else {
          assert parts[1..] == rest[1..];
          assert Join(rest, sep) == rest[0] + [sep] + Join(rest[1..], sep);
        }
      }
    }
  }

  /** No part produced by `Split` contains the separator. */
  lemma {:induction false} SplitPartsFree(s: string, sep: char)
    ensures forall k :: 0 <= k < |Split(s, sep)| ==> sep !in Split(s, sep)[k]
    decreases |s|
  {
    if s != [] {
      SplitPartsFree(s[1..], sep);
    }
  }

  /** Joining parts that are free of the separator and splitting again gives the parts back. */
  lemma {:induction false} SplitJoin(parts: seq<string>, sep: char)
    requires |parts| >= 1
    requires forall k :: 0 <= k < |parts| ==> sep !in parts[k]
    ensures Split(Join(parts, sep), sep) == parts
    decreases |parts|, |parts[0]|
  {
    if |parts[0]| > 0 {
      var tail := [parts[0][1..]] + parts[1..];
      assert forall k :: 1 <= k < |tail| ==> tail[k] == parts[k];
      SplitJoin(tail, sep);
      SplitJoinLetter(parts, sep);
    } else if |parts| > 1 {
      SplitJoin(parts[1..], sep);
      SplitJoinEmptyHead(parts, sep);
    }
  }

  /** The step of `SplitJoin` that moves the first letter of the first part. */
  lemma SplitJoinLetter(parts: seq<string>, sep: char)
    requires |parts| >= 1 && |parts[0]| > 0 && parts[0][0] != sep
    requires Split(Join([parts[0][1..]] + parts[1..], sep), sep) == [parts[0][1..]] + parts[1..]
    ensures Split(Join(parts, sep), sep) == parts
  {
    var p0 := parts[0];
    var tail := [p0[1..]] + parts[1..];
    assert tail[0] == p0[1..];
    assert tail[1..] == parts[1..];
    assert Join(parts, sep) == [p0[0]] + Join(tail, sep);
    var s := Join(parts, sep);
    assert s[1..] == Join(tail, sep);
    assert p0 == [p0[0]] + p0[1..];
  }

  /** The step of `SplitJoin` past an empty first part. */
  lemma SplitJoinEmptyHead(parts: seq<string>, sep: char)
    requires |parts| > 1 && parts[0] == []
    requires Split(Join(parts[1..], sep), sep) == parts[1..]
    ensures Split(Join(parts, sep), sep) == parts
  {
    var s := Join(parts, sep);
    assert s == [sep] + Join(parts[1..], sep);
    assert s[1..] == Join(parts[1..], sep);
    assert parts == [[]] + parts[1..];
  }


  /** Joining a prefix of the parts gives a prefix of the joined string. */
  lemma {:induction false} JoinTakeIsPrefix(parts: seq<string>, n: nat, sep: char)
    ensures StartsWith(Join(parts, sep), Join(Take(parts, n), sep))
    decreases |parts|
  {
    if n == 0 || |parts| == 0 {
    } else if n >= |parts| {
      assert Take(parts, n) == parts;
    } else if |parts| > 1 {
      JoinTakeIsPrefix(parts[1..], n - 1, sep);
      var t := Take(parts, n);
      assert t[1..] == Take(parts[1..], n - 1);
      if n == 1 {
        assert Join(t, sep) == parts[0];
      } else {
        assert Join(t, sep) == parts[0] + [sep] + Join(Take(parts[1..], n - 1), sep);
      }
    }
  }

  /** Number of occurrences of `c` in `s`. */
  function CountChar(s: string, c: char): nat {
    multiset(s)[c]
  }

  /** `s.split(sep)` has one more part than `s` has separators. */
  lemma {:induction false} SplitLength(s: string, sep: char)
    ensures |Split(s, sep)| == CountChar(s, sep) + 1
    decreases |s|
  {
    if s != [] {
      SplitLength(s[1..], sep);
      assert s == [s[0]] + s[1..];
      assert multiset(s) == multiset{s[0]} + multiset(s[1..]);
    }
  }

  /**
   * The line-truncation part of `readFilePreview`: `s.split('\n').slice(0, n).join('\n')`.
   */
  function TakeLines(s: string, n: nat): string {
    Join(Take(Split(s, '\n'), n), '\n')
  }

  /**
   * The truncated text is a prefix of the whole text, its lines are the first `n` lines of
   * the whole text, and it is the whole text when that has no more than `n` lines.
   */
  lemma TakeLinesSpec(s: string, n: nat)
    ensures StartsWith(s, TakeLines(s, n))
    ensures n > 0 ==> |Split(TakeLines(s, n), '\n')| <= n
    ensures n > 0 ==> Split(TakeLines(s, n), '\n') == Take(Split(s, '\n'), n)
    ensures CountChar(s, '\n') < n ==> TakeLines(s, n) == s
    ensures n == 0 ==> TakeLines(s, n) == ""
  {
    var parts := Split(s, '\n');
    JoinSplit(s, '\n');
    JoinTakeIsPrefix(parts, n, '\n');
    SplitLength(s, '\n');
    if CountChar(s, '\n') < n {
      assert Take(parts, n) == parts;
    }
    if n > 0 {
      SplitPartsFree(s, '\n');
      var t := Take(parts, n);
      assert forall k :: 0 <= k < |t| ==> t[k] == parts[k];
      SplitJoin(t, '\n');
    }
  }

  /** The concatenation of a sequence of strings (`parts.join('')`). */
  function Concat(parts: seq<string>): string
    decreases |parts|
  {
    if parts == [] then "" else Concat(parts[..|parts| - 1]) + parts[|parts| - 1]
  }

  lemma {:induction false} ConcatAppend(a: seq<string>, b: seq<string>)
    ensures Concat(a + b) == Concat(a) + Concat(b)
    decreases |b|
  {
    if b == [] {
      assert a + b == a;
    } else {
      var ab := a + b;
      assert ab[..|ab| - 1] == a + b[..|b| - 1];
      ConcatAppend(a, b[..|b| - 1]);
    }
  }
}
