/**
  The few java.lang.String and java.lang.Character operations the generator and
  the class finder rely on, written over `seq<char>`.
 */
module Strings {

  /** Character.toUpperCase, restricted to the ASCII letters. */
  function ToUpper(ch: char): (u: char)
    ensures 'a' <= ch <= 'z' ==> 'A' <= u <= 'Z' && u as int == ch as int - 32
    ensures !('a' <= ch <= 'z') ==> u == ch
  {
    if 'a' <= ch <= 'z' then (ch as int - 32) as char else ch
  }

  /** Character.toLowerCase, restricted to the ASCII letters. */
  function ToLower(ch: char): (l: char)
    ensures 'A' <= ch <= 'Z' ==> 'a' <= l <= 'z' && l as int == ch as int + 32
    ensures !('A' <= ch <= 'Z') ==> l == ch
  {
    if 'A' <= ch <= 'Z' then (ch as int + 32) as char else ch
  }

  /** String.replace(char, char): every occurrence of `a` becomes `b`. */
  function ReplaceChar(s: string, a: char, b: char): (r: string)
    ensures |r| == |s|
    ensures forall i :: 0 <= i < |s| ==> r[i] == (if s[i] == a then b else s[i])
  {
    if s == [] then [] else [if s[0] == a then b else s[0]] + ReplaceChar(s[1..], a, b)
  }

  /** `t` occurs in `s` starting at index `k`. */
  predicate OccursAt(s: string, t: string, k: int) {
    0 <= k && k + |t| <= |s| && s[k..k + |t|] == t
  }

  /**
    String.replace(CharSequence, CharSequence) for a non-empty target: the string
    is scanned from left to right and every non-overlapping occurrence of
    `target` is replaced by `replacement`.
   */
  function ReplaceAll(s: string, target: string, replacement: string): string
    requires |target| > 0
    decreases |s|
  {
    if |s| < |target| then s
    else if s[..|target|] == target then replacement + ReplaceAll(s[|target|..], target, replacement)
    else [s[0]] + ReplaceAll(s[1..], target, replacement)
  }

  /** `n` copies of `unit`, as a loop appending `unit` `n` times builds them. */
  function Repeat(unit: string, n: nat): (r: string)
    ensures |r| == n * |unit|
  {
    if n == 0 then [] else Repeat(unit, n - 1) + unit
  }

  /** The parts separated by `sep`, as a loop appending `sep` between consecutive parts builds it. */
  function Join(parts: seq<string>, sep: string): string {
    if |parts| == 0 then ""
    else if |parts| == 1 then parts[0]
    else parts[0] + sep + Join(parts[1..], sep)
  }

  /** String.lastIndexOf(char): the index of the last `ch` in `s`, or -1. */
  function LastIndexOf(s: string, ch: char): (r: int)
    ensures -1 <= r < |s|
    ensures r >= 0 ==> s[r] == ch && ch !in s[r + 1..]
    ensures r < 0 ==> ch !in s
  {
    if s == [] then -1
    else if s[|s| - 1] == ch then |s| - 1
    else LastIndexOf(s[..|s| - 1], ch)
  }

  /** A target that never occurs is never replaced. */
  lemma {:induction false} ReplaceAbsent(s: string, t: string, r: string)
    requires |t| > 0
    requires forall k :: !OccursAt(s, t, k)
    ensures ReplaceAll(s, t, r) == s
    decreases |s|
  {
    if |s| >= |t| {
      assert !OccursAt(s, t, 0);
      forall k ensures !OccursAt(s[1..], t, k) {
        if OccursAt(s[1..], t, k) {
          assert s[1..][k..k + |t|] == s[k + 1..k + 1 + |t|];
          assert OccursAt(s, t, k + 1);
        }
      }
      ReplaceAbsent(s[1..], t, r);
    }
  }

  /** Replacing a single character distributes over concatenation. */
  lemma {:induction false} ReplaceCharTargetConcat(x: string, y: string, a: char, r: string)
    ensures ReplaceAll(x + y, [a], r) == ReplaceAll(x, [a], r) + ReplaceAll(y, [a], r)
    decreases |x|
  {
    if x != [] {
      var xy := x + y;
      assert xy[..1] == [x[0]] && xy[1..] == x[1..] + y;
      ReplaceCharTargetConcat(x[1..], y, a, r);
    } else {
      assert x + y == y;
    }
  }

  /** Replacing a separator character that no part contains swaps the separator of the joined parts. */
  lemma {:induction false} ReplaceSeparator(parts: seq<string>, a: char, b: string)
    requires forall i :: 0 <= i < |parts| ==> a !in parts[i]
    ensures ReplaceAll(Join(parts, [a]), [a], b) == Join(parts, b)
    decreases |parts|
  {
    if |parts| == 1 {
      ReplaceCharTargetAbsent(parts[0], a, b);
    } else if |parts| > 1 {
      var rest := Join(parts[1..], [a]);
      assert Join(parts, [a]) == parts[0] + ([a] + rest);
      ReplaceCharTargetConcat(parts[0], [a] + rest, a, b);
      ReplaceCharTargetConcat([a], rest, a, b);
      ReplaceCharTargetAbsent(parts[0], a, b);
      assert ReplaceAll([a], [a], b) == b + ReplaceAll([], [a], b);
      ReplaceSeparator(parts[1..], a, b);
    }
  }

  /** Replacing the character `a` by `b` and then `b` by `a` gives back a string free of `b`. */
  lemma {:induction false} ReplaceCharTargetBack(n: string, a: char, b: char)
    requires b !in n
    ensures ReplaceAll(ReplaceAll(n, [a], [b]), [b], [a]) == n
    decreases |n|
  {
    if n != [] {
      var head := if n[0] == a then [b] else [n[0]];
      assert ReplaceAll(n, [a], [b]) == head + ReplaceAll(n[1..], [a], [b]) by {
        assert n[..1] == [n[0]];
      }
      ReplaceCharTargetConcat(head, ReplaceAll(n[1..], [a], [b]), b, [a]);
      assert ReplaceAll(head, [b], [a]) == [n[0]] by {
        assert head[..1] == head;
        assert ReplaceAll(head[1..], [b], [a]) == [];
      }
      ReplaceCharTargetBack(n[1..], a, b);
      assert n == [n[0]] + n[1..];
    }
  }

  /** A character that does not occur is never replaced. */
  lemma {:induction false} ReplaceCharTargetAbsent(s: string, a: char, r: string)
    requires a !in s
    ensures ReplaceAll(s, [a], r) == s
    decreases |s|
  {
    if s != [] {
      assert s[..1] == [s[0]];
      ReplaceCharTargetAbsent(s[1..], a, r);
      assert s == [s[0]] + s[1..];
    }
  }

  /** String.replace(char, char) and String.replace(CharSequence, CharSequence) agree on one-character strings. */
  lemma {:induction false} ReplaceCharAgrees(s: string, a: char, b: char)
    ensures ReplaceChar(s, a, b) == ReplaceAll(s, [a], [b])
    decreases |s|
  {
    if s != [] {
      assert s[..1] == [s[0]];
      ReplaceCharAgrees(s[1..], a, b);
    }
  }

  /** Deleting a suffix `t` that does not also occur earlier leaves the prefix. */
  lemma {:induction false} RemoveTrailing(s: string, t: string)
    requires |t| > 0
    requires forall k :: 0 <= k < |s| ==> !OccursAt(s + t, t, k)
    ensures ReplaceAll(s + t, t, []) == s
    decreases |s|
  {
    var st := s + t;
    if s == [] {
      assert st == t && st[..|t|] == t && st[|t|..] == [];
    } else {
      assert !OccursAt(st, t, 0);
      assert st[1..] == s[1..] + t;
      forall k | 0 <= k < |s| - 1 ensures !OccursAt(s[1..] + t, t, k) {
        if OccursAt(s[1..] + t, t, k) {
          assert st[1..][k..k + |t|] == st[k + 1..k + 1 + |t|];
          assert OccursAt(st, t, k + 1);
        }
      }
      RemoveTrailing(s[1..], t);
      assert s == [s[0]] + s[1..];
    }
  }

  /** In `q.s` with no dot in `s`, the last dot is the one after `q`. */
  lemma LastDotOfQualified(q: string, s: string)
    requires '.' !in s
    ensures LastIndexOf(q + "." + s, '.') == |q|
  {
    var w := q + "." + s;
    assert w[|q|] == '.';
  }

  /** Two parts joined: the first, the separator, the second. */
  lemma JoinTwo(a: string, b: string, sep: string)
    ensures Join([a, b], sep) == a + sep + b
  {
    assert [a, b][1..] == [b];
  }

  /**
    One step of a loop that appends the parts one by one with `sep` after every
    part but the last: after the separator, the next part completes the join of
    one more part.
   */
  lemma JoinStep(parts: seq<string>, sep: string, i: nat, acc: string)
    requires i < |parts|
    requires i == 0 ==> acc == ""
    requires 0 < i ==> acc == Join(parts[..i], sep) + sep
    ensures acc + parts[i] == Join(parts[..i + 1], sep)
  {
    assert parts[..i + 1] == parts[..i] + [parts[i]];
    if i > 0 {
      JoinSnoc(parts[..i], sep, parts[i]);
    } else {
      assert parts[..1] == [parts[0]];
    }
  }

  /** Appending one more part to a non-empty list adds the separator and the part at the end. */
  lemma {:induction false} JoinSnoc(parts: seq<string>, sep: string, x: string)
    requires |parts| > 0
    ensures Join(parts + [x], sep) == Join(parts, sep) + sep + x
    decreases |parts|
  {
    var px := parts + [x];
    if |parts| == 1 {
      assert px[1..] == [x];
    } else {
      assert px[1..] == parts[1..] + [x];
      JoinSnoc(parts[1..], sep, x);
    }
  }

  /** Every character of a replaced string comes from the original or from the replacement. */
  lemma {:induction false} ReplaceMembers(s: string, t: string, r: string)
    requires |t| > 0
    ensures forall ch :: ch in ReplaceAll(s, t, r) ==> ch in s || ch in r
    decreases |s|
  {
    if |s| >= |t| {
      if s[..|t|] == t {
        ReplaceMembers(s[|t|..], t, r);
        assert forall ch :: ch in s[|t|..] ==> ch in s;
      } else {
        ReplaceMembers(s[1..], t, r);
        assert forall ch :: ch in s[1..] ==> ch in s;
      }
    }
  }

  /** A character replaced by a string without it no longer occurs. */
  lemma {:induction false} ReplaceCharGone(s: string, a: char, r: string)
    requires a !in r
    ensures a !in ReplaceAll(s, [a], r)
    decreases |s|
  {
    if |s| >= 1 {
      ReplaceCharGone(s[1..], a, r);
      if s[..1] != [a] {
        assert s[0] != a by {
          assert s[..1] == [s[0]];
        }
      }
    }
  }

  /** A string that lacks one of the characters of `t` has no occurrence of `t`. */
  lemma NoOccurrenceWithout(s: string, t: string, i: nat)
    requires i < |t| && t[i] !in s
    ensures forall k :: !OccursAt(s, t, k)
  {
    forall k ensures !OccursAt(s, t, k) {
      if 0 <= k && k + |t| <= |s| {
        assert s[k..k + |t|][i] == s[k + i] && s[k + i] in s;
      }
    }
  }
}
