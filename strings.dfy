/**
 * The handful of JavaScript string operations the page script relies on:
 * `trim`, `includes`, `split` on a one-character separator, `join`,
 * and the search for the first occurrence of a substring.
 */
module Strings {

  import Wrappers

  /** The characters String.prototype.trim removes: ECMAScript WhiteSpace
      (tab, vertical tab, form feed, space, no-break space, byte-order mark and
      the Unicode space separators) and LineTerminator. */
  predicate IsJsWhitespace(c: char)
  {
    c == '\t' || c == '\n' || c == '\U{B}' || c == '\U{C}' || c == '\r' ||
    c == ' ' || c == '\U{A0}' || c == '\U{1680}' || ('\U{2000}' <= c <= '\U{200A}') ||
    c == '\U{2028}' || c == '\U{2029}' || c == '\U{202F}' || c == '\U{205F}' ||
    c == '\U{3000}' || c == '\U{FEFF}'
  }

  /** The index of the first non-whitespace character at or after `i`, or |s|. */
  function SkipLeading(s: string, i: nat): (n: nat)
    requires i <= |s|
    ensures i <= n <= |s|
    ensures forall k :: i <= k < n ==> IsJsWhitespace(s[k])
    ensures n < |s| ==> !IsJsWhitespace(s[n])
    decreases |s| - i
  {
    if i < |s| && IsJsWhitespace(s[i]) then SkipLeading(s, i + 1) else i
  }

  /** The index just past the last non-whitespace character of s[lo..j], or `lo`. */
  function SkipTrailing(s: string, lo: nat, j: nat): (m: nat)
    requires lo <= j <= |s|
    ensures lo <= m <= j
    ensures forall k :: m <= k < j ==> IsJsWhitespace(s[k])
    ensures m > lo ==> !IsJsWhitespace(s[m - 1])
    decreases j
  {
    if j > lo && IsJsWhitespace(s[j - 1]) then SkipTrailing(s, lo, j - 1) else j
  }

  /** String.prototype.trim: the slice of `s` between its leading and its
      trailing whitespace; it neither starts nor ends with whitespace, and is
      empty exactly when `s` is all whitespace. */
  function Trim(s: string): (r: string)
    ensures OccursAt(s, r, SkipLeading(s, 0))
    ensures forall k :: 0 <= k < SkipLeading(s, 0) ==> IsJsWhitespace(s[k])
    ensures forall k :: SkipLeading(s, 0) + |r| <= k < |s| ==> IsJsWhitespace(s[k])
    ensures |r| > 0 ==> !IsJsWhitespace(r[0]) && !IsJsWhitespace(r[|r| - 1])
    ensures r == "" <==> forall k :: 0 <= k < |s| ==> IsJsWhitespace(s[k])
  {
    var a := SkipLeading(s, 0);
    var b := SkipTrailing(s, a, |s|);
    assert b > a ==> s[a..b][0] == s[a] && s[a..b][b - a - 1] == s[b - 1];
    s[a..b]
  }

  /** `sub` occurs in `s` starting at index `i`. */
  predicate OccursAt(s: string, sub: string, i: nat)
  {
    i + |sub| <= |s| && s[i..i + |sub|] == sub
  }

  /** String.prototype.includes. */
  predicate Contains(s: string, sub: string)
  {
    exists i: nat | i <= |s| :: OccursAt(s, sub, i)
  }

  /** The first index at or after `from` where `sub` occurs, if any. */
  function IndexOfFrom(s: string, sub: string, from: nat): (r: Wrappers.Option<nat>)
    ensures r.Some? ==> from <= r.value && OccursAt(s, sub, r.value)
    ensures r.Some? ==> forall j: nat :: from <= j < r.value ==> !OccursAt(s, sub, j)
    ensures r.None? ==> forall j: nat :: from <= j ==> !OccursAt(s, sub, j)
    decreases |s| - from
  {
    if from + |sub| > |s| then Wrappers.None
    else if s[from..from + |sub|] == sub then Wrappers.Some(from)
    else IndexOfFrom(s, sub, from + 1)
  }

  /** The first occurrence of `sub`, or None when there is none: `includes`
      is its Some? test, and `split(sub)[0]` is the text before it. */
  function IndexOf(s: string, sub: string): (r: Wrappers.Option<nat>)
    ensures r.Some? <==> Contains(s, sub)
    ensures r.Some? ==> OccursAt(s, sub, r.value) && forall j: nat :: j < r.value ==> !OccursAt(s, sub, j)
  {
    IndexOfFrom(s, sub, 0)
  }

  /** An occurrence of an occurrence is an occurrence. */
  lemma OccursWithin(s: string, mid: string, sub: string, i: nat, j: nat)
    requires OccursAt(s, mid, i) && OccursAt(mid, sub, j)
    ensures OccursAt(s, sub, i + j)
  {
    forall k | 0 <= k < |sub| ensures s[i + j + k] == sub[k] {
      assert s[i + j + k] == s[i..i + |mid|][j + k] == mid[j + k] == mid[j..j + |sub|][k];
    }
    assert s[i + j..i + j + |sub|] == sub;
  }

  /** If `s` contains `mid` and `mid` contains `sub`, then `s` contains `sub`. */
  lemma ContainsTransitive(s: string, mid: string, sub: string)
    requires Contains(s, mid) && Contains(mid, sub)
    ensures Contains(s, sub)
  {
    var i: nat :| OccursAt(s, mid, i);
    var j: nat :| OccursAt(mid, sub, j);
    OccursWithin(s, mid, sub, i, j);
  }

  /** The first index of character `c` in `s`. */
  function FirstIndex(s: string, c: char): (r: nat)
    requires c in s
    ensures r < |s| && s[r] == c && c !in s[..r]
  {
    if s[0] == c then 0 else 1 + FirstIndex(s[1..], c)
  }

  /** The last index of character `c` in `s`. */
  function LastIndex(s: string, c: char): (r: nat)
    requires c in s
    ensures r < |s| && s[r] == c && c !in s[r + 1..]
  {
    if s[|s| - 1] == c then |s| - 1 else LastIndex(s[..|s| - 1], c)
  }

  /** String.prototype.split with a one-character separator: the pieces
      between consecutive separators, none of which contains the separator;
      there are two or more pieces exactly when the separator occurs. */
  function Split(s: string, c: char): (r: seq<string>)
    ensures |r| >= 1
    ensures |r| >= 2 <==> c in s
    ensures forall k :: 0 <= k < |r| ==> c !in r[k]
    decreases |s|
  {
    if c !in s then [s]
    else
      var i := FirstIndex(s, c);
      [s[..i]] + Split(s[i + 1..], c)
  }

  /** Array.prototype.join on strings. */
  function Join(parts: seq<string>, sep: string): string
  {
    if |parts| == 0 then ""
    else if |parts| == 1 then parts[0]
    else parts[0] + sep + Join(parts[1..], sep)
  }

  /** Joining the pieces of a split with its separator gives the string back. */
  lemma {:induction false} JoinSplit(s: string, c: char)
    ensures Join(Split(s, c), [c]) == s
    decreases |s|
  {
    if c in s {
      var i := FirstIndex(s, c);
      JoinSplit(s[i + 1..], c);
      assert s == s[..i] + [c] + s[i + 1..];
    }
  }

  /** Peeling the last piece off a join. */
  lemma {:induction false} JoinLast(parts: seq<string>, sep: string)
    requires |parts| >= 2
    ensures Join(parts, sep) == Join(parts[..|parts| - 1], sep) + sep + parts[|parts| - 1]
    decreases |parts|
  {
    if |parts| > 2 {
      JoinLast(parts[1..], sep);
      assert parts[1..][..|parts| - 2] == parts[..|parts| - 1][1..];
    }
  }

  /** A separator followed by separator-free text is the last separator. */
  lemma {:induction false} LastIndexOfSplit(s: string, front: string, last: string, c: char)
    requires s == front + [c] + last && c !in last
    ensures c in s && LastIndex(s, c) == |front|
    ensures s[..|front|] == front && s[|front| + 1..] == last
  {
    var m := |front|;
    assert s[m] == c;
  }

  /** A split with two or more pieces is its front pieces, the separator and the last piece. */
  lemma {:induction false} SplitShape(s: string, c: char, p: seq<string>)
    requires c in s && p == Split(s, c)
    ensures |p| >= 2 && s == Join(p[..|p| - 1], [c]) + [c] + p[|p| - 1]
  {
    JoinSplit(s, c);
    JoinLast(p, [c]);
  }

  /** A split with two or more pieces, taken apart into its front pieces and its last piece. */
  lemma SplitParts(s: string, c: char) returns (front: seq<string>, last: string)
    requires c in s
    ensures Split(s, c) == front + [last]
    ensures s == Join(front, [c]) + [c] + last && c !in last
  {
    var p := Split(s, c);
    SplitShape(s, c, p);
    front, last := p[..|p| - 1], p[|p| - 1];
    assert p == front + [last];
    assert c !in p[|p| - 1];
  }

  /** The last piece of a split is the text after the last separator, and
      the other pieces joined back are the text before it. */
  lemma {:induction false} SplitAtLast(s: string, c: char)
    requires c in s
    ensures var p := Split(s, c); var k := LastIndex(s, c);
      p[|p| - 1] == s[k + 1..] && Join(p[..|p| - 1], [c]) == s[..k]
  {
    var front, last := SplitParts(s, c);
    LastIndexOfSplit(s, Join(front, [c]), last, c);
    assert (front + [last])[..|front|] == front;
  }
}
