/**
 * The few JavaScript string operations the portfolio's logic relies on:
 * `String.prototype.trim`, `split` on a one-character separator (and its
 * inverse, `join`), and `toLowerCase` restricted to ASCII letters.
 * Strings are sequences of Unicode scalar values.
 */
module JsStrings {

  /**
   * The ECMAScript WhiteSpace and LineTerminator code points: exactly the
   * characters `trim` removes and the regular-expression class `\s` matches.
   */
  const WhitespaceChars: set<char> := {
    '\t', '\n', '\U{B}', '\U{C}', '\r', ' ', '\U{A0}', '\U{1680}',
    '\U{2000}', '\U{2001}', '\U{2002}', '\U{2003}', '\U{2004}', '\U{2005}',
    '\U{2006}', '\U{2007}', '\U{2008}', '\U{2009}', '\U{200A}',
    '\U{2028}', '\U{2029}', '\U{202F}', '\U{205F}', '\U{3000}', '\U{FEFF}'
  }

  predicate IsWhitespace(c: char) {
    c in WhitespaceChars
  }

  predicate AllWhitespace(s: string) {
    forall k :: 0 <= k < |s| ==> IsWhitespace(s[k])
  }

  predicate NoWhitespace(s: string) {
    forall k :: 0 <= k < |s| ==> !IsWhitespace(s[k])
  }

  /** The index of the first non-whitespace character at or after `i`, or `|s|`. */
  function TextStart(s: string, i: nat): (a: nat)
    requires i <= |s|
    ensures i <= a <= |s|
    ensures forall k :: i <= k < a ==> IsWhitespace(s[k])
    ensures a < |s| ==> !IsWhitespace(s[a])
    decreases |s| - i
  {
    if i < |s| && IsWhitespace(s[i]) then TextStart(s, i + 1) else i
  }

  /** The index just past the last non-whitespace character in `s[lo..j]`, or `lo`. */
  function TextEnd(s: string, lo: nat, j: nat): (b: nat)
    requires lo <= j <= |s|
    ensures lo <= b <= j
    ensures forall k :: b <= k < j ==> IsWhitespace(s[k])
    ensures b > lo ==> !IsWhitespace(s[b - 1])
    decreases j - lo
  {
    if j > lo && IsWhitespace(s[j - 1]) then TextEnd(s, lo, j - 1) else j
  }

  /**
   * `s.trim()`: the slice of `s` left once the whitespace at both ends is
   * dropped. It is empty exactly when `s` is all whitespace.
   */
  function Trim(s: string): (r: string)
    ensures r == [] <==> AllWhitespace(s)
    ensures r != [] ==> !IsWhitespace(r[0]) && !IsWhitespace(r[|r| - 1])
    ensures var a := TextStart(s, 0);
            && a + |r| <= |s| && r == s[a..a + |r|]
            && (forall k :: 0 <= k < a ==> IsWhitespace(s[k]))
            && (forall k :: a + |r| <= k < |s| ==> IsWhitespace(s[k]))
  {
    var a := TextStart(s, 0);
    var b := TextEnd(s, a, |s|);
    if a == b then
      assert AllWhitespace(s) by {
        forall k | 0 <= k < |s| ensures IsWhitespace(s[k]) {
          assert k < a || b <= k;
        }
      }
      []
    else
      s[a..b]
  }

  lemma {:induction false} TrimIdempotent(s: string)
    ensures Trim(Trim(s)) == Trim(s)
  {
    var r := Trim(s);
    if r != [] {
      TrimOfUntrimmable(r);
    }
  }

  /** A string with no whitespace at either end is its own trim. */
  lemma TrimOfUntrimmable(s: string)
    requires s != [] ==> !IsWhitespace(s[0]) && !IsWhitespace(s[|s| - 1])
    ensures Trim(s) == s
  {
    if s != [] {
      assert TextStart(s, 0) == 0;
      assert TextEnd(s, 0, |s|) == |s|;
    }
  }

  /** `c` occurs nowhere in `s`. */
  predicate Lacks(s: string, c: char) {
    forall k :: 0 <= k < |s| ==> s[k] != c
  }

  /** The index of the first `c` in `s`, or `|s|` when there is none. */
  function IndexOf(s: string, c: char): (i: nat)
    ensures i <= |s|
    ensures i < |s| ==> s[i] == c
    ensures Lacks(s[..i], c)
  {
    if s == [] then 0
    else if s[0] == c then 0
    else
      var j := IndexOf(s[1..], c);
      assert s[..j + 1] == [s[0]] + s[1..][..j];
      1 + j
  }

  /** `s.split(sep)` for a one-character separator: the pieces between separators, in order. */
  function Split(s: string, sep: char): (parts: seq<string>)
    ensures |parts| >= 1
    ensures forall k :: 0 <= k < |parts| ==> Lacks(parts[k], sep)
    decreases |s|
  {
    var i := IndexOf(s, sep);
    if i == |s| then
      assert s[..i] == s;
      [s]
    else
      [s[..i]] + Split(s[i + 1..], sep)
  }

  /** `parts.join(sep)`. */
  function Join(parts: seq<string>, sep: char): string {
    if parts == [] then []
    else if |parts| == 1 then parts[0]
    else parts[0] + [sep] + Join(parts[1..], sep)
  }

  /** Splitting loses nothing: joining the pieces back gives the string. */
  lemma {:induction false} JoinSplit(s: string, sep: char)
    ensures Join(Split(s, sep), sep) == s
    decreases |s|
  {
    var i := IndexOf(s, sep);
    if i == |s| {
      assert s[..i] == s;
    } else {
      var head, tail := s[..i], s[i + 1..];
      var rest := Split(tail, sep);
      assert Split(s, sep) == [head] + rest;
      JoinSplit(tail, sep);
      JoinCons(head, rest, sep);
      assert s == head + [sep] + tail;
    }
  }

  lemma JoinCons(head: string, rest: seq<string>, sep: char)
    requires |rest| >= 1
    ensures Join([head] + rest, sep) == head + [sep] + Join(rest, sep)
  {
    assert ([head] + rest)[1..] == rest;
  }

  lemma {:induction false} IndexOfAbsent(s: string, c: char)
    requires Lacks(s, c)
    ensures IndexOf(s, c) == |s|
  {
    if s != [] {
      IndexOfAbsent(s[1..], c);
    }
  }

  lemma {:induction false} IndexOfFirst(head: string, c: char, rest: string)
    requires Lacks(head, c)
    ensures IndexOf(head + [c] + rest, c) == |head|
  {
    var s := head + [c] + rest;
    if head != [] {
      assert s[0] == head[0];
      assert s[1..] == head[1..] + [c] + rest;
      IndexOfFirst(head[1..], c, rest);
    }
  }

  /** Joining separator-free pieces and splitting again gives the pieces back. */
  lemma {:induction false} SplitJoin(parts: seq<string>, sep: char)
    requires |parts| >= 1
    requires forall k :: 0 <= k < |parts| ==> Lacks(parts[k], sep)
    ensures Split(Join(parts, sep), sep) == parts
  {
    if |parts| == 1 {
      var s := parts[0];
      IndexOfAbsent(s, sep);
      assert s[..|s|] == s;
    } else {
      var head, rest := parts[0], Join(parts[1..], sep);
      var s := head + [sep] + rest;
      assert Join(parts, sep) == s;
      IndexOfFirst(head, sep, rest);
      assert s[..|head|] == head;
      assert s[|head| + 1..] == rest;
      SplitJoin(parts[1..], sep);
      assert parts == [head] + parts[1..];
    }
  }

  /** `c.repeat(n)` for a one-character string `c`. */
  function Repeat(c: char, n: nat): (r: string)
    ensures |r| == n && forall k :: 0 <= k < n ==> r[k] == c
  {
    if n == 0 then [] else [c] + Repeat(c, n - 1)
  }

  /** `toLowerCase` on the ASCII letters; every other character is kept. */
  function LowerAscii(c: char): char {
    if 'A' <= c <= 'Z' then (c as int + 32) as char else c
  }

  function ToLowerAscii(s: string): (r: string)
    ensures |r| == |s|
    ensures forall k :: 0 <= k < |s| ==> r[k] == LowerAscii(s[k])
  {
    if s == [] then [] else [LowerAscii(s[0])] + ToLowerAscii(s[1..])
  }
}
