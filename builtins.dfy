/**
 * The JavaScript built-ins the dashboard's logic relies on:
 * `String.prototype.trim`, `toLowerCase`, `includes` and `Math.round`, and a
 * search for the first occurrence of a separator used by the model's parsers.
 */
module Builtins {
  import opened Wrappers

  /** The WhiteSpace and LineTerminator code points that `trim` strips
      (sections 12.2 and 12.3 of ECMA-262). */
  predicate IsWhitespace(c: char) {
    || c == '\t' || c == '\n' || c == '\U{000B}' || c == '\U{000C}' || c == '\r'
    || c == ' ' || c == '\U{00A0}' || c == '\U{1680}'
    || ('\U{2000}' <= c <= '\U{200A}')
    || c == '\U{2028}' || c == '\U{2029}' || c == '\U{202F}' || c == '\U{205F}'
    || c == '\U{3000}' || c == '\U{FEFF}'
  }

  /** A string made of whitespace only (the empty string included): exactly the
      strings whose trimmed form is falsy. */
  ghost predicate Blank(s: string) {
    forall i :: 0 <= i < |s| ==> IsWhitespace(s[i])
  }

  /** Length of the run of whitespace at the start of `s`. */
  function LeadingSpace(s: string): (n: nat)
    ensures n <= |s|
    ensures Blank(s[..n])
    ensures n < |s| ==> !IsWhitespace(s[n])
  {
    if s != [] && IsWhitespace(s[0]) then
      var n := 1 + LeadingSpace(s[1..]);
      assert forall i :: 1 <= i < n ==> s[i] == s[1..][i - 1];
      n
    else 0
  }

  /** Length of the run of whitespace at the end of `s`. */
  function TrailingSpace(s: string): (n: nat)
    ensures n <= |s|
    ensures Blank(s[|s| - n..])
    ensures n < |s| ==> !IsWhitespace(s[|s| - n - 1])
  {
    if s != [] && IsWhitespace(s[|s| - 1]) then
      var n := 1 + TrailingSpace(s[..|s| - 1]);
      assert forall i :: |s| - n <= i < |s| - 1 ==> s[i] == s[..|s| - 1][i];
      n
    else 0
  }

  /** `s.trim()`: `s` without its leading and trailing whitespace. What is
      kept is the stretch of `s` right after its leading whitespace, and
      everything after that stretch is whitespace too. */
  function Trim(s: string): (r: string)
    ensures |r| <= |s|
    ensures r == [] <==> Blank(s)
    ensures r != [] ==> !IsWhitespace(r[0]) && !IsWhitespace(r[|r| - 1])
    ensures LeadingSpace(s) + |r| <= |s| && r == s[LeadingSpace(s)..LeadingSpace(s) + |r|]
    ensures Blank(s[LeadingSpace(s) + |r|..])
  {
    var a := LeadingSpace(s);
    var t := s[a..];
    var b := TrailingSpace(t);
    var r := t[..|t| - b];
    TrimEmptyIffBlank(s, a, t, b, r);
    TrimEnds(s, a, t, b, r);
    TrimSlices(s, a, t, b, r);
    r
  }

  lemma TrimSlices(s: string, a: nat, t: string, b: nat, r: string)
    requires a == LeadingSpace(s) && t == s[a..] && b == TrailingSpace(t) && r == t[..|t| - b]
    ensures r == s[a..a + |r|]
    ensures Blank(s[a + |r|..])
  {
    var tail := t[|t| - b..];
    assert Blank(tail);
    assert s[a + |r|..] == tail;
  }

  lemma TrimEmptyIffBlank(s: string, a: nat, t: string, b: nat, r: string)
    requires a == LeadingSpace(s) && t == s[a..] && b == TrailingSpace(t) && r == t[..|t| - b]
    ensures r == [] <==> Blank(s)
  {
    if r == [] {
      assert b == |t|;
      BlankConcat(s[..a], t);
      assert s == s[..a] + t;
    } else {
      assert s[a] == r[0];
    }
  }

  lemma TrimEnds(s: string, a: nat, t: string, b: nat, r: string)
    requires a == LeadingSpace(s) && t == s[a..] && b == TrailingSpace(t) && r == t[..|t| - b]
    ensures r != [] ==> !IsWhitespace(r[0]) && !IsWhitespace(r[|r| - 1])
  {
    if r != [] {
      assert r[|r| - 1] == t[|t| - b - 1];
    }
  }

  lemma BlankConcat(x: string, y: string)
    requires Blank(x) && Blank(y)
    ensures Blank(x + y)
  {
    forall i | 0 <= i < |x + y| ensures IsWhitespace((x + y)[i]) {
      if i < |x| { assert (x + y)[i] == x[i]; } else { assert (x + y)[i] == y[i - |x|]; }
    }
  }

  /** Trimming is idempotent: a trimmed string has nothing left to strip. */
  lemma TrimIdempotent(s: string)
    ensures Trim(Trim(s)) == Trim(s)
  {
    var r := Trim(s);
    if r != [] {
      assert LeadingSpace(r) == 0;
      assert TrailingSpace(r) == 0;
    }
  }

  /** ASCII case mapping of `toLowerCase`. */
  function LowerChar(c: char): char {
    if 'A' <= c <= 'Z' then (c as int + 32) as char else c
  }

  /** `s.toLowerCase()`, restricted to the ASCII letters. */
  function ToLower(s: string): (r: string)
    ensures |r| == |s|
    ensures forall i :: 0 <= i < |s| ==> r[i] == LowerChar(s[i])
    ensures forall i :: 0 <= i < |r| ==> !('A' <= r[i] <= 'Z')
  {
    if s == [] then [] else [LowerChar(s[0])] + ToLower(s[1..])
  }

  /** `sub` occurs in `s` starting at index `i`. */
  predicate OccursAt(s: string, sub: string, i: int) {
    0 <= i <= |s| - |sub| && s[i..i + |sub|] == sub
  }

  /** `s.includes(sub)`. */
  predicate Includes(s: string, sub: string)
    ensures Includes(s, sub) ==> |sub| <= |s|
    ensures sub == [] ==> Includes(s, sub)
  {
    assert sub == [] ==> OccursAt(s, sub, 0);
    exists i | 0 <= i <= |s| - |sub| :: OccursAt(s, sub, i)
  }

  /** A text placed between two others is included in the whole, and every
      text includes itself. */
  lemma {:induction false} IncludesInfix(a: string, sub: string, b: string)
    ensures Includes(a + sub + b, sub)
    ensures Includes(sub, sub)
  {
    var s := a + sub + b;
    assert s[|a|..|a| + |sub|] == sub;
    assert OccursAt(s, sub, |a|);
    assert sub[0..|sub|] == sub;
    assert OccursAt(sub, sub, 0);
  }

  /** The first position of the separator `c` in `s`, or `None` when it does
      not occur: a helper for the parsers of the query and the stored JSON. */
  function IndexOf(s: string, c: char): (r: Option<nat>)
    ensures r.None? <==> c !in s
    ensures r.Some? ==> r.value < |s| && s[r.value] == c && c !in s[..r.value]
  {
    if s == [] then None
    else if s[0] == c then Some(0)
    else match IndexOf(s[1..], c)
      case None => None
      case Some(k) =>
        assert s[..k + 1] == [s[0]] + s[1..][..k];
        Some(k + 1)
  }

  /** The first occurrence of `c` in `a + [c] + b` is right after `a` when `a`
      holds no `c`: the basis of splitting a string at a separator. */
  lemma IndexOfAfter(a: string, c: char, b: string)
    requires c !in a
    ensures IndexOf(a + [c] + b, c) == Some(|a|)
  {
    var s := a + [c] + b;
    assert s[|a|] == c;
    assert s[..|a|] == a;
  }

  /** `Math.round(x)`: the nearest integer, halves rounded up. */
  function Round(x: real): (r: int)
    ensures r as real - 0.5 <= x < r as real + 0.5
  {
    (x + 0.5).Floor
  }

  /** Rounding never reverses the order of two numbers. */
  lemma RoundMonotone(x: real, y: real)
    requires x <= y
    ensures Round(x) <= Round(y)
  {
  }
}
