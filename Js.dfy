/**
 * The pieces of JavaScript, lodash and regular-expression behaviour that the
 * query core relies on, written out so that their edge cases are explicit:
 * `String.prototype.split`, a global `replace` with an empty replacement,
 * `Array.prototype.filter` / `lodash.reject`, `lodash.clamp`,
 * `Array.prototype.slice(0, n)`, `String.prototype.padStart`, the `\d`,
 * `\w` and `\s` character classes and leftmost-match search.
 *
 * JavaScript strings are sequences of UTF-16 code units; here a string is a
 * `seq<char>` of Unicode scalar values.
 */
module Js {
  import opened Wrappers

  // ---------------------------------------------------------------------
  // Character classes of JavaScript regular expressions
  // ---------------------------------------------------------------------

  /** `\d` */
  predicate IsDigit(c: char): (r: bool)
    ensures r <==> c in "0123456789"
  {
    '0' <= c <= '9'
  }

  /** `\w` */
  predicate IsWordChar(c: char): (r: bool)
    ensures IsDigit(c) || c == '_' ==> r
    ensures r ==> c as int < 128
  {
    ('a' <= c <= 'z') || ('A' <= c <= 'Z') || IsDigit(c) || c == '_'
  }

  /** `\s`: the ECMAScript WhiteSpace and LineTerminator code points. */
  predicate IsSpace(c: char): (r: bool)
    ensures r ==> !IsWordChar(c)
    ensures c == ' ' || c == '\t' || c == '\n' ==> r
  {
    c == '\t' || c == '\n' || c == '\U{B}' || c == '\U{C}' || c == '\r' || c == ' '
    || c == '\U{A0}' || c == '\U{1680}' || ('\U{2000}' <= c <= '\U{200A}')
    || c == '\U{2028}' || c == '\U{2029}' || c == '\U{202F}' || c == '\U{205F}'
    || c == '\U{3000}' || c == '\U{FEFF}'
  }

  /** `\S` */
  predicate IsNonSpace(c: char) {
    !IsSpace(c)
  }

  predicate AllDigits(s: string) {
    forall i :: 0 <= i < |s| ==> IsDigit(s[i])
  }

  /** `s` matches `/^\d{lo,hi}$/` (with `hi` unbounded it is `/^\d{lo,}$/`). */
  predicate DigitsOfLength(s: string, lo: nat, hi: nat) {
    lo <= |s| <= hi && AllDigits(s)
  }

  /** `Number(s)` for a string of decimal digits. */
  function DigitsValue(s: string): (n: nat)
    requires AllDigits(s)
    ensures n < Pow10(|s|)
  {
    if s == [] then 0 else DigitsValue(s[..|s| - 1]) * 10 + (s[|s| - 1] as int - '0' as int)
  }

  /** `10` to the power `k`. */
  function Pow10(k: nat): (p: nat)
    ensures p >= 1
  {
    if k == 0 then 1 else 10 * Pow10(k - 1)
  }

  /** One or two digits denote a number below 100. */
  lemma TwoDigitsBelowHundred(s: string)
    requires DigitsOfLength(s, 1, 2)
    ensures DigitsValue(s) <= 99
  {
    if |s| == 2 {
      var first := s[..1];
      assert first[..0] == [];
      assert DigitsValue(first) == s[0] as int - '0' as int;
      assert IsDigit(s[0]) && IsDigit(s[1]);
    }
  }

  /** A digit string denotes zero exactly when all of its digits are `0`. */
  lemma {:induction false} DigitsValueZero(s: string)
    requires AllDigits(s)
    ensures DigitsValue(s) == 0 <==> forall i :: 0 <= i < |s| ==> s[i] == '0'
  {
    if s != [] {
      var init := s[..|s| - 1];
      DigitsValueZero(init);
      if DigitsValue(s) == 0 {
        forall i | 0 <= i < |s| ensures s[i] == '0' {
          if i < |s| - 1 { assert s[i] == init[i]; }
        }
      }
      if forall i :: 0 <= i < |s| ==> s[i] == '0' {
        assert forall i :: 0 <= i < |init| ==> init[i] == s[i];
      }
    }
  }

  // ---------------------------------------------------------------------
  // Numbers: lodash.clamp and Array.prototype.slice
  // ---------------------------------------------------------------------

  /**
   * `lodash.clamp(x, lower, upper)`: the upper bound is applied first and the
   * lower bound second, so an empty range (`upper < lower`) yields `lower`.
   */
  function Clamp(x: int, lower: int, upper: int): (r: int)
    ensures lower <= upper ==> lower <= r <= upper
    ensures lower <= x <= upper ==> r == x
    ensures x < lower ==> r == lower
    ensures lower <= upper < x ==> r == upper
    ensures upper < lower ==> r == lower
  {
    var capped := if x <= upper then x else upper;
    if capped >= lower then capped else lower
  }

  /** `s.slice(0, end)`: a prefix of `s`; a negative `end` counts from the back. */
  function SliceTo<T>(s: seq<T>, end: int): (r: seq<T>)
    ensures r <= s
    ensures 0 <= end ==> |r| == if end < |s| then end else |s|
    ensures end < 0 ==> |r| == if |s| + end > 0 then |s| + end else 0
  {
    if end < 0 then
      (if |s| + end > 0 then s[..|s| + end] else [])
    else if end < |s| then s[..end] else s
  }

  // ---------------------------------------------------------------------
  // Sequences: filter and concatenation
  // ---------------------------------------------------------------------

  /** `s.filter(keep)`: the elements of `s` that satisfy `keep`, in their order. */
  function Filter<T>(s: seq<T>, keep: T -> bool): (r: seq<T>)
    ensures |r| <= |s|
    ensures forall i :: 0 <= i < |r| ==> r[i] in s && keep(r[i])
    ensures forall i :: 0 <= i < |s| && keep(s[i]) ==> s[i] in r
    decreases |s|
  {
    if s == [] then []
    else (if keep(s[0]) then [s[0]] else []) + Filter(s[1..], keep)
  }

  /** Filtering a concatenation filters each part: the relative order is kept. */
  lemma {:induction false} FilterConcat<T>(a: seq<T>, b: seq<T>, keep: T -> bool)
    ensures Filter(a + b, keep) == Filter(a, keep) + Filter(b, keep)
    decreases |a|
  {
    if a == [] {
      assert a + b == b;
    } else {
      assert (a + b)[1..] == a[1..] + b;
      FilterConcat(a[1..], b, keep);
    }
  }

  /** Nothing is dropped when every element is kept. */
  lemma {:induction false} FilterKeepsAll<T>(s: seq<T>, keep: T -> bool)
    requires forall i :: 0 <= i < |s| ==> keep(s[i])
    ensures Filter(s, keep) == s
    decreases |s|
  {
    if s != [] {
      FilterKeepsAll(s[1..], keep);
    }
  }

  /** Filtering twice with the same test is filtering once. */
  lemma {:induction false} FilterIdempotent<T>(s: seq<T>, keep: T -> bool)
    ensures Filter(Filter(s, keep), keep) == Filter(s, keep)
  {
    FilterKeepsAll(Filter(s, keep), keep);
  }

  function Concat<T>(xs: seq<seq<T>>): seq<T>
    decreases |xs|
  {
    if xs == [] then [] else xs[0] + Concat(xs[1..])
  }

  predicate IsNonEmpty<T>(s: seq<T>) {
    |s| > 0
  }

  /** Dropping empty pieces does not change their concatenation. */
  lemma {:induction false} ConcatNonEmpty<T>(xs: seq<seq<T>>)
    ensures Concat(Filter(xs, IsNonEmpty)) == Concat(xs)
    decreases |xs|
  {
    if xs != [] {
      ConcatNonEmpty(xs[1..]);
      var rest := Filter(xs[1..], IsNonEmpty);
      if IsNonEmpty(xs[0]) {
        assert Filter(xs, IsNonEmpty) == [xs[0]] + rest;
        assert ([xs[0]] + rest)[1..] == rest;
      } else {
        assert Filter(xs, IsNonEmpty) == rest;
        assert xs[0] == [];
        assert xs[0] + Concat(xs[1..]) == Concat(xs[1..]);
      }
    }
  }

  /** `xs.join(sep)` for a non-empty array. */
  function Join<T>(xs: seq<seq<T>>, sep: seq<T>): seq<T>
    requires |xs| >= 1
    decreases |xs|
  {
    if |xs| == 1 then xs[0] else xs[0] + sep + Join(xs[1..], sep)
  }

  // ---------------------------------------------------------------------
  // Occurrences of a pattern
  // ---------------------------------------------------------------------

  /** `pat` occurs in `s` starting at index `i`. */
  predicate OccursAt<T(==)>(s: seq<T>, pat: seq<T>, i: int) {
    0 <= i && i + |pat| <= |s| && s[i..i + |pat|] == pat
  }

  ghost predicate Contains<T>(s: seq<T>, pat: seq<T>) {
    exists i :: OccursAt(s, pat, i)
  }

  /** An occurrence in the tail of a sequence is an occurrence in the sequence. */
  lemma ContainsTail<T>(s: seq<T>, pat: seq<T>)
    requires s != []
    ensures Contains(s[1..], pat) ==> Contains(s, pat)
  {
    if Contains(s[1..], pat) {
      var j :| OccursAt(s[1..], pat, j);
      assert s[1..][j..j + |pat|] == s[j + 1..j + 1 + |pat|];
      assert OccursAt(s, pat, j + 1);
    }
  }

  /** The leftmost occurrence of `pat` in `s` at or after index `from`. */
  function IndexFrom<T(==)>(s: seq<T>, pat: seq<T>, from: nat): (r: Option<nat>)
    ensures r.Some? ==> from <= r.value && OccursAt(s, pat, r.value)
    ensures r.Some? ==> forall j :: from <= j < r.value ==> !OccursAt(s, pat, j)
    ensures r.None? ==> forall j :: from <= j ==> !OccursAt(s, pat, j)
    decreases |s| - from
  {
    if from + |pat| > |s| then None
    else if OccursAt(s, pat, from) then Some(from)
    else IndexFrom(s, pat, from + 1)
  }

  /** `s.indexOf(pat)`, with `None` for JavaScript's `-1`. */
  function IndexOf<T(==)>(s: seq<T>, pat: seq<T>): (r: Option<nat>)
    ensures r.Some? <==> Contains(s, pat)
    ensures r.Some? ==> OccursAt(s, pat, r.value) && forall j :: 0 <= j < r.value ==> !OccursAt(s, pat, j)
  {
    IndexFrom(s, pat, 0)
  }

  /** The longest prefix of `s` whose characters all satisfy `p` (a greedy `p*`). */
  function LeadingRun(s: string, p: char -> bool): (r: string)
    ensures r <= s
    ensures forall i :: 0 <= i < |r| ==> p(r[i])
    ensures |r| < |s| ==> !p(s[|r|])
    decreases |s|
  {
    if s == [] || !p(s[0]) then [] else [s[0]] + LeadingRun(s[1..], p)
  }

  // ---------------------------------------------------------------------
  // String.prototype.split
  // ---------------------------------------------------------------------

  /** The one-character strings of `s`, in order. */
  function Chars(s: string): (r: seq<string>)
    ensures |r| == |s|
    ensures forall i :: 0 <= i < |s| ==> r[i] == [s[i]]
    decreases |s|
  {
    if s == [] then [] else [[s[0]]] + Chars(s[1..])
  }

  /**
   * `s.split(sep)` for a non-empty separator: scanning from the left, each
   * occurrence of `sep` ends the current piece and is skipped.
   */
  function SplitOn(s: string, sep: string): (r: seq<string>)
    requires sep != []
    ensures |r| >= 1
    decreases |s|
  {
    if |s| < |sep| then [s]
    else if s[..|sep|] == sep then [[]] + SplitOn(s[|sep|..], sep)
    else
      var rest := SplitOn(s[1..], sep);
      [[s[0]] + rest[0]] + rest[1..]
  }

  /** `s.split(sep)`: an empty separator splits into single characters. */
  function Split(s: string, sep: string): (r: seq<string>)
    ensures sep == [] ==> r == Chars(s)
    ensures sep != [] ==> |r| >= 1
  {
    if sep == [] then Chars(s) else SplitOn(s, sep)
  }

  /** Joining the pieces with the separator gives back the string. */
  lemma {:induction false} SplitJoin(s: string, sep: string)
    requires sep != []
    ensures Join(SplitOn(s, sep), sep) == s
    decreases |s|
  {
    if |s| < |sep| {
    } else if s[..|sep|] == sep {
      var rest := SplitOn(s[|sep|..], sep);
      assert SplitOn(s, sep) == [[]] + rest;
      SplitJoin(s[|sep|..], sep);
      JoinEmptyHead(rest, sep);
      assert s == sep + s[|sep|..];
    } else {
      var rest := SplitOn(s[1..], sep);
      assert SplitOn(s, sep) == [[s[0]] + rest[0]] + rest[1..];
      SplitJoin(s[1..], sep);
      JoinCons(s[0], rest, sep);
      assert s == [s[0]] + s[1..];
    }
  }

  /** An empty first piece contributes only the separator after it. */
  lemma JoinEmptyHead(xs: seq<string>, sep: string)
    requires |xs| >= 1
    ensures Join([[]] + xs, sep) == sep + Join(xs, sep)
  {
    assert ([[]] + xs)[1..] == xs;
  }

  /** Prepending a character to the first piece prepends it to the join. */
  lemma JoinCons(c: char, xs: seq<string>, sep: string)
    requires |xs| >= 1
    ensures Join([[c] + xs[0]] + xs[1..], sep) == [c] + Join(xs, sep)
  {
    var r := [[c] + xs[0]] + xs[1..];
    assert r[1..] == xs[1..];
    if |xs| > 1 {
      assert Join(xs, sep) == xs[0] + sep + Join(xs[1..], sep);
    }
  }

  /**
   * `s.replace(new RegExp(pat, 'g'), '')` for a pattern without regular
   * expression metacharacters: every leftmost, non-overlapping occurrence of
   * `pat` is removed.
   */
  function RemoveAll(s: string, pat: string): (r: string)
    requires pat != []
    ensures |r| <= |s|
    ensures forall c :: c in r ==> c in s
    decreases |s|
  {
    if |s| < |pat| then s
    else if s[..|pat|] == pat then
      assert forall c :: c in s[|pat|..] ==> c in s;
      RemoveAll(s[|pat|..], pat)
    else [s[0]] + RemoveAll(s[1..], pat)
  }

  /** The pieces of a split, put together, are the string with every separator removed. */
  lemma {:induction false} SplitConcat(s: string, sep: string)
    requires sep != []
    ensures Concat(SplitOn(s, sep)) == RemoveAll(s, sep)
    decreases |s|
  {
    if |s| < |sep| {
    } else if s[..|sep|] == sep {
      SplitConcat(s[|sep|..], sep);
    } else {
      var rest := SplitOn(s[1..], sep);
      SplitConcat(s[1..], sep);
      var r := [[s[0]] + rest[0]] + rest[1..];
      assert r[1..] == rest[1..];
      assert Concat(rest) == rest[0] + Concat(rest[1..]);
    }
  }

  /** A string that does not contain the pattern is left unchanged by removal. */
  lemma {:induction false} RemoveAbsent(s: string, pat: string)
    requires pat != [] && !Contains(s, pat)
    ensures RemoveAll(s, pat) == s
    decreases |s|
  {
    if |s| >= |pat| {
      assert !OccursAt(s, pat, 0);
      ContainsTail(s, pat);
      RemoveAbsent(s[1..], pat);
    }
  }

  /** The test "is not `c`". */
  function Other(c: char): char -> bool {
    (x: char) => x != c
  }

  /** Removing a one-character pattern keeps exactly the other characters, in order. */
  lemma {:induction false} RemoveCharIsFilter(s: string, c: char)
    ensures RemoveAll(s, [c]) == Filter(s, Other(c))
    decreases |s|
  {
    if s != [] {
      RemoveCharIsFilter(s[1..], c);
      assert s[..1] == [s[0]];
    }
  }

  /** The first piece of a split is a prefix of the string. */
  lemma {:induction false} SplitFirstIsPrefix(s: string, sep: string)
    requires sep != []
    ensures SplitOn(s, sep)[0] <= s
    decreases |s|
  {
    if |s| >= |sep| && s[..|sep|] != sep {
      SplitFirstIsPrefix(s[1..], sep);
    }
  }

  /**
   * A character followed by a separator-free prefix of the rest is free of
   * the separator when the string does not start with the separator.
   */
  lemma ConsFree(s: string, t: string, sep: string)
    requires sep != [] && |s| >= |sep| && s[..|sep|] != sep
    requires t <= s[1..] && !Contains(t, sep)
    ensures !Contains([s[0]] + t, sep)
  {
    var head := [s[0]] + t;
    assert head <= s;
    forall i ensures !OccursAt(head, sep, i) {
      if i == 0 {
        assert |sep| <= |head| ==> head[..|sep|] == s[..|sep|];
      } else if 0 < i && i + |sep| <= |head| {
        assert head[i..i + |sep|] == t[i - 1..i - 1 + |sep|];
        assert !OccursAt(t, sep, i - 1);
      }
    }
  }

  /** No piece of a split contains the separator. */
  lemma {:induction false} SplitPiecesFree(s: string, sep: string)
    requires sep != []
    ensures forall k :: 0 <= k < |SplitOn(s, sep)| ==> !Contains(SplitOn(s, sep)[k], sep)
    decreases |s|
  {
    var r := SplitOn(s, sep);
    if |s| < |sep| {
      assert forall i :: !OccursAt(s, sep, i);
    } else if s[..|sep|] == sep {
      SplitPiecesFree(s[|sep|..], sep);
      assert forall i :: !OccursAt([], sep, i);
      assert forall k :: 1 <= k < |r| ==> r[k] == SplitOn(s[|sep|..], sep)[k - 1];
    } else {
      var rest := SplitOn(s[1..], sep);
      SplitPiecesFree(s[1..], sep);
      SplitFirstIsPrefix(s[1..], sep);
      ConsFree(s, rest[0], sep);
      assert forall k :: 1 <= k < |r| ==> r[k] == rest[k];
    }
  }

  /** A string without the separator splits into itself alone. */
  lemma {:induction false} SplitAbsent(s: string, sep: string)
    requires sep != [] && !Contains(s, sep)
    ensures SplitOn(s, sep) == [s]
    decreases |s|
  {
    if |s| >= |sep| {
      assert !OccursAt(s, sep, 0);
      ContainsTail(s, sep);
      SplitAbsent(s[1..], sep);
      assert [s[0]] + s[1..] == s;
    }
  }

  // ---------------------------------------------------------------------
  // String.prototype.padStart
  // ---------------------------------------------------------------------

  function Repeat(c: char, n: nat): (r: string)
    ensures |r| == n && forall i :: 0 <= i < n ==> r[i] == c
  {
    if n == 0 then [] else [c] + Repeat(c, n - 1)
  }

  /** `s.padStart(n, fill)` with a one-character fill. */
  function PadStart(s: string, n: nat, fill: char): (r: string)
    ensures |r| == if |s| < n then n else |s|
    ensures r[|r| - |s|..] == s
    ensures forall i :: 0 <= i < |r| - |s| ==> r[i] == fill
  {
    if |s| >= n then s else Repeat(fill, n - |s|) + s
  }
}
