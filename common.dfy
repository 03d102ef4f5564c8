/** Values and string helpers shared by every component: the optional value,
    and the handful of Python `str` operations the pipeline relies on
    (`strip`, `startswith`, `in`, `join`, `lower`, `title`, `replace`, slicing). */
module Common {

  datatype Option<T> = None | Some(value: T) {
    function GetOr(default: T): T {
      match this
      case Some(v) => v
      case None => default
    }
  }

  /** Python's `str.isspace()` for one character (the Unicode White_Space
      characters Python strips, including the ideographic space U+3000). */
  predicate IsSpace(c: char) {
    ('\t' <= c <= '\r') || ('\U{1C}' <= c <= ' ') || c == '\U{85}' || c == '\U{A0}'
    || c == '\U{1680}' || ('\U{2000}' <= c <= '\U{200A}') || c == '\U{2028}'
    || c == '\U{2029}' || c == '\U{202F}' || c == '\U{205F}' || c == '\U{3000}'
  }

  /** `s.lstrip()` */
  function LStrip(s: string): (r: string)
    ensures |r| <= |s| && r == s[|s| - |r|..]
    ensures r != [] ==> !IsSpace(r[0])
    ensures forall i :: 0 <= i < |s| - |r| ==> IsSpace(s[i])
  {
    if |s| > 0 && IsSpace(s[0]) then LStrip(s[1..]) else s
  }

  /** `s.rstrip()` */
  function RStrip(s: string): (r: string)
    ensures |r| <= |s| && r == s[..|r|]
    ensures r != [] ==> !IsSpace(r[|r| - 1])
    ensures forall i :: |r| <= i < |s| ==> IsSpace(s[i])
  {
    if |s| > 0 && IsSpace(s[|s| - 1]) then RStrip(s[..|s| - 1]) else s
  }

  /** `s.strip()`: no leading and no trailing white space, and only white space removed. */
  function Strip(s: string): (r: string)
    ensures r != [] ==> !IsSpace(r[0]) && !IsSpace(r[|r| - 1])
    ensures |r| <= |s|
  {
    RStrip(LStrip(s))
  }

  /** `s.startswith(p)` */
  predicate StartsWith(s: string, p: string) {
    |p| <= |s| && s[..|p|] == p
  }

  /** `sub in s` */
  predicate Contains(s: string, sub: string) {
    exists i | 0 <= i <= |s| :: OccursAt(s, sub, i)
  }

  /** `sub` occurs in `s` starting at index `i`. */
  predicate OccursAt(s: string, sub: string, i: int) {
    0 <= i && i + |sub| <= |s| && s[i..i + |sub|] == sub
  }

  /** Stripping keeps a prefix whose first and last characters are not white space. */
  lemma StripKeepsPrefix(s: string, p: string)
    requires StartsWith(s, p) && p != []
    requires !IsSpace(p[0]) && !IsSpace(p[|p| - 1])
    ensures StartsWith(Strip(s), p)
  {
    assert LStrip(s) == s;
    var r := RStrip(s);
    assert s[|p| - 1] == p[|p| - 1];
    assert |r| >= |p|;
    assert r[..|p|] == s[..|p|];
  }

  /** A string that starts with `p` contains `p`. */
  lemma PrefixIsContained(s: string, p: string)
    requires StartsWith(s, p)
    ensures Contains(s, p)
  {
    assert OccursAt(s, p, 0);
  }

  /** The index of the first `c` in `s`, if any. */
  function IndexOf(s: string, c: char): (r: Option<nat>)
    ensures r.Some? ==> r.value < |s| && s[r.value] == c && c !in s[..r.value]
    ensures r.None? ==> c !in s
  {
    if s == [] then None
    else if s[0] == c then Some(0)
    else
      var i := IndexOf(s[1..], c);
      if i.None? then None
      else
        assert s[1..][..i.value] == s[1..i.value + 1];
        Some(i.value + 1)
  }

  /** `sep.join(parts)` */
  function Join(sep: string, parts: seq<string>): (r: string)
    ensures parts == [] ==> r == []
    ensures |parts| == 1 ==> r == parts[0]
  {
    if parts == [] then []
    else if |parts| == 1 then parts[0]
    else parts[0] + sep + Join(sep, parts[1..])
  }

  /** Joining a non-empty list whose first element is non-empty gives a non-empty string. */
  lemma {:induction false} JoinNonEmpty(sep: string, parts: seq<string>)
    requires parts != [] && parts[0] != []
    ensures Join(sep, parts) != []
    ensures Join(sep, parts)[..|parts[0]|] == parts[0]
  {
    if |parts| > 1 {
      var rest := Join(sep, parts[1..]);
      assert Join(sep, parts) == parts[0] + sep + rest;
      assert (parts[0] + sep + rest)[..|parts[0]|] == parts[0];
    }
  }

  /** ASCII lower-casing of one character. */
  function LowerChar(c: char): char {
    if 'A' <= c <= 'Z' then (c as int + 32) as char else c
  }

  function UpperChar(c: char): char {
    if 'a' <= c <= 'z' then (c as int - 32) as char else c
  }

  predicate IsAsciiLetter(c: char) {
    ('A' <= c <= 'Z') || ('a' <= c <= 'z')
  }

  /** `s.lower()`, for ASCII letters. */
  function Lower(s: string): (r: string)
    ensures |r| == |s|
    ensures forall i :: 0 <= i < |s| ==> r[i] == LowerChar(s[i])
  {
    if s == [] then [] else [LowerChar(s[0])] + Lower(s[1..])
  }

  /** Lower-casing twice is lower-casing once. */
  lemma LowerIdempotent(s: string)
    ensures Lower(Lower(s)) == Lower(s)
  {
    assert forall i :: 0 <= i < |s| ==> LowerChar(LowerChar(s[i])) == LowerChar(s[i]);
  }

  /** `s.title()` for ASCII letters: a letter that follows a letter is lower-cased,
      any other letter is upper-cased. */
  function Title(s: string): (r: string)
    ensures |r| == |s|
  {
    TitleFrom(s, false)
  }

  function TitleFrom(s: string, afterLetter: bool): (r: string)
    ensures |r| == |s|
  {
    if s == [] then []
    else
      var c := if afterLetter then LowerChar(s[0]) else UpperChar(s[0]);
      [c] + TitleFrom(s[1..], IsAsciiLetter(s[0]))
  }

  /** Title-casing ignores the case the letters had. */
  lemma {:induction false} TitleFromLower(s: string, afterLetter: bool)
    ensures TitleFrom(Lower(s), afterLetter) == TitleFrom(s, afterLetter)
  {
    if s != [] {
      assert Lower(s)[1..] == Lower(s[1..]);
      TitleFromLower(s[1..], IsAsciiLetter(s[0]));
    }
  }

  lemma TitleOfLower(s: string)
    ensures Title(Lower(s)) == Title(s)
  {
    TitleFromLower(s, false);
  }

  /** The non-empty strings of `s`, in order. */
  function DropEmpty(s: seq<string>): (r: seq<string>)
    ensures forall x :: x in r <==> x in s && x != []
    ensures |r| <= |s|
  {
    if s == [] then [] else (if s[0] == [] then [] else [s[0]]) + DropEmpty(s[1..])
  }

  /** `s.replace(old, new)` for a one-character `old`. */
  function ReplaceChar(s: string, from: char, to: string): (r: string)
    ensures from !in s ==> r == s
  {
    if s == [] then []
    else (if s[0] == from then to else [s[0]]) + ReplaceChar(s[1..], from, to)
  }

  /** `s[:n]` for a non-negative `n`. */
  function Take(s: string, n: nat): (r: string)
    ensures |r| == if n < |s| then n else |s|
    ensures r == s[..|r|]
  {
    if n < |s| then s[..n] else s
  }

  /** `str(n)` for a natural number. */
  function NatToString(n: nat): (r: string)
    ensures r != []
    ensures forall i :: 0 <= i < |r| ==> '0' <= r[i] <= '9'
    decreases n
  {
    if n < 10 then [Digit(n)] else NatToString(n / 10) + [Digit(n % 10)]
  }

  function Digit(d: nat): (c: char)
    requires d < 10
    ensures '0' <= c <= '9'
  {
    ('0' as int + d) as char
  }

  /** `str(i)` for an integer. */
  function IntToString(i: int): (r: string)
    ensures r != []
  {
    if i < 0 then "-" + NatToString(-i) else NatToString(i)
  }

  function Min(a: int, b: int): int { if a <= b then a else b }
  function Max(a: int, b: int): int { if a >= b then a else b }

  // Sequence facts stated once for any element type, so that callers over
  // large element types do not have to reason about sequence equality.

  lemma SplitAround<T>(a: seq<T>, b: seq<T>, c: seq<T>, j: nat)
    requires j < |b|
    ensures a + b + c == (a + b[..j]) + [b[j]] + (b[j + 1..] + c)
  {
    assert b == b[..j] + [b[j]] + b[j + 1..];
  }

  lemma AppendEmpty<T>(a: seq<T>)
    ensures a + [] == a
  {
  }

  /** Growing a taken prefix by one element, and taking all of it. */
  lemma AppendPrefix<T>(a: seq<T>, b: seq<T>, j: nat)
    requires j <= |b|
    ensures a + b[..0] == a
    ensures j < |b| ==> a + b[..j + 1] == (a + b[..j]) + [b[j]]
    ensures j == |b| ==> a + b[..j] == a + b
  {
    if j < |b| {
      assert b[..j + 1] == b[..j] + [b[j]];
    }
  }

  /** The lists `f` gives for the elements of `s`, concatenated in order. */
  function Flatten<T, U>(f: T -> seq<U>, s: seq<T>): seq<U> {
    if s == [] then [] else f(s[0]) + Flatten(f, s[1..])
  }

  lemma {:induction false} FlattenAppend<T, U>(f: T -> seq<U>, a: seq<T>, b: seq<T>)
    ensures Flatten(f, a + b) == Flatten(f, a) + Flatten(f, b)
  {
    if a == [] {
      assert a + b == b;
    } else {
      assert (a + b)[0] == a[0];
      assert (a + b)[1..] == a[1..] + b;
      FlattenAppend(f, a[1..], b);
    }
  }

  lemma FlattenSingleton<T, U>(f: T -> seq<U>, x: T)
    ensures Flatten(f, [x]) == f(x)
  {
    assert [x][1..] == [];
  }

  /** The lists of the elements before `s[i]`, then its own, then those after. */
  lemma FlattenSplit<T, U>(f: T -> seq<U>, s: seq<T>, i: nat)
    requires i < |s|
    ensures Flatten(f, s) == Flatten(f, s[..i]) + f(s[i]) + Flatten(f, s[i + 1..])
  {
    assert s == s[..i] + [s[i]] + s[i + 1..];
    FlattenAppend(f, s[..i] + [s[i]], s[i + 1..]);
    FlattenAppend(f, s[..i], [s[i]]);
    FlattenSingleton(f, s[i]);
  }

  /** `[f(x) for x in s]` */
  function MapSeq<T, U>(f: T -> U, s: seq<T>): (r: seq<U>)
    ensures |r| == |s|
    ensures forall i :: 0 <= i < |s| ==> r[i] == f(s[i])
  {
    seq(|s|, i requires 0 <= i < |s| => f(s[i]))
  }

  lemma MapSeqSnoc<T, U>(f: T -> U, s: seq<T>, i: nat)
    requires i < |s|
    ensures MapSeq(f, s[..i + 1]) == MapSeq(f, s[..i]) + [f(s[i])]
  {
    assert s[..i + 1][i] == s[i];
  }
}
