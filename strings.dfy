/**
 * The string primitives of ECMAScript that the application relies on:
 * the whitespace class shared by `\s` and `String.prototype.trim`, `trim`,
 * `startsWith`, the first-occurrence `replace(string, string)`, `split` on
 * a one-character separator and the code-unit order used by `<`, `<=`,
 * `sort()` and (as modelled) `localeCompare`.
 */
module Strings {

  /** ECMAScript WhiteSpace and LineTerminator code points: the class `\s` and what `trim` removes. */
  predicate IsJsWhitespace(c: char) {
    || c == '\t' || c == '\n' || c == '\U{000B}' || c == '\U{000C}' || c == '\r' || c == ' '
    || c == '\U{00A0}' || c == '\U{1680}' || ('\U{2000}' <= c <= '\U{200A}')
    || c == '\U{2028}' || c == '\U{2029}' || c == '\U{202F}' || c == '\U{205F}'
    || c == '\U{3000}' || c == '\U{FEFF}'
  }

  predicate AllWhitespace(s: string) {
    forall i :: 0 <= i < |s| ==> IsJsWhitespace(s[i])
  }

  /**
   * `s` without its leading whitespace. That the result is the suffix of
   * `s` is the lemma below rather than a postcondition: an `ensures`
   * equating `s` with a slice of itself sends the solver's sequence
   * axioms round a loop wherever `TrimStart` is mentioned.
   */
  function TrimStart(s: string): (r: string)
    ensures |r| <= |s|
    ensures r != [] ==> !IsJsWhitespace(r[0])
    ensures AllWhitespace(s[..|s| - |r|])
  {
    if s != [] && IsJsWhitespace(s[0]) then
      var r := TrimStart(s[1..]);
      assert s[1..][..|s[1..]| - |r|] == s[1..|s| - |r|];
      r
    else s
  }

  lemma {:induction false} TrimStartIsSuffix(s: string)
    ensures TrimStart(s) == s[|s| - |TrimStart(s)|..]
  {
    if s != [] && IsJsWhitespace(s[0]) {
      TrimStartIsSuffix(s[1..]);
    }
  }

  function TrimEnd(s: string): (r: string)
    ensures |r| <= |s| && r == s[..|r|]
    ensures r != [] ==> !IsJsWhitespace(r[|r| - 1])
    ensures AllWhitespace(s[|r|..])
  {
    if s != [] && IsJsWhitespace(s[|s| - 1]) then
      var r := TrimEnd(s[..|s| - 1]);
      assert s[..|s| - 1][|r|..] == s[|r|..|s| - 1];
      r
    else s
  }

  /** `String.prototype.trim`. */
  function Trim(s: string): string {
    TrimEnd(TrimStart(s))
  }

  /** `s.trim()` is empty exactly when every character of `s` is whitespace. */
  lemma TrimEmptyIff(s: string)
    ensures Trim(s) == [] <==> AllWhitespace(s)
  {
    var t := TrimStart(s);
    if Trim(s) == [] {
      // All of `t` is whitespace, yet it does not start with whitespace: it is empty.
      assert t[0..] == t;
      assert t == [];
      assert s[..|s|] == s;
    } else {
      TrimStartIsSuffix(s);
      var r := Trim(s);
      assert r[0] == t[0];
      assert t[0] == s[|s| - |t|];
      assert !IsJsWhitespace(s[|s| - |t|]);
    }
  }

  /** `s.startsWith(prefix)`. */
  predicate StartsWith(s: string, prefix: string) {
    |prefix| <= |s| && s[..|prefix|] == prefix
  }

  /** `pat` occurs in `s` starting at index `j`. */
  predicate OccursAt(s: string, pat: string, j: int) {
    0 <= j && j + |pat| <= |s| && s[j..j + |pat|] == pat
  }

  /** `s.indexOf(pat, from)`: the first index at or after `from` where `pat` occurs, or -1. */
  function IndexOfFrom(s: string, pat: string, from: nat): (r: int)
    requires from <= |s|
    ensures r == -1 || (from <= r && OccursAt(s, pat, r))
    ensures forall j :: from <= j && OccursAt(s, pat, j) ==> r != -1 && r <= j
    decreases |s| - from
  {
    if |s| - from < |pat| then -1
    else if s[from..from + |pat|] == pat then from
    else if from == |s| then -1
    else IndexOfFrom(s, pat, from + 1)
  }

  /** `s.replace(pat, rep)` with a string pattern: only the FIRST occurrence is replaced. */
  function ReplaceFirst(s: string, pat: string, rep: string): string {
    var i := IndexOfFrom(s, pat, 0);
    if i == -1 then s else s[..i] + rep + s[i + |pat|..]
  }

  /**
   * Removing the first occurrence of a non-empty pattern leaves nothing
   * exactly when the string was empty or was the pattern itself.
   */
  lemma ReplaceFirstEmptyIff(s: string, pat: string)
    requires pat != []
    ensures ReplaceFirst(s, pat, []) == [] <==> s == [] || s == pat
  {
    var i := IndexOfFrom(s, pat, 0);
    if s == pat {
      assert s[0..0 + |pat|] == pat;
      assert i == 0;
      assert s[i + |pat|..] == [];
    } else if i != -1 {
      assert |ReplaceFirst(s, pat, [])| == |s| - |pat|;
    }
  }

  /** `s.split(sep)` for a one-character separator: never empty; "" splits to [""]. */
  function Split(s: string, sep: char): (r: seq<string>)
    ensures |r| >= 1
  {
    if s == [] then [[]]
    else
      var rest := Split(s[1..], sep);
      if s[0] == sep then [[]] + rest else [[s[0]] + rest[0]] + rest[1..]
  }

  /** A leading run without the separator is glued onto the first piece. */
  lemma {:induction false} SplitPrefix(x: string, rest: string, sep: char)
    requires sep !in x
    ensures Split(x + rest, sep) == [x + Split(rest, sep)[0]] + Split(rest, sep)[1..]
  {
    var tail := Split(rest, sep);
    if x != [] {
      assert (x + rest)[1..] == x[1..] + rest;
      SplitPrefix(x[1..], rest, sep);
      assert [x[0]] + (x[1..] + tail[0]) == x + tail[0];
    } else {
      assert x + rest == rest;
      assert tail == [tail[0]] + tail[1..];
      assert x + tail[0] == tail[0];
    }
  }

  /** A leading separator opens an empty first piece. */
  lemma SplitLeadingSep(rest: string, sep: char)
    ensures Split([sep] + rest, sep) == [[]] + Split(rest, sep)
  {
    assert ([sep] + rest)[1..] == rest;
  }

  /** A string without the separator splits into itself alone. */
  lemma SplitNoSep(x: string, sep: char)
    requires sep !in x
    ensures Split(x, sep) == [x]
  {
    SplitPrefix(x, [], sep);
    assert x + [] == x;
  }

  /** Splitting `x + sep + rest`, where `x` holds no separator, yields `x` then the pieces of `rest`. */
  lemma SplitAfterPiece(x: string, rest: string, sep: char)
    requires sep !in x
    ensures Split(x + [sep] + rest, sep) == [x] + Split(rest, sep)
  {
    var t := [sep] + rest;
    SplitLeadingSep(rest, sep);
    SplitPrefix(x, t, sep);
    var p := Split(t, sep);
    assert p[0] == [] && p[1..] == Split(rest, sep);
    assert x + [] == x;
    assert x + [sep] + rest == x + t;
  }

  /** `"a-b-c".split('-') == ["a", "b", "c"]` when the pieces hold no separator. */
  lemma SplitThree(a: string, b: string, c: string, sep: char)
    requires sep !in a && sep !in b && sep !in c
    ensures Split(a + [sep] + b + [sep] + c, sep) == [a, b, c]
  {
    SplitNoSep(c, sep);
    SplitAfterPiece(b, c, sep);
    var bc := b + [sep] + c;
    SplitAfterPiece(a, bc, sep);
    assert a + [sep] + b + [sep] + c == a + [sep] + bc;
  }

  /**
   * Strict lexicographic order on code points: the order of `a < b` on
   * strings, and of `sort()` without a comparator.
   */
  predicate LexLt(a: string, b: string) {
    if b == [] then false
    else if a == [] then true
    else if a[0] != b[0] then a[0] < b[0]
    else LexLt(a[1..], b[1..])
  }

  /** `a <= b` on strings. */
  predicate LexLe(a: string, b: string) {
    a == b || LexLt(a, b)
  }

  lemma {:induction false} LexLtIrreflexive(a: string)
    ensures !LexLt(a, a)
  {
    if a != [] {
      LexLtIrreflexive(a[1..]);
    }
  }

  lemma {:induction false} LexLtAsymmetric(a: string, b: string)
    ensures !(LexLt(a, b) && LexLt(b, a))
  {
    if a != [] && b != [] && a[0] == b[0] {
      LexLtAsymmetric(a[1..], b[1..]);
    }
  }

  lemma {:induction false} LexLtTransitive(a: string, b: string, c: string)
    requires LexLt(a, b) && LexLt(b, c)
    ensures LexLt(a, c)
  {
    if a != [] && a[0] == b[0] && b[0] == c[0] {
      LexLtTransitive(a[1..], b[1..], c[1..]);
    }
  }

  lemma {:induction false} LexLtTotal(a: string, b: string)
    ensures a == b || LexLt(a, b) || LexLt(b, a)
  {
    if a != [] && b != [] && a[0] == b[0] {
      LexLtTotal(a[1..], b[1..]);
      if a[1..] == b[1..] {
        assert a == [a[0]] + a[1..] && b == [b[0]] + b[1..];
      }
    }
  }

  lemma LexLeTransitive(a: string, b: string, c: string)
    requires LexLe(a, b) && LexLe(b, c)
    ensures LexLe(a, c)
  {
    if a != b && b != c {
      LexLtTransitive(a, b, c);
    }
  }

  lemma LexLeTotal(a: string, b: string)
    ensures LexLe(a, b) || LexLe(b, a)
  {
    LexLtTotal(a, b);
  }

  /** `!(a <= b)` is `b < a`. */
  lemma NotLexLe(a: string, b: string)
    ensures !LexLe(a, b) <==> LexLt(b, a)
  {
    LexLtTotal(a, b);
    LexLtAsymmetric(a, b);
    if a == b { LexLtIrreflexive(a); }
  }
}
