/** The string operations of Python's `str` that the pipeline relies on:
    `strip`, `lstrip(chars)`, `split`, `in`, `startswith` and `upper`. */
module Text {

  /** Python's `str.isspace()` for one character: the ASCII controls
      from tab to carriage return, the separators from U+001C to the space,
      U+0085, U+00A0, U+1680, U+2000 to U+200A, U+2028, U+2029, U+202F,
      U+205F and U+3000. */
  predicate IsSpace(c: char) {
    || '\t' <= c <= '\r'
    || '\U{001C}' <= c <= ' '
    || c == '\U{0085}' || c == '\U{00A0}' || c == '\U{1680}'
    || '\U{2000}' <= c <= '\U{200A}'
    || c == '\U{2028}' || c == '\U{2029}' || c == '\U{202F}' || c == '\U{205F}' || c == '\U{3000}'
  }

  /** The length of the longest prefix whose characters all satisfy `p`. */
  function SpanLen(s: string, p: char -> bool): (n: nat)
    ensures n <= |s| && (n == |s| || !p(s[n]))
    ensures forall i :: 0 <= i < n ==> p(s[i])
  {
    if s != [] && p(s[0]) then 1 + SpanLen(s[1..], p) else 0
  }

  /** The length of the longest suffix whose characters all satisfy `p`. */
  function TailSpanLen(s: string, p: char -> bool): (n: nat)
    ensures n <= |s| && (n == |s| || !p(s[|s| - n - 1]))
    ensures forall i :: |s| - n <= i < |s| ==> p(s[i])
  {
    if s != [] && p(s[|s| - 1]) then 1 + TailSpanLen(s[..|s| - 1], p) else 0
  }

  /** Removes the longest prefix whose characters all satisfy `p`. */
  function DropWhile(s: string, p: char -> bool): (r: string)
    ensures |r| <= |s|
    ensures r == [] || !p(r[0])
    ensures forall i :: 0 <= i < |s| - |r| ==> p(s[i])
  {
    if s != [] && p(s[0]) then DropWhile(s[1..], p) else s
  }

  /** Removes the longest suffix whose characters all satisfy `p`. */
  function DropWhileEnd(s: string, p: char -> bool): (r: string)
    ensures |r| <= |s|
    ensures r == [] || !p(r[|r| - 1])
    ensures forall i :: |r| <= i < |s| ==> p(s[i])
  {
    if s != [] && p(s[|s| - 1]) then DropWhileEnd(s[..|s| - 1], p) else s
  }

  /** Dropping a prefix is slicing off its span. */
  lemma {:induction false} DropWhileSpan(s: string, p: char -> bool)
    ensures DropWhile(s, p) == s[SpanLen(s, p)..]
  {
    if s != [] && p(s[0]) {
      DropWhileSpan(s[1..], p);
    }
  }

  /** Dropping a suffix is cutting off its span. */
  lemma {:induction false} DropWhileEndSpan(s: string, p: char -> bool)
    ensures DropWhileEnd(s, p) == s[..|s| - TailSpanLen(s, p)]
  {
    if s != [] && p(s[|s| - 1]) {
      DropWhileEndSpan(s[..|s| - 1], p);
    }
  }

  /** Python's `s.strip()`. */
  function Strip(s: string): string {
    DropWhileEnd(DropWhile(s, IsSpace), IsSpace)
  }

  /** Python's `s.lstrip(chars)`: a character-set strip, not a prefix removal. */
  function LStripChars(s: string, chars: set<char>): string {
    DropWhile(s, c => c in chars)
  }

  /** Where the stripped text starts inside the input. */
  function StripStart(s: string): nat {
    |s| - |DropWhile(s, IsSpace)|
  }

  /** Trimming by any predicate keeps the piece of the input after the
      trimmed prefix. */
  lemma TrimPiece(s: string, p: char -> bool)
    ensures |s| - |DropWhile(s, p)| + |DropWhileEnd(DropWhile(s, p), p)| <= |s|
    ensures DropWhileEnd(DropWhile(s, p), p)
      == s[|s| - |DropWhile(s, p)|..|s| - |DropWhile(s, p)| + |DropWhileEnd(DropWhile(s, p), p)|]
  {
    DropWhileSpan(s, p);
    var l := s[SpanLen(s, p)..];
    DropWhileEndSpan(l, p);
    assert l[..|l| - TailSpanLen(l, p)] == s[SpanLen(s, p)..|s| - TailSpanLen(l, p)];
  }

  /** Trimming by any predicate cuts away only trimmed characters after
      the piece it keeps. */
  lemma TrimSuffix(s: string, p: char -> bool)
    ensures forall i :: |s| - |DropWhile(s, p)| + |DropWhileEnd(DropWhile(s, p), p)| <= i < |s| ==> p(s[i])
  {
    DropWhileSpan(s, p);
    var k := SpanLen(s, p);
    var l := s[k..];
    DropWhileEndSpan(l, p);
    forall i | |s| - TailSpanLen(l, p) <= i < |s| ensures p(s[i]) {
      assert s[i] == l[i - k];
    }
  }

  /** The stripped text is the piece of the input starting at `StripStart`;
      it neither starts nor ends with whitespace, and everything cut away on
      either side is whitespace. */
  lemma StripSpec(s: string)
    ensures var r, k := Strip(s), StripStart(s);
      && k + |r| <= |s| && r == s[k..k + |r|]
      && (r == [] || (!IsSpace(r[0]) && !IsSpace(r[|r| - 1])))
      && (forall i :: 0 <= i < k ==> IsSpace(s[i]))
      && (forall i :: k + |r| <= i < |s| ==> IsSpace(s[i]))
  {
    TrimPiece(s, IsSpace);
    TrimSuffix(s, IsSpace);
    DropWhileSpan(s, IsSpace);
    var l := DropWhile(s, IsSpace);
    var r := DropWhileEnd(l, IsSpace);
    if r != [] {
      assert r[0] == s[StripStart(s)] == l[0];
    }
  }

  /** Stripping twice is stripping once. */
  lemma StripIdempotent(s: string)
    ensures Strip(Strip(s)) == Strip(s)
  {
    var r := Strip(s);
    StripSpec(s);
    assert DropWhile(r, IsSpace) == r;
    assert DropWhileEnd(r, IsSpace) == r;
  }

  /** A text that neither starts nor ends with whitespace strips to itself. */
  lemma StripKeepsTrimmed(s: string)
    requires s != [] && !IsSpace(s[0]) && !IsSpace(s[|s| - 1])
    ensures Strip(s) == s
  {
    assert DropWhile(s, IsSpace) == s;
  }

  /** Only whitespace strips to the empty string. */
  lemma StripEmptyIff(s: string)
    ensures Strip(s) == [] <==> forall i :: 0 <= i < |s| ==> IsSpace(s[i])
  {
    StripSpec(s);
    if forall i :: 0 <= i < |s| ==> IsSpace(s[i]) {
      DropWhileSpan(s, IsSpace);
      assert DropWhile(s, IsSpace) == [];
    }
  }

  /** `sep` occurs in `s` starting at index `i`. */
  predicate OccursAt(s: string, sep: string, i: int) {
    0 <= i && i + |sep| <= |s| && s[i..i + |sep|] == sep
  }

  /** The first occurrence of `sep` in `s` at or after `k`, or -1. */
  function FindFrom(s: string, sep: string, k: nat): (r: int)
    requires k <= |s|
    ensures r == -1 || (k <= r && OccursAt(s, sep, r))
    ensures forall j :: k <= j && (r == -1 || j < r) ==> !OccursAt(s, sep, j)
    decreases |s| - k
  {
    if k + |sep| > |s| then -1
    else if s[k..k + |sep|] == sep then k
    else FindFrom(s, sep, k + 1)
  }

  /** Python's `s.find(sep)`. */
  function Find(s: string, sep: string): int {
    FindFrom(s, sep, 0)
  }

  /** Python's `sep in s`. */
  predicate Contains(s: string, sep: string) {
    Find(s, sep) >= 0
  }

  /** Python's `s.split(sep)[0]`: the text before the first occurrence. */
  function Before(s: string, sep: string): string {
    var i := Find(s, sep);
    if i >= 0 then s[..i] else s
  }

  /** The text after the first occurrence of `sep`; with `Before`, this gives
      `s.split(sep)[1]` as `Before(After(s, sep), sep)`. */
  function After(s: string, sep: string): string
    requires Contains(s, sep)
  {
    s[Find(s, sep) + |sep|..]
  }

  /** A string contains `sep` exactly when it occurs at some index. */
  lemma ContainsIff(s: string, sep: string)
    ensures Contains(s, sep) <==> exists i :: OccursAt(s, sep, i)
  {
    if exists i :: OccursAt(s, sep, i) {
      var i :| OccursAt(s, sep, i);
      assert 0 <= i;
    }
  }

  /** Whatever contains `p + q` contains `p`. */
  lemma ContainsExtended(s: string, p: string, q: string)
    requires Contains(s, p + q)
    ensures Contains(s, p)
  {
    var i := Find(s, p + q);
    assert s[i..i + |p|] == s[i..i + |p + q|][..|p|];
    assert OccursAt(s, p, i);
    ContainsIff(s, p);
  }

  /** `s.split(sep)[0]` is a prefix of `s` that does not contain `sep`. */
  lemma BeforeHasNoSeparator(s: string, sep: string)
    requires sep != []
    ensures var b := Before(s, sep); b == s[..|b|] && !Contains(b, sep)
  {
    var b := Before(s, sep);
    var i := Find(s, sep);
    if Contains(b, sep) {
      ContainsIff(b, sep);
      var j :| OccursAt(b, sep, j);
      assert b[j..j + |sep|] == s[j..j + |sep|];
      assert OccursAt(s, sep, j);
      assert false;
    }
  }

  /** Python's `s.startswith(p)`. */
  predicate StartsWith(s: string, p: string) {
    |p| <= |s| && s[..|p|] == p
  }

  /** Python's `s.split(c)` for a one-character separator. */
  function Split(s: string, c: char): (parts: seq<string>)
    ensures |parts| >= 1
  {
    if s == [] then [""]
    else
      var rest := Split(s[1..], c);
      if s[0] == c then [""] + rest else [[s[0]] + rest[0]] + rest[1..]
  }

  /** Python's `c.join(parts)` for a one-character separator. */
  function Join(parts: seq<string>, c: char): string
    requires |parts| >= 1
  {
    if |parts| == 1 then parts[0] else parts[0] + [c] + Join(parts[1..], c)
  }

  /** No piece of a split contains the separator. */
  lemma {:induction false} SplitPiecesLackSeparator(s: string, c: char)
    ensures forall i :: 0 <= i < |Split(s, c)| ==> c !in Split(s, c)[i]
  {
    if s != [] {
      SplitPiecesLackSeparator(s[1..], c);
    }
  }

  /** Splitting and joining back on the same separator gives the input. */
  lemma {:induction false} SplitJoin(s: string, c: char)
    ensures Join(Split(s, c), c) == s
  {
    if s != [] {
      var rest := Split(s[1..], c);
      SplitJoin(s[1..], c);
      if s[0] == c {
        assert Split(s, c)[1..] == rest;
      } else {
        var parts := Split(s, c);
        if |rest| == 1 {
          assert parts == [[s[0]] + rest[0]];
        } else {
          assert parts[1..] == rest[1..];
          assert Join(rest, c) == rest[0] + [c] + Join(rest[1..], c);
        }
      }
    }
  }

  /** Splitting two texts joined by the separator splits each of them. */
  lemma {:induction false} SplitConcat(a: string, b: string, c: char)
    ensures Split(a + [c] + b, c) == Split(a, c) + Split(b, c)
  {
    if a == [] {
      assert a + [c] + b == [c] + b;
      assert ([c] + b)[1..] == b;
    } else {
      assert (a + [c] + b)[1..] == a[1..] + [c] + b;
      SplitConcat(a[1..], b, c);
    }
  }

  /** Python's `c.upper()` on the ASCII letters; other characters are kept. */
  function UpperChar(c: char): char {
    if 'a' <= c <= 'z' then (c as int - 32) as char else c
  }

  /** Python's `s.upper()`, restricted to ASCII case mapping. */
  function Upper(s: string): (r: string)
    ensures |r| == |s|
    ensures forall i :: 0 <= i < |s| ==> r[i] == UpperChar(s[i])
  {
    seq(|s|, i requires 0 <= i < |s| => UpperChar(s[i]))
  }
}
