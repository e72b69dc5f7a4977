/** The Python `str` operations the application relies on: `strip()`,
    `lower()`, the `in` substring test, `startswith`, slicing with a clamped
    bound, `split(sep)` and formatting a number in decimal. */
module Strings {
  import opened Base

  /** Python's `str.isspace()` for one character: the ASCII controls TAB to CR,
      the four information separators, SPACE, NEL, NO-BREAK SPACE and the Unicode
      space separators, line and paragraph separators. */
  predicate IsSpace(c: char) {
    || ('\t' <= c <= '\r')
    || ('\U{1C}' <= c <= '\U{1F}')
    || c == ' '
    || c == '\U{85}'
    || c == '\U{A0}'
    || c == '\U{1680}'
    || ('\U{2000}' <= c <= '\U{200A}')
    || c == '\U{2028}'
    || c == '\U{2029}'
    || c == '\U{202F}'
    || c == '\U{205F}'
    || c == '\U{3000}'
  }

  predicate AllSpace(s: string) {
    forall i | 0 <= i < |s| :: IsSpace(s[i])
  }

  /** Removes leading whitespace: the result is a suffix of `s`, everything
      removed is whitespace and the result does not start with whitespace. */
  function TrimStart(s: string): (r: string)
    ensures |r| <= |s| && r == s[|s| - |r|..]
    ensures r == "" || !IsSpace(r[0])
    ensures AllSpace(s[..|s| - |r|])
    decreases |s|
  {
    if |s| > 0 && IsSpace(s[0]) then
      var r := TrimStart(s[1..]);
      assert s[..|s| - |r|] == [s[0]] + s[1..][..|s| - 1 - |r|];
      r
    else
      s
  }

  /** Removes trailing whitespace: the result is a prefix of `s`, everything
      removed is whitespace and the result does not end with whitespace. */
  function TrimEnd(s: string): (r: string)
    ensures |r| <= |s| && r == s[..|r|]
    ensures r == "" || !IsSpace(r[|r| - 1])
    ensures AllSpace(s[|r|..])
    decreases |s|
  {
    if |s| > 0 && IsSpace(s[|s| - 1]) then
      var r := TrimEnd(s[..|s| - 1]);
      assert s[|r|..] == s[..|s| - 1][|r|..] + [s[|s| - 1]];
      r
    else
      s
  }

  /** Python's `s.strip()`: `s` with its leading and trailing whitespace
      removed (StripIsInfix states the result is the middle of `s`). */
  function Strip(s: string): (r: string)
    ensures |r| <= |s|
    ensures r == "" <==> AllSpace(s)
    ensures r != "" ==> !IsSpace(r[0]) && !IsSpace(r[|r| - 1])
  {
    var t := TrimStart(s);
    var r := TrimEnd(t);
    assert t != "" ==> !AllSpace(s) && r != "" by {
      if t != "" {
        assert t[0] == s[|s| - |t|];
        assert t[0..] == t;
      }
    }
    assert t == "" ==> s[..|s| - |t|] == s;
    assert r != "" ==> r[0] == t[0];
    r
  }

  /** What `strip()` removes is whitespace at both ends and nothing else: the
      result is a slice of `s` with only whitespace before and after it. */
  lemma {:induction false} StripIsInfix(s: string)
    ensures exists a, b | 0 <= a <= b <= |s| :: Strip(s) == s[a..b] && AllSpace(s[..a]) && AllSpace(s[b..])
  {
    var t := TrimStart(s);
    var r := TrimEnd(t);
    var a := |s| - |t|;
    TrimParts(s, t, r, a);
    assert Strip(s) == s[a..a + |r|];
  }

  lemma {:induction false} TrimParts(s: string, t: string, r: string, a: nat)
    requires a <= |s| && t == s[a..] && |r| <= |t| && r == t[..|r|] && AllSpace(t[|r|..])
    ensures a + |r| <= |s| && r == s[a..a + |r|] && AllSpace(s[a + |r|..])
  {
    SliceOfSuffix(s, a, |r|);
  }

  lemma SliceOfSuffix(s: string, a: nat, n: nat)
    requires a + n <= |s|
    ensures s[a..][..n] == s[a..a + n] && s[a..][n..] == s[a + n..]
  {
  }

  /** Python's `c.lower()` restricted to ASCII letters. */
  function LowerChar(c: char): char {
    if 'A' <= c <= 'Z' then (c as int + 32) as char else c
  }

  /** Python's `s.lower()` restricted to ASCII letters: character by character. */
  function Lower(s: string): (r: string)
    ensures |r| == |s|
    ensures forall i | 0 <= i < |s| :: r[i] == LowerChar(s[i])
  {
    seq(|s|, i requires 0 <= i < |s| => LowerChar(s[i]))
  }

  /** `pat` occurs in `s` at index `i`. */
  predicate Occurs(s: string, pat: string, i: int) {
    0 <= i && i + |pat| <= |s| && s[i..i + |pat|] == pat
  }

  lemma OccursTail(s: string, pat: string, j: int)
    requires |s| > 0 && 0 <= j
    ensures Occurs(s, pat, j + 1) <==> Occurs(s[1..], pat, j)
  {
    if 0 <= j && j + 1 + |pat| <= |s| {
      assert s[1..][j..j + |pat|] == s[j + 1..j + 1 + |pat|];
    }
  }

  /** Python's `s.find(pat)`: the first index where `pat` occurs, if any. */
  function Find(s: string, pat: string): (r: Option<nat>)
    ensures r.Some? ==> Occurs(s, pat, r.value)
    ensures r.Some? ==> forall j | 0 <= j < r.value :: !Occurs(s, pat, j)
    ensures r.None? ==> forall j :: !Occurs(s, pat, j)
    decreases |s|
  {
    if |s| < |pat| then None
    else if s[..|pat|] == pat then Some(0)
    else
      var t := Find(s[1..], pat);
      assert !Occurs(s, pat, 0);
      forall j | 0 <= j ensures Occurs(s, pat, j + 1) <==> Occurs(s[1..], pat, j) {
        OccursTail(s, pat, j);
      }
      match t
      case None =>
        assert forall j :: !Occurs(s, pat, j) by {
          forall j ensures !Occurs(s, pat, j) {
            if j > 0 { OccursTail(s, pat, j - 1); }
          }
        }
        None
      case Some(i) =>
        assert forall j | 0 <= j < i + 1 :: !Occurs(s, pat, j) by {
          forall j | 0 <= j < i + 1 ensures !Occurs(s, pat, j) {
            if j > 0 { OccursTail(s, pat, j - 1); }
          }
        }
        Some(i + 1)
  }

  /** Python's `pat in s`. */
  predicate Contains(s: string, pat: string) {
    Find(s, pat).Some?
  }

  /** Python's `s.startswith(pre)`. */
  predicate StartsWith(s: string, pre: string) {
    |pre| <= |s| && s[..|pre|] == pre
  }

  /** Python's `s[:n]`: the first `n` characters, or all of `s` if it is shorter. */
  function Take(s: string, n: nat): (r: string)
    ensures |r| <= n && |r| <= |s| && r == s[..|r|]
    ensures |s| <= n ==> r == s
    ensures n <= |s| ==> |r| == n
  {
    if |s| <= n then s else s[..n]
  }

  /** Python's `s.split(sep)` for a non-empty separator: the pieces between
      successive occurrences of `sep`, scanning from the left. */
  function Split(s: string, sep: string): (r: seq<string>)
    requires sep != ""
    ensures |r| >= 1
    ensures |r| == 1 <==> !Contains(s, sep)
    decreases |s|
  {
    match Find(s, sep)
    case None => [s]
    case Some(i) => [s[..i]] + Split(s[i + |sep|..], sep)
  }

  /** Python's `sep.join(pieces)`. */
  function Join(pieces: seq<string>, sep: string): string {
    if |pieces| == 0 then ""
    else if |pieces| == 1 then pieces[0]
    else pieces[0] + sep + Join(pieces[1..], sep)
  }

  lemma JoinCons(p: string, rest: seq<string>, sep: string)
    requires |rest| >= 1
    ensures Join([p] + rest, sep) == p + sep + Join(rest, sep)
  {
    assert ([p] + rest)[1..] == rest;
  }

  /** One step of `Split`: the first piece ends at the first occurrence. */
  lemma SplitAt(s: string, sep: string, i: nat)
    requires sep != "" && Find(s, sep) == Some(i)
    ensures i + |sep| <= |s| && s == s[..i] + sep + s[i + |sep|..]
    ensures Split(s, sep) == [s[..i]] + Split(s[i + |sep|..], sep)
  {
    assert Occurs(s, sep, i);
    Recompose(s, i, i + |sep|);
  }

  lemma Recompose<T>(s: seq<T>, i: nat, j: nat)
    requires i <= j <= |s|
    ensures s == s[..i] + s[i..j] + s[j..]
  {
  }

  lemma SliceOfSlice<T>(s: seq<T>, a: nat, b: nat, c: nat, d: nat)
    requires a <= b <= |s| && c <= d <= b - a
    ensures s[a..b][c..d] == s[a + c..a + d]
  {
    forall k | 0 <= k < d - c ensures s[a..b][c..d][k] == s[a + c..a + d][k] {
      assert s[a..b][c..d][k] == s[a..b][c + k] == s[a + c + k];
    }
  }

  /** The first piece runs up to the first occurrence, or is the whole text. */
  lemma SplitHead(s: string, sep: string)
    requires sep != ""
    ensures Split(s, sep)[0] == match Find(s, sep) case None => s case Some(i) => s[..i]
  {
  }

  /** The second piece, when there is one, is the first piece of what follows
      the first occurrence. */
  lemma SplitSecond(s: string, sep: string, i: nat)
    requires sep != "" && Find(s, sep) == Some(i)
    ensures i + |sep| <= |s|
    ensures |Split(s, sep)| >= 2 && Split(s, sep)[1] == Split(s[i + |sep|..], sep)[0]
  {
    SplitAt(s, sep, i);
  }

  /** An occurrence with none before it is the one `Find` reports. */
  lemma FindIsFirst(s: string, pat: string, i: nat)
    requires Occurs(s, pat, i) && forall j | 0 <= j < i :: !Occurs(s, pat, j)
    ensures Find(s, pat) == Some(i)
  {
  }

  /** A separator is found right where it was placed when `pre`, followed by
      all of the separator but its last character, holds no occurrence: then
      no occurrence can start before the placed one. */
  lemma {:induction false} FindFirstAt(pre: string, sep: string, post: string)
    requires sep != "" && !Contains(pre + sep[..|sep| - 1], sep)
    ensures Find(pre + sep + post, sep) == Some(|pre|)
  {
    var s := pre + sep + post;
    var u := pre + sep[..|sep| - 1];
    assert s[|pre|..|pre| + |sep|] == sep;
    forall j | 0 <= j < |pre| ensures !Occurs(s, sep, j) {
      assert s[..|u|] == u;
      SliceOfSlice(s, 0, |u|, j, j + |sep|);
      assert !Occurs(u, sep, j);
    }
    FindIsFirst(s, sep, |pre|);
  }

  /** Cutting the text after its first occurrence keeps that occurrence first. */
  lemma {:induction false} FindInPrefix(s: string, sep: string, i: nat, q: nat)
    requires sep != "" && Find(s, sep) == Some(i) && i + |sep| <= q <= |s|
    ensures Find(s[..q], sep) == Some(i)
  {
    var p := s[..q];
    assert p[i..i + |sep|] == s[i..i + |sep|];
    forall j | 0 <= j < i ensures !Occurs(p, sep, j) {
      if j + |sep| <= |p| {
        assert p[j..j + |sep|] == s[j..j + |sep|];
        assert !Occurs(s, sep, j);
      }
    }
    FindIsFirst(p, sep, i);
  }

  /** ... and so keeps the first piece of the split. */
  lemma {:induction false} SplitFirstOfPrefix(s: string, sep: string, i: nat, q: nat)
    requires sep != "" && Find(s, sep) == Some(i) && i + |sep| <= q <= |s|
    ensures Split(s[..q], sep)[0] == s[..i]
  {
    FindInPrefix(s, sep, i, q);
    SplitHead(s[..q], sep);
    assert s[..q][..i] == s[..i];
  }

  /** Splitting loses nothing: joining the pieces with the separator gives the text back. */
  lemma {:induction false} JoinSplit(s: string, sep: string)
    requires sep != ""
    ensures Join(Split(s, sep), sep) == s
    decreases |s|
  {
    var f := Find(s, sep);
    if f.Some? {
      var i := f.value;
      SplitAt(s, sep, i);
      var rest := s[i + |sep|..];
      JoinSplit(rest, sep);
      JoinCons(s[..i], Split(rest, sep), sep);
    }
  }

  /** Nothing before the first occurrence contains the separator. */
  lemma PrefixBeforeFirstIsFree(s: string, sep: string, i: nat)
    requires sep != "" && Find(s, sep) == Some(i)
    ensures !Contains(s[..i], sep)
  {
    var p := s[..i];
    forall j | 0 <= j ensures !Occurs(p, sep, j) {
      if j + |sep| <= |p| {
        assert p[j..j + |sep|] == s[j..j + |sep|];
        assert !Occurs(s, sep, j);
      }
    }
  }

  /** A later piece is a piece of what follows the first occurrence. */
  lemma SplitLaterPiece(s: string, sep: string, i: nat, k: nat)
    requires sep != "" && Find(s, sep) == Some(i)
    requires 0 < k < |Split(s, sep)|
    ensures i + |sep| <= |s|
    ensures k - 1 < |Split(s[i + |sep|..], sep)|
    ensures Split(s, sep)[k] == Split(s[i + |sep|..], sep)[k - 1]
  {
    SplitAt(s, sep, i);
  }

  /** Splitting cuts at every occurrence: no piece contains the separator. */
  lemma {:induction false} SplitPiecesAreFree(s: string, sep: string, k: nat)
    requires sep != ""
    requires k < |Split(s, sep)|
    ensures !Contains(Split(s, sep)[k], sep)
    decreases |s|
  {
    SplitHead(s, sep);
    match Find(s, sep)
    case None =>
    case Some(i) =>
      if k == 0 {
        PrefixBeforeFirstIsFree(s, sep, i);
      } else {
        SplitLaterPiece(s, sep, i, k);
        SplitPiecesAreFree(s[i + |sep|..], sep, k - 1);
      }
  }

  function DigitChar(d: nat): char
    requires d < 10
  {
    ('0' as int + d) as char
  }

  /** The number a string of decimal digits denotes, most significant first. */
  function DigitsValue(s: string): nat
    requires forall i | 0 <= i < |s| :: '0' <= s[i] <= '9'
  {
    if s == "" then 0 else DigitsValue(s[..|s| - 1]) * 10 + (s[|s| - 1] as int - '0' as int)
  }

  /** Python's `str(n)` for a natural number. */
  function NatToString(n: nat): (r: string)
    ensures |r| >= 1
    ensures forall i | 0 <= i < |r| :: '0' <= r[i] <= '9'
  {
    if n < 10 then [DigitChar(n)] else NatToString(n / 10) + [DigitChar(n % 10)]
  }

  /** `str(n)` reads back as `n`. */
  lemma {:induction false} NatToStringValue(n: nat)
    ensures DigitsValue(NatToString(n)) == n
  {
    if n >= 10 {
      var r := NatToString(n);
      NatToStringValue(n / 10);
      assert r[..|r| - 1] == NatToString(n / 10);
    }
  }

  /** Distinct numbers print differently, so distinct indices give distinct
      default section names. */
  lemma NatToStringInjective(m: nat, n: nat)
    requires NatToString(m) == NatToString(n)
    ensures m == n
  {
    NatToStringValue(m);
    NatToStringValue(n);
  }
}
