/**
 * The string primitives the handlers use, with Python's `str` semantics:
 * `startswith`, `endswith`, `find`, `split(sep, 1)`, `split(sep)`,
 * `rstrip(chars)`, `sep.join(xs)` and the whitespace `split()`.
 */
module Text {
  import opened Wrappers

  /** `s.startswith(p)` */
  predicate StartsWith(s: string, p: string) {
    |p| <= |s| && s[..|p|] == p
  }

  /** `s.endswith(p)` */
  predicate EndsWith(s: string, p: string) {
    |p| <= |s| && s[|s| - |p|..] == p
  }

  /** `k` copies of `c`. */
  function Repeat(c: char, k: nat): (r: string)
    ensures |r| == k
    ensures forall i :: 0 <= i < k ==> r[i] == c
  {
    if k == 0 then "" else [c] + Repeat(c, k - 1)
  }

  /** Position of the first `c` in `s` (`s.find(c)`, with `None` for -1). */
  function FirstIndex(s: string, c: char): (r: Option<nat>)
    ensures r.None? <==> c !in s
    ensures r.Some? ==> r.value < |s| && s[r.value] == c && c !in s[..r.value]
  {
    if |s| == 0 then None
    else if s[0] == c then Some(0)
    else
      match FirstIndex(s[1..], c)
      case None => None
      case Some(i) =>
        assert s[..i + 1] == [s[0]] + s[1..][..i];
        Some(i + 1)
  }

  /**
   * `s.split(c, 1)`: `None` when the result has one part (no `c`),
   * otherwise the text before and after the first `c`.
   */
  function SplitOnce(s: string, c: char): (r: Option<(string, string)>)
    ensures r.None? <==> c !in s
    ensures r.Some? ==> c !in r.value.0 && s == r.value.0 + [c] + r.value.1
  {
    match FirstIndex(s, c)
    case None => None
    case Some(i) =>
      assert s == s[..i] + [c] + s[i + 1..];
      Some((s[..i], s[i + 1..]))
  }

  /** Splitting at the first `c` is determined by the text before it. */
  lemma SplitOnceAt(a: string, c: char, b: string)
    requires c !in a
    ensures SplitOnce(a + [c] + b, c) == Some((a, b))
  {
    var s := a + [c] + b;
    assert s[|a|] == c;
    assert s[..|a|] == a;
    assert s[|a| + 1..] == b;
  }

  /** `s` is non-empty and its last character is `c`. */
  predicate LastIs(s: string, c: char) {
    |s| > 0 && s[|s| - 1] == c
  }

  /** `s.rstrip(c)` for a one-character `c`: every trailing `c` removed. */
  function RStrip(s: string, c: char): (r: string)
    ensures r <= s
    ensures !LastIs(r, c)
    ensures forall i :: |r| <= i < |s| ==> s[i] == c
  {
    if LastIs(s, c) then RStrip(s[..|s| - 1], c) else s
  }

  /** `RStrip` removes exactly a trailing run of `c` and nothing else. */
  lemma RStripExact(r: string, c: char, k: nat)
    requires !LastIs(r, c)
    ensures RStrip(r + Repeat(c, k), c) == r
  {
    var s := r + Repeat(c, k);
    var q := RStrip(s, c);
    assert q == s[..|q|];
    assert r == s[..|r|];
  }

  /** What `RStrip` removes is a run of `c`: `s` is the stripped text followed by it. */
  lemma RStripSplit(s: string, c: char)
    ensures s == RStrip(s, c) + Repeat(c, |s| - |RStrip(s, c)|)
  {}

  /** One more `c` after a run of `c` is a longer run. */
  lemma RepeatSnoc(c: char, k: nat)
    ensures Repeat(c, k) + [c] == Repeat(c, k + 1)
  {}

  /** `sep.join(xs)`: the parts in order, first to last, separated by `sep`. */
  function Join(xs: seq<string>, sep: string): (r: string)
    ensures |xs| == 0 ==> r == ""
    ensures |xs| > 0 ==> StartsWith(r, xs[0]) && EndsWith(r, xs[|xs| - 1])
    ensures |xs| > 1 ==> StartsWith(r, xs[0] + sep)
  {
    if |xs| == 0 then ""
    else if |xs| == 1 then xs[0]
    else xs[0] + sep + Join(xs[1..], sep)
  }

  /** A join of two or more parts is the first part, the separator, and the join of the rest. */
  lemma JoinCons(xs: seq<string>, sep: string)
    requires |xs| > 1
    ensures Join(xs, sep) == xs[0] + sep + Join(xs[1..], sep)
  {}

  /** `s.split(c)` for a one-character separator: always at least one part. */
  function SplitOn(s: string, c: char): (r: seq<string>)
    ensures |r| >= 1
    ensures forall i :: 0 <= i < |r| ==> c !in r[i]
    decreases |s|
  {
    match SplitOnce(s, c)
    case None => [s]
    case Some((head, tail)) => [head] + SplitOn(tail, c)
  }

  /** Splitting a join on its separator gives back the parts, when no part holds the separator. */
  lemma {:induction false} SplitOnJoin(xs: seq<string>, c: char)
    requires |xs| >= 1
    requires forall i :: 0 <= i < |xs| ==> c !in xs[i]
    ensures SplitOn(Join(xs, [c]), c) == xs
  {
    if |xs| == 1 {
      assert Join(xs, [c]) == xs[0];
    } else {
      var rest := Join(xs[1..], [c]);
      JoinCons(xs, [c]);
      SplitOnceAt(xs[0], c, rest);
      SplitOnJoin(xs[1..], c);
      assert xs == [xs[0]] + xs[1..];
    }
  }

  /** Python's `str.isspace` for one character: the separators of `s.split()`. */
  predicate IsSpace(ch: char) {
    || ('\t' <= ch <= '\r')
    || ('\U{1C}' <= ch <= ' ')
    || ch == '\U{85}' || ch == '\U{A0}' || ch == '\U{1680}'
    || ('\U{2000}' <= ch <= '\U{200A}')
    || ch == '\U{2028}' || ch == '\U{2029}' || ch == '\U{202F}'
    || ch == '\U{205F}' || ch == '\U{3000}'
  }

  /** `s` with every whitespace character removed. */
  function RemoveSpaces(s: string): (r: string)
    ensures |r| == 0 <==> forall i :: 0 <= i < |s| ==> IsSpace(s[i])
  {
    if |s| == 0 then ""
    else (if IsSpace(s[0]) then "" else [s[0]]) + RemoveSpaces(s[1..])
  }

  /** The strings of `ws` one after another. */
  function Concat(ws: seq<string>): string {
    if |ws| == 0 then "" else ws[0] + Concat(ws[1..])
  }

  /** The longest prefix of `s` without whitespace. */
  function TakeWord(s: string): (w: string)
    ensures w <= s
    ensures forall i :: 0 <= i < |w| ==> !IsSpace(w[i])
    ensures |w| < |s| ==> IsSpace(s[|w|])
  {
    if |s| == 0 || IsSpace(s[0]) then "" else [s[0]] + TakeWord(s[1..])
  }

  /** Removing whitespace keeps the leading word whole. */
  lemma {:induction false} RemoveSpacesTakeWord(s: string)
    ensures RemoveSpaces(s) == TakeWord(s) + RemoveSpaces(s[|TakeWord(s)|..])
  {
    if |s| > 0 && !IsSpace(s[0]) {
      var w := TakeWord(s[1..]);
      RemoveSpacesTakeWord(s[1..]);
      assert RemoveSpaces(s) == [s[0]] + RemoveSpaces(s[1..]);
      assert s[1..][|w|..] == s[|w| + 1..];
    }
  }

  /**
   * `s.split()`: the maximal runs of non-whitespace characters, in order. Together
   * they spell `s` without its whitespace, and there are none exactly when `s` is
   * all whitespace.
   */
  function Words(s: string): (ws: seq<string>)
    ensures forall i :: 0 <= i < |ws| ==> |ws[i]| > 0
    ensures forall i, j :: 0 <= i < |ws| && 0 <= j < |ws[i]| ==> !IsSpace(ws[i][j])
    ensures Concat(ws) == RemoveSpaces(s)
    ensures |ws| == 0 <==> forall i :: 0 <= i < |s| ==> IsSpace(s[i])
    decreases |s|
  {
    if |s| == 0 then []
    else if IsSpace(s[0]) then Words(s[1..])
    else
      var w := TakeWord(s);
      var ws := [w] + Words(s[|w|..]);
      RemoveSpacesTakeWord(s);
      assert ws[1..] == Words(s[|w|..]);
      assert RemoveSpaces(s) != "" by { assert s[0] == RemoveSpaces(s)[0]; }
      ws
  }

  /** A non-space character opens a new word exactly when what follows it does not continue one. */
  lemma WordsCons(c: char, t: string)
    requires !IsSpace(c)
    ensures |Words([c] + t)| == |Words(t)| + (if |t| == 0 || IsSpace(t[0]) then 1 else 0)
  {}

  /** A word ends at `j`: a non-space character followed by whitespace or by the end of `s`. */
  predicate EndsWord(s: string, j: int)
    requires 0 <= j < |s|
  {
    !IsSpace(s[j]) && (j + 1 == |s| || IsSpace(s[j + 1]))
  }

  /** The number of positions at or after `i` where a word of `s` ends. */
  function CountWordEnds(s: string, i: nat): nat
    requires i <= |s|
    decreases |s| - i
  {
    if i == |s| then 0 else (if EndsWord(s, i) then 1 else 0) + CountWordEnds(s, i + 1)
  }

  /** `s[i..].split()` yields exactly one word per word end of `s` at or after `i`. */
  lemma {:induction false} WordsCountWordEnds(s: string, i: nat)
    requires i <= |s|
    ensures |Words(s[i..])| == CountWordEnds(s, i)
    decreases |s| - i
  {
    if i < |s| {
      WordsCountWordEnds(s, i + 1);
      assert s[i..] == [s[i]] + s[i + 1..];
      if IsSpace(s[i]) {
        assert s[i..][1..] == s[i + 1..];
      } else {
        WordsCons(s[i], s[i + 1..]);
        assert EndsWord(s, i) <==> i + 1 == |s| || IsSpace(s[i + 1..][0]);
      }
    }
  }

  /** `len(s.split())`, counted in one backwards pass. */
  method CountWords(s: string) returns (n: nat)
    ensures n == |Words(s)|
    ensures n == CountWordEnds(s, 0)
  {
    n := 0;
    var i := |s|;
    while i > 0
      invariant 0 <= i <= |s|
      invariant n == |Words(s[i..])|
    {
      i := i - 1;
      assert s[i..] == [s[i]] + s[i + 1..];
      if IsSpace(s[i]) {
        assert s[i..][1..] == s[i + 1..];
      } else {
        WordsCons(s[i], s[i + 1..]);
        if i + 1 == |s| || IsSpace(s[i + 1]) {
          n := n + 1;
        }
      }
    }
    assert s[0..] == s;
    WordsCountWordEnds(s, 0);
  }
}
