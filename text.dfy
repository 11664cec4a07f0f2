/**
 * The Python string built-ins the extractor relies on, over strings of
 * Unicode code points: `str.strip()`, `str.split()`, `' '.join`,
 * `re.split(r'[.!?]+', ...)` and the substring test `k in s`.
 */
module Text {

  /** `str.isspace()`: the separators of `str.split()` and `str.strip()` without arguments. */
  predicate IsSpace(c: char)
  {
    || ('\U{9}' <= c <= '\U{D}')
    || ('\U{1C}' <= c <= '\U{20}')
    || c == '\U{85}' || c == '\U{A0}' || c == '\U{1680}'
    || ('\U{2000}' <= c <= '\U{200A}')
    || c == '\U{2028}' || c == '\U{2029}' || c == '\U{202F}' || c == '\U{205F}' || c == '\U{3000}'
  }

  /** Every character of `s` is whitespace (this includes the empty string). */
  predicate Blank(s: string)
  {
    forall i :: 0 <= i < |s| ==> IsSpace(s[i])
  }

  /** The length of the leading run of whitespace. */
  function LeadingSpaces(s: string): (n: nat)
    ensures n <= |s|
    ensures forall i :: 0 <= i < n ==> IsSpace(s[i])
    ensures n < |s| ==> !IsSpace(s[n])
  {
    if |s| > 0 && IsSpace(s[0]) then 1 + LeadingSpaces(s[1..]) else 0
  }

  /** The length of the trailing run of whitespace. */
  function TrailingSpaces(s: string): (n: nat)
    ensures n <= |s|
    ensures forall i :: |s| - n <= i < |s| ==> IsSpace(s[i])
    ensures n < |s| ==> !IsSpace(s[|s| - 1 - n])
  {
    if |s| > 0 && IsSpace(s[|s| - 1]) then 1 + TrailingSpaces(s[..|s| - 1]) else 0
  }

  /** `str.rstrip()`: the prefix left before the trailing whitespace. */
  function TrimRight(s: string): (r: string)
    ensures |r| <= |s| && r == s[..|r|]
    ensures r == [] || !IsSpace(r[|r| - 1])
    ensures forall i :: |r| <= i < |s| ==> IsSpace(s[i])
  {
    s[..|s| - TrailingSpaces(s)]
  }

  /**
   * `str.strip()`: the part of `s` after its leading whitespace and before
   * its trailing whitespace. It is empty exactly for blank input, and
   * otherwise starts and ends with a non-space.
   */
  function Strip(s: string): (r: string)
    ensures LeadingSpaces(s) + |r| <= |s|
    ensures forall i :: 0 <= i < |r| ==> r[i] == s[LeadingSpaces(s) + i]
    ensures forall i :: LeadingSpaces(s) + |r| <= i < |s| ==> IsSpace(s[i])
    ensures r == [] <==> Blank(s)
    ensures r != [] ==> !IsSpace(r[0]) && !IsSpace(r[|r| - 1])
  {
    var n := LeadingSpaces(s);
    if n == |s| then []
    else
      var t := s[n..];
      assert t[0] == s[n];
      TrimRight(t)
  }

  /** A `str.split()` word: non-empty and free of whitespace. */
  predicate IsWord(w: string)
  {
    |w| > 0 && forall i :: 0 <= i < |w| ==> !IsSpace(w[i])
  }

  /** The length of the leading run of non-space characters. */
  function WordLength(s: string): (n: nat)
    ensures n <= |s|
    ensures forall i :: 0 <= i < n ==> !IsSpace(s[i])
    ensures n < |s| ==> IsSpace(s[n])
  {
    if |s| > 0 && !IsSpace(s[0]) then 1 + WordLength(s[1..]) else 0
  }

  /** `str.split()` without arguments: the maximal runs of non-space characters, in order. */
  function Words(s: string): (ws: seq<string>)
    ensures forall i :: 0 <= i < |ws| ==> IsWord(ws[i])
    ensures ws == [] <==> Blank(s)
    decreases |s|, 1
  {
    var l := LeadingSpaces(s);
    assert l < |s| ==> s[l..][0] == s[l];
    WordsFrom(s[l..])
  }

  /** The words of a text that does not start with whitespace. */
  function WordsFrom(t: string): (ws: seq<string>)
    requires t == [] || !IsSpace(t[0])
    ensures forall i :: 0 <= i < |ws| ==> IsWord(ws[i])
    ensures ws == [] <==> t == []
    decreases |t|, 0
  {
    if t == [] then []
    else
      var n := WordLength(t);
      assert IsWord(t[..n]);
      [t[..n]] + Words(t[n..])
  }

  /** `outer[0] + inner[0] + outer[1] + ... + inner[k - 1] + outer[k]`. */
  function Weave(outer: seq<string>, inner: seq<string>): string
    requires |outer| == |inner| + 1
    decreases |inner|
  {
    if inner == [] then outer[0] else outer[0] + (inner[0] + Weave(outer[1..], inner[1..]))
  }

  /**
   * The whitespace around the words of `s`: before the first word, between
   * consecutive words and after the last one. Every run is blank and the
   * runs between two words are not empty.
   */
  function SpaceRuns(s: string): (g: seq<string>)
    ensures |g| == |Words(s)| + 1
    ensures forall i :: 0 <= i < |g| ==> Blank(g[i])
    ensures forall i :: 0 < i < |g| - 1 ==> g[i] != []
    ensures |s| > 0 && IsSpace(s[0]) ==> g[0] != []
    decreases |s|, 1
  {
    var l := LeadingSpaces(s);
    var t := s[l..];
    assert l < |s| ==> t[0] == s[l];
    var h := SpaceRunsFrom(t);
    var g := [s[..l] + h[0]] + h[1..];
    assert forall i :: 0 < i < |g| ==> g[i] == h[i];
    g
  }

  /** The whitespace around the words of a text that does not start with whitespace. */
  function SpaceRunsFrom(t: string): (g: seq<string>)
    requires t == [] || !IsSpace(t[0])
    ensures |g| == |WordsFrom(t)| + 1
    ensures g[0] == []
    ensures forall i :: 0 <= i < |g| ==> Blank(g[i])
    ensures forall i :: 0 < i < |g| - 1 ==> g[i] != []
    decreases |t|, 0
  {
    if t == [] then [[]]
    else
      var n := WordLength(t);
      var h := SpaceRuns(t[n..]);
      var g := [[]] + h;
      assert forall i :: 0 < i < |g| ==> g[i] == h[i - 1];
      g
  }

  /** Weaving the whitespace runs of `s` with its words gives `s` back. */
  lemma {:induction false} WordsRebuild(s: string)
    ensures Weave(SpaceRuns(s), Words(s)) == s
    decreases |s|, 1
  {
    var l := LeadingSpaces(s);
    var t := s[l..];
    assert l < |s| ==> t[0] == s[l];
    WordsFromRebuild(t);
    WeavePrepend(s[..l], SpaceRunsFrom(t), WordsFrom(t));
    SplitAgain(s, l);
  }

  lemma {:induction false} WordsFromRebuild(t: string)
    requires t == [] || !IsSpace(t[0])
    ensures Weave(SpaceRunsFrom(t), WordsFrom(t)) == t
    decreases |t|, 0
  {
    if t != [] {
      var n := WordLength(t);
      var w, u := t[..n], t[n..];
      assert SpaceRunsFrom(t) == [[]] + SpaceRuns(u);
      assert WordsFrom(t) == [w] + Words(u);
      WordsRebuild(u);
      WeaveAfterEmpty(w, SpaceRuns(u), Words(u));
      SplitAgain(t, n);
    }
  }

  /**
   * Concatenation is associative, and a string is its prefix followed by
   * the rest. Stated on their own so that the proofs about `Weave` use them
   * as facts instead of re-deriving them among many others.
   */
  lemma ConcatAssoc(a: string, b: string, c: string)
    ensures (a + b) + c == a + (b + c)
  {
  }

  lemma SplitAgain(s: string, n: nat)
    requires n <= |s|
    ensures s[..n] + s[n..] == s
  {
  }

  /** A weave that starts with an empty outer string starts with its first inner string. */
  lemma WeaveAfterEmpty(b: string, outer: seq<string>, inner: seq<string>)
    requires |outer| == |inner| + 1
    ensures Weave([[]] + outer, [b] + inner) == b + Weave(outer, inner)
  {
    assert ([[]] + outer)[1..] == outer;
    assert ([b] + inner)[1..] == inner;
    assert [] + (b + Weave(outer, inner)) == b + Weave(outer, inner);
  }

  /** Putting `x` in front of the first outer string puts it in front of the whole weave. */
  lemma WeavePrepend(x: string, outer: seq<string>, inner: seq<string>)
    requires |outer| == |inner| + 1
    ensures Weave([x + outer[0]] + outer[1..], inner) == x + Weave(outer, inner)
  {
    var o := [x + outer[0]] + outer[1..];
    assert o[0] == x + outer[0] && o[1..] == outer[1..];
    if inner != [] {
      ConcatAssoc(x, outer[0], inner[0] + Weave(outer[1..], inner[1..]));
    }
  }

  /**
   * With an empty first outer string, putting `x` in front of the first
   * inner string puts it in front of the whole weave.
   */
  lemma WeaveInnerPrepend(x: string, outer: seq<string>, inner: seq<string>)
    requires |outer| == |inner| + 1 && inner != [] && outer[0] == []
    ensures Weave(outer, [x + inner[0]] + inner[1..]) == x + Weave(outer, inner)
  {
    var i := [x + inner[0]] + inner[1..];
    assert i[0] == x + inner[0] && i[1..] == inner[1..];
    var w := Weave(outer[1..], inner[1..]);
    assert outer[0] + (inner[0] + w) == inner[0] + w;
    assert outer[0] + ((x + inner[0]) + w) == (x + inner[0]) + w;
    ConcatAssoc(x, inner[0], w);
  }

  /** A list of `n` single spaces. */
  function Spaces(n: nat): seq<string>
  {
    seq(n, _ => " ")
  }

  /** `' '.join(ws)`: the strings of `ws` with one space between each two. */
  function JoinSpace(ws: seq<string>): (r: string)
    ensures ws == [] ==> r == []
    ensures ws != [] ==> r == Weave(ws, Spaces(|ws| - 1))
  {
    if ws == [] then []
    else if |ws| == 1 then ws[0]
    else
      assert Spaces(|ws| - 1)[1..] == Spaces(|ws| - 2);
      ws[0] + ([' '] + JoinSpace(ws[1..]))
  }

  lemma WordsSkipSpace(c: char, s: string)
    requires IsSpace(c)
    ensures Words([c] + s) == Words(s)
  {
    var cs := [c] + s;
    assert cs[1..] == s;
    assert LeadingSpaces(cs) == 1 + LeadingSpaces(s);
    assert cs[LeadingSpaces(cs)..] == s[LeadingSpaces(s)..];
  }

  lemma WordsOfWordThen(w: string, rest: string)
    requires IsWord(w)
    requires rest == [] || IsSpace(rest[0])
    ensures Words(w + rest) == [w] + Words(rest)
  {
    var s := w + rest;
    assert s[0] == w[0];
    assert LeadingSpaces(s) == 0;
    assert s[0..] == s;
    var n := WordLength(s);
    assert forall i :: 0 <= i < |w| ==> s[i] == w[i];
    assert rest != [] ==> s[|w|] == rest[0];
    assert n == |w|;
    assert s[..n] == w && s[n..] == rest;
    assert WordsFrom(s) == [w] + Words(rest);
  }

  lemma WordsOfWord(w: string)
    requires IsWord(w)
    ensures Words(w) == [w]
  {
    WordsOfWordThen(w, []);
    assert w + [] == w;
    assert LeadingSpaces([]) == 0;
  }

  /** Splitting `w` followed by a space and more text yields `w` and the words after it. */
  lemma WordsOfJoinSpaceStep(ws: seq<string>)
    requires |ws| >= 2 && IsWord(ws[0])
    ensures Words(JoinSpace(ws)) == [ws[0]] + Words(JoinSpace(ws[1..]))
  {
    var rest := JoinSpace(ws[1..]);
    var spaced := [' '] + rest;
    assert JoinSpace(ws) == ws[0] + spaced;
    WordsOfWordThen(ws[0], spaced);
    WordsSkipSpace(' ', rest);
  }

  /** Splitting a space-joined list of words gives the list back. */
  lemma {:induction false} WordsOfJoinSpace(ws: seq<string>)
    requires forall i :: 0 <= i < |ws| ==> IsWord(ws[i])
    ensures Words(JoinSpace(ws)) == ws
  {
    if ws == [] {
      assert Blank(JoinSpace(ws));
    } else if |ws| == 1 {
      WordsOfWord(ws[0]);
    } else {
      WordsOfJoinSpaceStep(ws);
      WordsOfJoinSpace(ws[1..]);
      assert [ws[0]] + ws[1..] == ws;
    }
  }

  /** The sentence delimiters of the pattern `[.!?]+`. */
  predicate IsDelimiter(c: char)
  {
    c == '.' || c == '!' || c == '?'
  }

  predicate NoDelimiter(s: string)
  {
    forall i :: 0 <= i < |s| ==> !IsDelimiter(s[i])
  }

  predicate AllDelimiters(s: string)
  {
    forall i :: 0 <= i < |s| ==> IsDelimiter(s[i])
  }

  /** The maximal runs of delimiters in `s`, in order: each is non-empty and holds only delimiters. */
  function DelimiterRunsOf(s: string): (runs: seq<string>)
    ensures forall i :: 0 <= i < |runs| ==> runs[i] != [] && AllDelimiters(runs[i])
    ensures |s| > 0 && IsDelimiter(s[0]) ==> runs != []
    decreases |s|
  {
    if s == [] then []
    else if IsDelimiter(s[0]) then
      var rest := DelimiterRunsOf(s[1..]);
      if |s| > 1 && IsDelimiter(s[1]) then
        var runs := [[s[0]] + rest[0]] + rest[1..];
        assert forall i :: 1 <= i < |runs| ==> runs[i] == rest[i];
        runs
      else [[s[0]]] + rest
    else DelimiterRunsOf(s[1..])
  }

  /**
   * `re.split(r'[.!?]+', s)`: the pieces between the maximal runs of
   * delimiters. There is one more piece than there are runs, no piece holds
   * a delimiter, and a piece between two runs is not empty (so the runs
   * are maximal). A text that starts with a delimiter has an empty first
   * piece, and one that starts with anything else has a non-empty one.
   */
  function SplitSentences(s: string): (pieces: seq<string>)
    ensures |pieces| == |DelimiterRunsOf(s)| + 1
    ensures forall i :: 0 <= i < |pieces| ==> NoDelimiter(pieces[i])
    ensures forall i :: 0 < i < |pieces| - 1 ==> pieces[i] != []
    ensures |s| > 0 && IsDelimiter(s[0]) ==> pieces[0] == []
    ensures |s| > 0 && !IsDelimiter(s[0]) ==> pieces[0] != []
    decreases |s|
  {
    if s == [] then [""]
    else
      var rest := SplitSentences(s[1..]);
      if IsDelimiter(s[0]) then
        if |s| > 1 && IsDelimiter(s[1]) then rest
        else
          var pieces := [""] + rest;
          assert forall i :: 1 <= i < |pieces| ==> pieces[i] == rest[i - 1];
          pieces
      else
        var pieces := [[s[0]] + rest[0]] + rest[1..];
        assert forall i :: 1 <= i < |pieces| ==> pieces[i] == rest[i];
        assert NoDelimiter(pieces[0]) by {
          assert NoDelimiter(rest[0]);
          assert forall i :: 1 <= i < |pieces[0]| ==> pieces[0][i] == rest[0][i - 1];
        }
        pieces
  }

  /** Weaving the pieces of `s` with its delimiter runs gives `s` back. */
  lemma {:induction false} SplitSentencesRebuild(s: string)
    ensures Weave(SplitSentences(s), DelimiterRunsOf(s)) == s
    decreases |s|
  {
    if s != [] {
      var rest := SplitSentences(s[1..]);
      var runs := DelimiterRunsOf(s[1..]);
      SplitSentencesRebuild(s[1..]);
      assert [s[0]] + s[1..] == s;
      if IsDelimiter(s[0]) {
        if |s| > 1 && IsDelimiter(s[1]) {
          WeaveInnerPrepend([s[0]], rest, runs);
        } else {
          WeaveAfterEmpty([s[0]], rest, runs);
        }
      } else {
        WeavePrepend([s[0]], rest, runs);
      }
    }
  }

  /** Python's `k in s` on strings: `k` occurs in `s` as a contiguous substring. */
  predicate Contains(s: string, k: string)
    decreases |s|
  {
    k <= s || (|s| > 0 && Contains(s[1..], k))
  }

  /** `k` appears in `s` starting at position `i`. */
  predicate OccursAt(s: string, k: string, i: int)
  {
    0 <= i && i + |k| <= |s| && s[i..i + |k|] == k
  }

  /** `k in s` holds exactly when `k` appears at some position of `s`. */
  lemma {:induction false} ContainsIff(s: string, k: string)
    ensures Contains(s, k) <==> exists i :: OccursAt(s, k, i)
    decreases |s|
  {
    if k <= s {
      assert s[0..|k|] == k;
      assert OccursAt(s, k, 0);
    }
    if |s| > 0 {
      ContainsIff(s[1..], k);
      if Contains(s[1..], k) {
        var i :| OccursAt(s[1..], k, i);
        assert s[i + 1..i + 1 + |k|] == s[1..][i..i + |k|];
        assert OccursAt(s, k, i + 1);
      }
      if exists i :: OccursAt(s, k, i) {
        var i :| OccursAt(s, k, i);
        if i > 0 {
          assert s[1..][i - 1..i - 1 + |k|] == s[i..i + |k|];
          assert OccursAt(s[1..], k, i - 1);
        } else {
          assert k <= s;
        }
      }
    } else if exists i :: OccursAt(s, k, i) {
      var i :| OccursAt(s, k, i);
      assert k == [];
    }
  }
}
