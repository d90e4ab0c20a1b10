/**
 * Python's `str.strip()` and `str.split()` (called without a separator),
 * the two string operations a label line goes through before its fields
 * are converted to numbers.
 */
module Tokenize {

  /** Python's `str.isspace()` for a single character. */
  predicate IsSpace(c: char)
  {
    var n := c as int;
    (9 <= n <= 13) || (28 <= n <= 32) || n == 0x85 || n == 0xA0 || n == 0x1680
    || (0x2000 <= n <= 0x200A) || n == 0x2028 || n == 0x2029 || n == 0x202F
    || n == 0x205F || n == 0x3000
  }

  predicate AllSpace(s: string)
  {
    forall i :: 0 <= i < |s| ==> IsSpace(s[i])
  }

  /** A token as `split()` yields it: non-empty and free of white space. */
  predicate Word(t: string)
  {
    t != [] && forall i :: 0 <= i < |t| ==> !IsSpace(t[i])
  }

  /** `lstrip()`: drops the leading white space. */
  function TrimStart(s: string): (r: string)
    ensures |r| <= |s| && r == s[|s| - |r|..]
    ensures AllSpace(s[..|s| - |r|])
    ensures r == [] || !IsSpace(r[0])
  {
    if s != [] && IsSpace(s[0]) then TrimStart(s[1..]) else s
  }

  /** `rstrip()`: drops the trailing white space. */
  function TrimEnd(s: string): (r: string)
    ensures |r| <= |s| && r == s[..|r|]
    ensures AllSpace(s[|r|..])
    ensures r == [] || !IsSpace(r[|r| - 1])
  {
    if s != [] && IsSpace(s[|s| - 1]) then TrimEnd(s[..|s| - 1]) else s
  }

  /** `strip()`: `rstrip()` after `lstrip()`, dropping white space at both ends. */
  function Strip(s: string): string
  {
    TrimEnd(TrimStart(s))
  }

  /** Length of the longest prefix of `s` that holds no white space. */
  function TokenLength(s: string): (n: nat)
    ensures n <= |s|
    ensures forall i :: 0 <= i < n ==> !IsSpace(s[i])
    ensures n == |s| || IsSpace(s[n])
  {
    if s == [] || IsSpace(s[0]) then 0 else 1 + TokenLength(s[1..])
  }

  /** `split()`: the maximal runs of non-white-space characters, in order. */
  function Split(s: string): (r: seq<string>)
    ensures forall k :: 0 <= k < |r| ==> Word(r[k])
    decreases |s|
  {
    if s == [] then []
    else if IsSpace(s[0]) then Split(s[1..])
    else
      var n := TokenLength(s);
      [s[..n]] + Split(s[n..])
  }

  /** The tokens written out with one space between neighbours. */
  function JoinSpace(tokens: seq<string>): string
  {
    if |tokens| == 0 then []
    else if |tokens| == 1 then tokens[0]
    else tokens[0] + " " + JoinSpace(tokens[1..])
  }

  /** The characters of `s` that are not white space, in order. */
  function NonSpace(s: string): string
  {
    if s == [] then [] else (if IsSpace(s[0]) then [] else [s[0]]) + NonSpace(s[1..])
  }

  function Concat(ts: seq<string>): string
  {
    if ts == [] then [] else ts[0] + Concat(ts[1..])
  }

  lemma {:induction false} TokenLengthOfWord(w: string, rest: string)
    requires Word(w)
    requires rest == [] || IsSpace(rest[0])
    ensures TokenLength(w + rest) == |w|
    decreases |w|
  {
    var s := w + rest;
    assert s[0] == w[0];
    if |w| > 1 {
      assert s[1..] == w[1..] + rest;
      TokenLengthOfWord(w[1..], rest);
    } else {
      assert s[1..] == rest;
    }
  }

  /** A word followed by white space (or nothing) is split off as one token. */
  lemma SplitWordThen(w: string, rest: string)
    requires Word(w)
    requires rest == [] || IsSpace(rest[0])
    ensures Split(w + rest) == [w] + Split(rest)
  {
    var s := w + rest;
    TokenLengthOfWord(w, rest);
    assert s[0] == w[0];
    assert s[..|w|] == w;
    assert s[|w|..] == rest;
  }

  /** Leading white space never produces a token. */
  lemma {:induction false} SplitSkipsLeading(lead: string, m: string)
    requires AllSpace(lead)
    ensures Split(lead + m) == Split(m)
    decreases |lead|
  {
    if lead != [] {
      assert (lead + m)[0] == lead[0];
      assert (lead + m)[1..] == lead[1..] + m;
      SplitSkipsLeading(lead[1..], m);
    } else {
      assert lead + m == m;
    }
  }

  /** Trailing white space never produces a token. */
  lemma {:induction false} SplitSkipsTrailing(m: string, trail: string)
    requires AllSpace(trail)
    ensures Split(m + trail) == Split(m)
    decreases |m|
  {
    var s := m + trail;
    if m == [] {
      assert s == trail + [];
      SplitSkipsLeading(trail, []);
    } else if IsSpace(m[0]) {
      assert s[0] == m[0];
      assert s[1..] == m[1..] + trail;
      SplitSkipsTrailing(m[1..], trail);
    } else {
      assert s[0] == m[0];
      var n := TokenLength(m);
      var w := m[..n];
      assert Word(w);
      assert m == w + m[n..];
      SplitWordThen(w, m[n..]);
      assert s == w + (m[n..] + trail);
      if n < |m| {
        assert (m[n..] + trail)[0] == m[n];
      } else {
        assert m[n..] + trail == trail;
        assert trail == [] || IsSpace(trail[0]);
      }
      SplitWordThen(w, m[n..] + trail);
      SplitSkipsTrailing(m[n..], trail);
    }
  }

  /** `lstrip()` before `split()` changes nothing. */
  lemma SplitIgnoresTrimStart(s: string)
    ensures Split(TrimStart(s)) == Split(s)
  {
    var t := TrimStart(s);
    var lead := s[..|s| - |t|];
    assert s == lead + t;
    SplitSkipsLeading(lead, t);
  }

  /** `rstrip()` before `split()` changes nothing. */
  lemma SplitIgnoresTrimEnd(t: string)
    ensures Split(TrimEnd(t)) == Split(t)
  {
    var u := TrimEnd(t);
    var trail := t[|u|..];
    assert t == u + trail;
    SplitSkipsTrailing(u, trail);
  }

  /** `strip()` before `split()` changes nothing. */
  lemma SplitIgnoresStrip(s: string)
    ensures Split(Strip(s)) == Split(s)
  {
    SplitIgnoresTrimStart(s);
    SplitIgnoresTrimEnd(TrimStart(s));
  }

  /** Splitting a line written as space-separated tokens gives the tokens back. */
  lemma {:induction false} SplitJoinSpace(tokens: seq<string>)
    requires forall k :: 0 <= k < |tokens| ==> Word(tokens[k])
    ensures Split(JoinSpace(tokens)) == tokens
    decreases |tokens|
  {
    if |tokens| == 0 {
    } else if |tokens| == 1 {
      SplitWordThen(tokens[0], []);
      assert tokens[0] + [] == tokens[0];
    } else {
      var rest := JoinSpace(tokens[1..]);
      assert JoinSpace(tokens) == tokens[0] + (" " + rest);
      SplitWordThen(tokens[0], " " + rest);
      assert (" " + rest)[0] == ' ';
      assert (" " + rest)[1..] == rest;
      SplitJoinSpace(tokens[1..]);
      assert tokens == [tokens[0]] + tokens[1..];
    }
  }

  lemma {:induction false} NonSpaceAppend(a: string, b: string)
    ensures NonSpace(a + b) == NonSpace(a) + NonSpace(b)
    decreases |a|
  {
    if a == [] {
      assert a + b == b;
    } else {
      assert (a + b)[0] == a[0];
      assert (a + b)[1..] == a[1..] + b;
      NonSpaceAppend(a[1..], b);
    }
  }

  lemma {:induction false} NonSpaceOfWord(w: string)
    requires forall i :: 0 <= i < |w| ==> !IsSpace(w[i])
    ensures NonSpace(w) == w
    decreases |w|
  {
    if w != [] {
      NonSpaceOfWord(w[1..]);
      assert w == [w[0]] + w[1..];
    }
  }

  /** The tokens, glued together, are exactly the non-white-space characters of the line. */
  lemma {:induction false} SplitKeepsAllNonSpace(s: string)
    ensures Concat(Split(s)) == NonSpace(s)
    decreases |s|
  {
    if s == [] {
    } else if IsSpace(s[0]) {
      SplitKeepsAllNonSpace(s[1..]);
    } else {
      var n := TokenLength(s);
      var w := s[..n];
      assert s == w + s[n..];
      NonSpaceAppend(w, s[n..]);
      NonSpaceOfWord(w);
      SplitKeepsAllNonSpace(s[n..]);
      var r := Split(s);
      assert r == [w] + Split(s[n..]);
      assert r[0] == w && r[1..] == Split(s[n..]);
    }
  }

  lemma JoinFiveFields(a: string, b: string, c: string, d: string, e: string)
    ensures JoinSpace([a, b, c, d, e]) == a + " " + b + " " + c + " " + d + " " + e
  {
    var ts := [a, b, c, d, e];
    assert ts[1..] == [b, c, d, e] && ts[2..] == [c, d, e] && ts[3..] == [d, e] && ts[4..] == [e];
    assert JoinSpace([e]) == e;
    assert JoinSpace([d, e]) == d + " " + e;
    assert JoinSpace([c, d, e]) == c + " " + (d + " " + e);
    assert JoinSpace([b, c, d, e]) == b + " " + (c + " " + (d + " " + e));
    assert JoinSpace(ts) == a + " " + (b + " " + (c + " " + (d + " " + e)));
  }

  /** A label line written as five space-separated words, with any line ending, splits into those five words. */
  lemma SplitFiveFields(a: string, b: string, c: string, d: string, e: string, ending: string)
    requires Word(a) && Word(b) && Word(c) && Word(d) && Word(e) && AllSpace(ending)
    ensures Split(a + " " + b + " " + c + " " + d + " " + e + ending) == [a, b, c, d, e]
  {
    var ts := [a, b, c, d, e];
    SplitJoinSpace(ts);
    JoinFiveFields(a, b, c, d, e);
    SplitSkipsTrailing(JoinSpace(ts), ending);
  }
}
