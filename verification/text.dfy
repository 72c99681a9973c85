/**
 * The Python string primitives the outline codec is built from: the whitespace
 * class shared by `str.strip()` and the regular-expression class `\s`,
 * `strip`, `str.split(sep)` (which is also what `re.split` does with a literal
 * pattern), `sep.join(...)`, `str.splitlines()`, `startswith` and
 * `str.find`.
 */
module Text {
  import opened Seqs

  /** The characters for which Python's `str.isspace()` holds: `str.strip()`
      removes exactly these, and `\s` matches exactly these in a `str` pattern. */
  predicate IsSpace(c: char) {
    || c == ' '
    || ('\t' <= c <= '\r')
    || ('\U{1c}' <= c <= '\U{1f}')
    || c == '\U{85}' || c == '\U{a0}' || c == '\U{1680}'
    || ('\U{2000}' <= c <= '\U{200a}')
    || c == '\U{2028}' || c == '\U{2029}' || c == '\U{202f}' || c == '\U{205f}' || c == '\U{3000}'
  }

  /** The line boundaries of Python's `str.splitlines()` (`\r\n` counts as one). */
  predicate IsLineBreak(c: char) {
    || c == '\n' || c == '\r' || c == '\U{b}' || c == '\U{c}'
    || ('\U{1c}' <= c <= '\U{1e}')
    || c == '\U{85}' || c == '\U{2028}' || c == '\U{2029}'
  }

  predicate StartsWith(s: string, prefix: string) {
    |prefix| <= |s| && s[..|prefix|] == prefix
  }

  /** `pat` occurs in `s` at position `p`. */
  predicate MatchAt(s: string, p: nat, pat: string) {
    p <= |s| && StartsWith(s[p..], pat)
  }

  predicate AllSpace(s: string) {
    forall i :: 0 <= i < |s| ==> IsSpace(s[i])
  }

  /** No leading and no trailing whitespace: what `strip()` leaves unchanged. */
  predicate Trimmed(s: string) {
    s == [] || (!IsSpace(s[0]) && !IsSpace(s[|s| - 1]))
  }

  function Spaces(n: nat): (r: string)
    ensures |r| == n
  {
    if n == 0 then "" else " " + Spaces(n - 1)
  }

  lemma {:induction false} SpacesAreSpaces(n: nat)
    ensures AllSpace(Spaces(n)) && forall i :: 0 <= i < n ==> Spaces(n)[i] == ' '
  {
    if n > 0 {
      SpacesAreSpaces(n - 1);
    }
  }

  /** `s.lstrip()`: removes the longest all-whitespace prefix. */
  function LStrip(s: string): (r: string)
    ensures |r| <= |s|
    ensures r == [] || !IsSpace(r[0])
  {
    if s != [] && IsSpace(s[0]) then LStrip(s[1..]) else s
  }

  /** What `lstrip()` removes is all whitespace, and it keeps a suffix. */
  lemma {:induction false} LStripShape(s: string)
    ensures LStrip(s) == s[|s| - |LStrip(s)|..]
    ensures AllSpace(s[..|s| - |LStrip(s)|])
    decreases |s|
  {
    if s != [] && IsSpace(s[0]) {
      LStripShape(s[1..]);
    }
  }

  /** `lstrip()` stops at or before the first non-whitespace character. */
  lemma {:induction false} LStripKeeps(s: string, n: nat)
    requires n < |s| && !IsSpace(s[n])
    ensures |s| - |LStrip(s)| <= n
    decreases |s|
  {
    if s != [] && IsSpace(s[0]) {
      LStripKeeps(s[1..], n - 1);
    }
  }

  /** `s.rstrip()`: removes the longest all-whitespace suffix. */
  function RStrip(s: string): (r: string)
    ensures |r| <= |s|
    ensures r == [] || !IsSpace(r[|r| - 1])
  {
    if s != [] && IsSpace(s[|s| - 1]) then RStrip(s[..|s| - 1]) else s
  }

  /** What `rstrip()` removes is all whitespace, and it keeps a prefix. */
  lemma {:induction false} RStripShape(s: string)
    ensures RStrip(s) == s[..|RStrip(s)|]
    ensures AllSpace(s[|RStrip(s)|..])
    decreases |s|
  {
    if s != [] && IsSpace(s[|s| - 1]) {
      RStripShape(s[..|s| - 1]);
    }
  }

  /** `s.strip()`. */
  function Strip(s: string): string {
    RStrip(LStrip(s))
  }

  /** `rstrip()` keeps every character up to a non-whitespace one. */
  lemma {:induction false} RStripKeeps(s: string, n: nat)
    requires n < |s| && !IsSpace(s[n])
    ensures n < |RStrip(s)|
    decreases |s|
  {
    if s != [] && IsSpace(s[|s| - 1]) {
      assert s[..|s| - 1][n] == s[n];
      RStripKeeps(s[..|s| - 1], n);
    }
  }

  /** The number of leading whitespace characters: the length of the group `(\s*)`
      at the start of a line whose next character is not whitespace. */
  function LeadingSpaces(s: string): (n: nat)
    ensures n <= |s|
    ensures n == |s| || !IsSpace(s[n])
  {
    if s != [] && IsSpace(s[0]) then 1 + LeadingSpaces(s[1..]) else 0
  }

  lemma {:induction false} LeadingSpacesShape(s: string)
    ensures AllSpace(s[..LeadingSpaces(s)])
    decreases |s|
  {
    if s != [] && IsSpace(s[0]) {
      LeadingSpacesShape(s[1..]);
      assert s[..LeadingSpaces(s)] == [s[0]] + s[1..][..LeadingSpaces(s[1..])];
    }
  }

  /** `s.find(c)`: the first index of `c`, or -1. */
  function IndexOf(s: string, c: char): (i: int)
    ensures -1 <= i < |s|
  {
    if s == [] then -1
    else if s[0] == c then 0
    else
      var j := IndexOf(s[1..], c);
      if j < 0 then -1 else 1 + j
  }

  /** The index found holds `c` and none before it; -1 means no `c` at all. */
  lemma {:induction false} IndexOfShape(s: string, c: char)
    ensures IndexOf(s, c) >= 0 ==> s[IndexOf(s, c)] == c && c !in s[..IndexOf(s, c)]
    ensures IndexOf(s, c) < 0 ==> c !in s
  {
    if s != [] && s[0] != c {
      var j := IndexOf(s[1..], c);
      IndexOfShape(s[1..], c);
      assert s[1..][..(if j < 0 then 0 else j)] == s[1..1 + (if j < 0 then 0 else j)];
    }
  }

  /** `s.split(sep)`, and equally `re.split(sep, s)` for a literal pattern:
      cut at the leftmost occurrences of `sep`, scanning without overlap. */
  function Split(s: string, sep: string): (r: seq<string>)
    requires sep != []
    ensures |r| >= 1
    decreases |s|
  {
    if StartsWith(s, sep) then [""] + Split(s[|sep|..], sep)
    else if s == [] then [""]
    else
      var rest := Split(s[1..], sep);
      [[s[0]] + rest[0]] + rest[1..]
  }

  /** `sep.join(parts)`. */
  function Join(parts: seq<string>, sep: string): string {
    if parts == [] then ""
    else if |parts| == 1 then parts[0]
    else parts[0] + sep + Join(parts[1..], sep)
  }

  /** `s.splitlines()`: no trailing empty line, `\r\n` is one boundary. */
  function SplitLines(s: string): seq<string>
    decreases |s|
  {
    if s == [] then []
    else if IsLineBreak(s[0]) then
      var n := if s[0] == '\r' && |s| > 1 && s[1] == '\n' then 2 else 1;
      [""] + SplitLines(s[n..])
    else
      var rest := SplitLines(s[1..]);
      if rest == [] then [s[..1]] else [[s[0]] + rest[0]] + rest[1..]
  }

  // ---------------------------------------------------------------------
  // Split and Join
  // ---------------------------------------------------------------------

  /** `sep.join(s.split(sep)) == s` for every string. */
  lemma {:induction false} JoinSplit(s: string, sep: string)
    requires sep != []
    ensures Join(Split(s, sep), sep) == s
    decreases |s|
  {
    if StartsWith(s, sep) {
      JoinSplit(s[|sep|..], sep);
      JoinSplitAtSep(s, sep);
    } else if s != [] {
      JoinSplit(s[1..], sep);
      JoinSplitAtChar(s, sep);
    }
  }

  /** The step of `JoinSplit` where `s` starts with the separator. */
  lemma JoinSplitAtSep(s: string, sep: string)
    requires sep != [] && StartsWith(s, sep)
    requires Join(Split(s[|sep|..], sep), sep) == s[|sep|..]
    ensures Join(Split(s, sep), sep) == s
  {
    var rest := Split(s[|sep|..], sep);
    assert Split(s, sep) == [""] + rest;
    JoinCons("", rest, sep);
    assert s == s[..|sep|] + s[|sep|..];
  }

  /** The step of `JoinSplit` where `s` starts with a character that does not
      begin a separator. */
  lemma JoinSplitAtChar(s: string, sep: string)
    requires sep != [] && !StartsWith(s, sep) && s != []
    requires Join(Split(s[1..], sep), sep) == s[1..]
    ensures Join(Split(s, sep), sep) == s
  {
    var rest := Split(s[1..], sep);
    assert Split(s, sep) == [[s[0]] + rest[0]] + rest[1..];
    JoinHead(s[0], rest, sep);
    assert s == [s[0]] + s[1..];
  }

  lemma JoinCons(x: string, rest: seq<string>, sep: string)
    requires |rest| >= 1
    ensures Join([x] + rest, sep) == x + sep + Join(rest, sep)
  {
    assert ([x] + rest)[1..] == rest;
  }

  /** Prepending a character to the first part prepends it to the joined string. */
  lemma JoinHead(c: char, parts: seq<string>, sep: string)
    requires |parts| >= 1
    ensures Join([[c] + parts[0]] + parts[1..], sep) == [c] + Join(parts, sep)
  {
    if |parts| > 1 {
      JoinCons([c] + parts[0], parts[1..], sep);
      JoinCons(parts[0], parts[1..], sep);
      assert [parts[0]] + parts[1..] == parts;
    }
  }

  /** If `sep` does not occur at any position of `x`, splitting `x` cuts nothing. */
  lemma {:induction false} SplitNoMatch(x: string, sep: string)
    requires sep != []
    requires forall p :: 0 <= p < |x| ==> !MatchAt(x, p, sep)
    ensures Split(x, sep) == [x]
    decreases |x|
  {
    if x != [] {
      assert !MatchAt(x, 0, sep);
      assert x[0..] == x;
      forall p | 0 <= p < |x[1..]| ensures !MatchAt(x[1..], p, sep) {
        assert x[1..][p..] == x[p + 1..];
        assert !MatchAt(x, p + 1, sep);
      }
      SplitNoMatch(x[1..], sep);
      assert [x[0]] + x[1..] == x;
    } else {
      assert !StartsWith(x, sep);
    }
  }

  /** The first cut is at the leftmost occurrence of `sep`. */
  lemma {:induction false} SplitAtFirst(x: string, y: string, sep: string)
    requires sep != []
    requires forall p :: 0 <= p < |x| ==> !MatchAt(x + sep + y, p, sep)
    ensures Split(x + sep + y, sep) == [x] + Split(y, sep)
    decreases |x|
  {
    var s := x + sep + y;
    if x == [] {
      assert s == sep + y;
      assert StartsWith(s, sep);
      assert s[|sep|..] == y;
    } else {
      assert !MatchAt(s, 0, sep);
      assert s[0..] == s;
      assert s[1..] == x[1..] + sep + y;
      forall p | 0 <= p < |x[1..]| ensures !MatchAt(x[1..] + sep + y, p, sep) {
        assert (x[1..] + sep + y)[p..] == s[p + 1..];
        assert !MatchAt(s, p + 1, sep);
      }
      SplitAtFirst(x[1..], y, sep);
      assert [s[0]] + x[1..] == x;
    }
  }

  /** Splitting a joined list of separator-free parts gives the parts back
      (`str.split` inverts `str.join` for a one-character separator). */
  lemma {:induction false} SplitJoinChar(parts: seq<string>, c: char)
    requires |parts| >= 1
    requires forall i :: 0 <= i < |parts| ==> c !in parts[i]
    ensures Split(Join(parts, [c]), [c]) == parts
    decreases |parts|
  {
    if |parts| == 1 {
      forall p | 0 <= p < |parts[0]| ensures !MatchAt(parts[0], p, [c]) {
        assert parts[0][p..][..1] == [parts[0][p]];
      }
      SplitNoMatch(parts[0], [c]);
    } else {
      var x, y := parts[0], Join(parts[1..], [c]);
      forall p | 0 <= p < |x| ensures !MatchAt(x + [c] + y, p, [c]) {
        assert (x + [c] + y)[p..][..1] == [x[p]];
      }
      SplitAtFirst(x, y, [c]);
      SplitJoinChar(parts[1..], c);
      assert [x] + parts[1..] == parts;
    }
  }

  lemma {:induction false} JoinAppend(a: seq<string>, b: seq<string>, sep: string)
    requires |a| >= 1 && |b| >= 1
    ensures Join(a + b, sep) == Join(a, sep) + sep + Join(b, sep)
    decreases |a|
  {
    if |a| == 1 {
      assert (a + b)[1..] == b;
    } else {
      JoinAppend(a[1..], b, sep);
      assert (a + b)[1..] == a[1..] + b;
    }
  }

  /** A line list padded with empty lines joins to the joined list padded
      with newlines. */
  lemma JoinPadded(pre: nat, core: seq<string>, post: nat)
    requires |core| >= 1
    ensures Join(Blanks(pre) + core + Blanks(post), "\n")
         == Newlines(pre) + Join(core, "\n") + Newlines(post)
  {
    var b1, b2 := Blanks(pre), Blanks(post);
    var n1, j, n2 := Newlines(pre), Join(core, "\n"), Newlines(post);
    JoinTrailBlanks(core, post);
    JoinLeadBlanks(pre, core + b2);
    Assoc(b1, core, b2);
    Assoc(n1, j, n2);
  }

  lemma {:induction false} JoinLeadBlanks(pre: nat, rest: seq<string>)
    requires |rest| >= 1
    ensures Join(Blanks(pre) + rest, "\n") == Newlines(pre) + Join(rest, "\n")
    decreases pre
  {
    if pre > 0 {
      var tail := Blanks(pre - 1) + rest;
      JoinLeadBlanks(pre - 1, rest);
      assert Blanks(pre) + rest == [""] + tail;
      JoinCons("", tail, "\n");
    } else {
      assert Blanks(pre) + rest == rest;
    }
  }

  lemma {:induction false} JoinTrailBlanks(core: seq<string>, post: nat)
    requires |core| >= 1
    ensures Join(core + Blanks(post), "\n") == Join(core, "\n") + Newlines(post)
    decreases post
  {
    if post > 0 {
      var init := core + Blanks(post - 1);
      JoinTrailBlanks(core, post - 1);
      assert core + Blanks(post) == init + [""];
      JoinAppend(init, [""], "\n");
      NewlinesSucc(post - 1);
    } else {
      assert core + Blanks(post) == core;
    }
  }

  function Blanks(n: nat): (r: seq<string>)
    ensures |r| == n && forall i :: 0 <= i < n ==> r[i] == ""
  {
    if n == 0 then [] else [""] + Blanks(n - 1)
  }

  function Newlines(n: nat): (r: string)
    ensures |r| == n && forall i :: 0 <= i < n ==> r[i] == '\n'
  {
    if n == 0 then "" else "\n" + Newlines(n - 1)
  }

  lemma {:induction false} NewlinesSucc(n: nat)
    ensures Newlines(n) + "\n" == Newlines(n + 1)
  {
    if n > 0 {
      NewlinesSucc(n - 1);
    }
  }

  // ---------------------------------------------------------------------
  // Strip
  // ---------------------------------------------------------------------

  lemma StripTrimmed(s: string)
    requires Trimmed(s)
    ensures Strip(s) == s
  {
  }

  /** Whitespace around a string is what `strip()` removes. */
  lemma {:induction false} StripPadded(w1: string, s: string, w2: string)
    requires AllSpace(w1) && AllSpace(w2)
    requires s != [] && Trimmed(s)
    ensures Strip(w1 + s + w2) == s
  {
    LStripSpaces(w1, s + w2);
    assert w1 + s + w2 == w1 + (s + w2);
    assert LStrip(s + w2) == s + w2;
    RStripSpaces(s, w2);
  }

  /** Around a string that starts with a non-whitespace character, `strip()`
      is `rstrip()` of that string. */
  lemma {:induction false} StripLeadSolid(w1: string, s: string, w2: string)
    requires AllSpace(w1) && AllSpace(w2)
    requires s != [] && !IsSpace(s[0])
    ensures Strip(w1 + s + w2) == RStrip(s)
  {
    LStripSpaces(w1, s + w2);
    assert w1 + s + w2 == w1 + (s + w2);
    assert LStrip(s + w2) == s + w2;
    RStripSpaces(s, w2);
  }

  lemma {:induction false} LStripSpaces(w: string, s: string)
    requires AllSpace(w)
    ensures LStrip(w + s) == LStrip(s)
    decreases |w|
  {
    if w != [] {
      assert (w + s)[1..] == w[1..] + s;
      LStripSpaces(w[1..], s);
    } else {
      assert w + s == s;
    }
  }

  lemma {:induction false} RStripSpaces(s: string, w: string)
    requires AllSpace(w)
    ensures RStrip(s + w) == RStrip(s)
    decreases |w|
  {
    if w != [] {
      assert (s + w)[..|s + w| - 1] == s + w[..|w| - 1];
      RStripSpaces(s, w[..|w| - 1]);
    } else {
      assert s + w == s;
    }
  }

  // ---------------------------------------------------------------------
  // splitlines
  // ---------------------------------------------------------------------

  predicate NoLineBreak(s: string) {
    forall i :: 0 <= i < |s| ==> !IsLineBreak(s[i])
  }

  /** No line of `splitlines()` holds a line boundary. */
  lemma {:induction false} SplitLinesNoBreak(s: string)
    ensures forall i :: 0 <= i < |SplitLines(s)| ==> NoLineBreak(SplitLines(s)[i])
    decreases |s|
  {
    if s != [] {
      if IsLineBreak(s[0]) {
        var n := if s[0] == '\r' && |s| > 1 && s[1] == '\n' then 2 else 1;
        SplitLinesNoBreak(s[n..]);
      } else {
        var rest := SplitLines(s[1..]);
        SplitLinesNoBreak(s[1..]);
        if rest != [] {
          assert NoLineBreak(rest[0]);
        }
      }
    }
  }

  lemma {:induction false} SplitLinesBeforeNewline(x: string, y: string)
    requires x != [] && NoLineBreak(x)
    ensures SplitLines(x + "\n" + y) == [x] + SplitLines(y)
    decreases |x|
  {
    var s := x + "\n" + y;
    assert s[0] == x[0] && !IsLineBreak(s[0]);
    if |x| == 1 {
      var t := "\n" + y;
      assert s[1..] == t;
      assert t[0] == '\n' && IsLineBreak(t[0]);
      assert t[1..] == y;
      assert SplitLines(t) == [""] + SplitLines(y);
      var rest := SplitLines(s[1..]);
      assert rest == [""] + SplitLines(y);
      assert SplitLines(s) == [[s[0]] + rest[0]] + rest[1..];
      assert [s[0]] + rest[0] == x;
      assert rest[1..] == SplitLines(y);
    } else {
      assert s[1..] == x[1..] + "\n" + y;
      SplitLinesBeforeNewline(x[1..], y);
      assert [s[0]] + x[1..] == x;
    }
  }

  lemma {:induction false} SplitLinesSingle(x: string)
    requires x != [] && NoLineBreak(x)
    ensures SplitLines(x) == [x]
    decreases |x|
  {
    assert !IsLineBreak(x[0]);
    if |x| > 1 {
      SplitLinesSingle(x[1..]);
      assert [x[0]] + x[1..] == x;
    } else {
      assert x[1..] == [];
      assert x[..1] == x;
    }
  }

  /** `"\n".join(lines).splitlines() == lines` when every line is non-empty and
      holds no line boundary. */
  lemma {:induction false} SplitLinesJoin(lines: seq<string>)
    requires forall i :: 0 <= i < |lines| ==> lines[i] != [] && NoLineBreak(lines[i])
    ensures SplitLines(Join(lines, "\n")) == lines
    decreases |lines|
  {
    if |lines| == 1 {
      SplitLinesSingle(lines[0]);
    } else if |lines| > 1 {
      SplitLinesBeforeNewline(lines[0], Join(lines[1..], "\n"));
      SplitLinesJoin(lines[1..]);
      assert [lines[0]] + lines[1..] == lines;
    }
  }
}
