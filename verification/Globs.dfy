/**
 The path patterns of the CI inputs: the compiler that turns one into a regular expression, and what it
 means in terms of paths. `?` is one character, `*` a stretch, of one path component; `**` a stretch
 of anything, with a slash after it any depth of directories; a final slash and `**` everything below.
 */
module Globs {
  import opened Wrappers
  import opened Regexes

  /** What `re.escape` puts a backslash before. */
  const ESCAPED := "()[]{}?*+-|^$\\.&~# \t\n\r\U{0b}\U{0c}"

  function Escape(c: char): string {
    if c in ESCAPED then ['\\', c] else [c]
  }

  predicate StartsWith(p: string, prefix: string) {
    |prefix| <= |p| && p[..|prefix|] == prefix
  }

  // --- What a pattern means ---

  /** What a double star may stand for; the compiled one stops at line ends. */
  ghost predicate Stretch(x: string, oneLine: bool) {
    oneLine ==> Without(x, '\n')
  }

  /** The whole path `x` fits the pattern. */
  ghost predicate Fits(p: string, x: string, oneLine: bool)
    decreases |p|
  {
    if p == "" then x == ""
    else if StartsWith(p, "**/") then
      || Fits(p[3..], x, oneLine)
      || exists k :: 0 <= k < |x| && x[k] == '/' && Stretch(x[..k], oneLine) && Fits(p[3..], x[k + 1..], oneLine)
    else if p == "/**" then x == "" || (x[0] == '/' && Stretch(x[1..], oneLine))
    else if StartsWith(p, "**") then
      exists k :: 0 <= k <= |x| && Stretch(x[..k], oneLine) && Fits(p[2..], x[k..], oneLine)
    else if p[0] == '*' then
      exists k :: 0 <= k <= |x| && Without(x[..k], '/') && Fits(p[1..], x[k..], oneLine)
    else if p[0] == '?' then x != "" && x[0] != '/' && Fits(p[1..], x[1..], oneLine)
    else x != "" && x[0] == p[0] && Fits(p[1..], x[1..], oneLine)
  }

  // --- The compiler ---

  /** The expression of a pattern, as text. */
  function Compiled(p: string): string
    decreases |p|
  {
    if p == "" then ""
    else if StartsWith(p, "**/") then "(?:.*/)?" + Compiled(p[3..])
    else if p == "/**" then "(?:/.*)?"
    else if StartsWith(p, "**") then ".*" + Compiled(p[2..])
    else if p[0] == '*' then "[^/]*" + Compiled(p[1..])
    else if p[0] == '?' then "[^/]" + Compiled(p[1..])
    else Escape(p[0]) + Compiled(p[1..])
  }

  method GlobRegex(pattern: string) returns (out: string)
    ensures out == Compiled(pattern)
  {
    out := "";
    var i := 0;
    while i < |pattern|
      invariant i <= |pattern| && out + Compiled(pattern[i..]) == Compiled(pattern)
      decreases |pattern| - i
    {
      ghost var was, at := out, i;
      if StartsWith(pattern[i..], "**/") {
        out, i := out + "(?:.*/)?", i + 3;
      } else if StartsWith(pattern[i..], "/**") && i + 3 == |pattern| {
        out, i := out + "(?:/.*)?", i + 3;
      } else if StartsWith(pattern[i..], "**") {
        out, i := out + ".*", i + 2;
      } else if pattern[i] == '*' {
        out, i := out + "[^/]*", i + 1;
      } else if pattern[i] == '?' {
        out, i := out + "[^/]", i + 1;
      } else {
        out, i := out + Escape(pattern[i]), i + 1;
      }
      CompiledInPieces(pattern, at, i, was, out);
    }
  }

  lemma CompiledInPieces(pattern: string, at: nat, i: nat, was: string, out: string)
    requires at < |pattern| && at < i <= |pattern| && |was| <= |out| && out[..|was|] == was
    requires var rest := pattern[at..]; var piece := out[|was|..];
             if StartsWith(rest, "**/") then piece == "(?:.*/)?" && i == at + 3
             else if StartsWith(rest, "/**") && at + 3 == |pattern| then piece == "(?:/.*)?" && i == at + 3
             else if StartsWith(rest, "**") then piece == ".*" && i == at + 2
             else i == at + 1 && piece == if rest[0] == '*' then "[^/]*" else if rest[0] == '?' then "[^/]"
                 else Escape(rest[0])
    ensures was + Compiled(pattern[at..]) == out + Compiled(pattern[i..])
  {
    var rest, piece := pattern[at..], out[|was|..];
    assert rest[i - at..] == pattern[i..];
    assert Compiled(rest) == piece + Compiled(rest[i - at..]);
    assert out == was + piece;
  }

  // --- Reading the text back ---

  const ANY_DEPTH := Maybe(Then(Star(Dot), Then(Char('/'), Empty)))
  const ALL_BELOW := Maybe(Then(Char('/'), Then(Star(Dot), Empty)))

  function ExpressionOf(p: string): Regex
    decreases |p|
  {
    if p == "" then Empty
    else if StartsWith(p, "**/") then Then(ANY_DEPTH, ExpressionOf(p[3..]))
    else if p == "/**" then Then(ALL_BELOW, Empty)
    else if StartsWith(p, "**") then Then(Star(Dot), ExpressionOf(p[2..]))
    else if p[0] == '*' then Then(Star(Not('/')), ExpressionOf(p[1..]))
    else if p[0] == '?' then Then(Not('/'), ExpressionOf(p[1..]))
    else Then(Char(p[0]), ExpressionOf(p[1..]))
  }

  /** No piece starts with a quantifier or a closing parenthesis, so each is read as it was written. */
  lemma PiecesStandAlone(p: string)
    ensures !IsQuantifier(Compiled(p)) && (Compiled(p) != "" ==> Compiled(p)[0] != ')')
  {
  }

  lemma ReadsDots(t: string)
    requires !IsQuantifier(t)
    ensures ReadAtom(".*" + t) == Some(Read(Dot, "*" + t)) && ReadQuantifier(Dot, "*" + t) == Some(Read(Star(Dot), t))
  {
    assert (".*" + t)[1..] == "*" + t && ("*" + t)[1..] == t;
  }

  lemma ReadsNotSlashes(t: string)
    requires !IsQuantifier(t)
    ensures ReadAtom("[^/]*" + t) == Some(Read(Not('/'), "*" + t))
    ensures ReadQuantifier(Not('/'), "*" + t) == Some(Read(Star(Not('/')), t))
    ensures ReadAtom("[^/]" + t) == Some(Read(Not('/'), t)) && ReadQuantifier(Not('/'), t) == Some(Read(Not('/'), t))
  {
    assert ("[^/]*" + t)[4..] == "*" + t && ("*" + t)[1..] == t && ("[^/]" + t)[4..] == t;
    assert ("[^/]*" + t)[..2] == "[^" && ("[^/]" + t)[..2] == "[^";
  }

  lemma ReadsBackslash(c: char, t: string)
    requires !IsWordChar(c)
    ensures ReadAtom(['\\', c] + t) == Some(Read(Char(c), t))
  {
    var s := ['\\', c] + t;
    assert s[2..] == t && s[0] == '\\' && s[1] == c;
  }

  lemma ReadsPlain(c: char, t: string)
    requires c !in SYNTAX
    ensures ReadAtom([c] + t) == Some(Read(Char(c), t))
  {
    var s := [c] + t;
    assert s[1..] == t && s[0] == c && '(' in SYNTAX && '[' in SYNTAX;
    assert |s| >= 3 ==> s[..3][0] == c;
    assert |s| >= 4 ==> s[..2][0] == c;
  }

  lemma ReadsEscaped(c: char, t: string)
    requires !IsQuantifier(t)
    ensures ReadAtom(Escape(c) + t) == Some(Read(Char(c), t)) && ReadQuantifier(Char(c), t) == Some(Read(Char(c), t))
  {
    if c in ESCAPED {
      ReadsBackslash(c, t);
    } else {
      ReadsPlain(c, t);
    }
  }

  /** One item and what follows it. */
  lemma ReadsOn(s: string, a: Regex, t: string, item: Regex, u: string, others: Regex, v: string)
    requires s != "" && s[0] != ')' && ReadAtom(s) == Some(Read(a, t)) && ReadQuantifier(a, t) == Some(Read(item, u))
    requires ReadAll(u) == Some(Read(others, v))
    ensures ReadAll(s) == Some(Read(Then(item, others), v))
  {
  }

  lemma ReadsGroupAtom(inner: string, r: Regex, t: string)
    requires ReadAll(inner + ")?" + t) == Some(Read(r, ")?" + t))
    ensures ReadAtom("(?:" + inner + ")?" + t) == Some(Read(r, "?" + t))
  {
    hide ReadAll, ReadQuantifier;
    var s := "(?:" + inner + ")?" + t;
    assert s[3..] == inner + ")?" + t && s[..3] == "(?:";
    assert (")?" + t)[1..] == "?" + t;
  }

  lemma ReadsMaybe(r: Regex, t: string)
    requires !IsQuantifier(t)
    ensures ReadQuantifier(r, "?" + t) == Some(Read(Maybe(r), t))
  {
    hide ReadAll, ReadAtom;
    assert ("?" + t)[1..] == t;
  }

  lemma ReadsNoQuantifier(r: Regex, t: string)
    requires !IsQuantifier(t)
    ensures ReadQuantifier(r, t) == Some(Read(r, t))
  {
  }

  lemma ReadsEnd(end: string)
    requires end != "" && end[0] == ')'
    ensures ReadAll(end) == Some(Read(Empty, end)) && !IsQuantifier(end)
  {
    hide ReadAtom, ReadQuantifier;
  }

  lemma ReadsSlash(t: string)
    requires !IsQuantifier(t)
    ensures ReadAtom("/" + t) == Some(Read(Char('/'), t)) && ReadQuantifier(Char('/'), t) == Some(Read(Char('/'), t))
  {
    ReadsPlain('/', t);
    ReadsNoQuantifier(Char('/'), t);
    hide ReadAtom, ReadQuantifier, ReadAll;
    assert "/" + t == ['/'] + t;
  }

  lemma ReadsDotsThenSlash(end: string)
    requires end != "" && end[0] == ')'
    ensures ReadAll(".*/" + end) == Some(Read(ANY_DEPTH.r, end))
  {
    hide ReadAtom, ReadQuantifier, ReadAll;
    ReadsEnd(end);
    ReadsSlash(end);
    ReadsOn("/" + end, Char('/'), end, Char('/'), end, Empty, end);
    var t := "/" + end;
    ReadsDots(t);
    ReadsOn(".*" + t, Dot, "*" + t, Star(Dot), t, Then(Char('/'), Empty), end);
    assert ".*/" + end == ".*" + t;
  }

  lemma ReadsOnlyDots(end: string)
    requires end != "" && end[0] == ')'
    ensures ReadAll(".*" + end) == Some(Read(Then(Star(Dot), Empty), end))
  {
    hide ReadAtom, ReadQuantifier, ReadAll;
    ReadsEnd(end);
    ReadsDots(end);
    ReadsOn(".*" + end, Dot, "*" + end, Star(Dot), end, Empty, end);
  }

  lemma ReadsSlashThenDots(end: string)
    requires end != "" && end[0] == ')'
    ensures ReadAll("/.*" + end) == Some(Read(ALL_BELOW.r, end))
  {
    hide ReadAtom, ReadQuantifier, ReadAll;
    ReadsOnlyDots(end);
    var t := ".*" + end;
    ReadsSlash(t);
    ReadsOn("/" + t, Char('/'), t, Char('/'), t, Then(Star(Dot), Empty), end);
    assert "/.*" + end == "/" + t;
  }

  lemma ReadsAnyDepth(t: string)
    requires !IsQuantifier(t)
    ensures ReadAtom("(?:.*/)?" + t) == Some(Read(ANY_DEPTH.r, "?" + t))
    ensures ReadQuantifier(ANY_DEPTH.r, "?" + t) == Some(Read(ANY_DEPTH, t))
  {
    hide ReadAtom, ReadQuantifier, ReadAll;
    ReadsDotsThenSlash(")?" + t);
    assert ".*/" + (")?" + t) == ".*/" + ")?" + t;
    ReadsGroupAtom(".*/", ANY_DEPTH.r, t);
    ReadsMaybe(ANY_DEPTH.r, t);
    assert "(?:.*/)?" == "(?:" + ".*/" + ")?";
  }

  lemma ReadsAllBelow(t: string)
    requires !IsQuantifier(t)
    ensures ReadAtom("(?:/.*)?" + t) == Some(Read(ALL_BELOW.r, "?" + t))
    ensures ReadQuantifier(ALL_BELOW.r, "?" + t) == Some(Read(ALL_BELOW, t))
  {
    hide ReadAtom, ReadQuantifier, ReadAll;
    ReadsSlashThenDots(")?" + t);
    assert "/.*" + (")?" + t) == "/.*" + ")?" + t;
    ReadsGroupAtom("/.*", ALL_BELOW.r, t);
    ReadsMaybe(ALL_BELOW.r, t);
    assert "(?:/.*)?" == "(?:" + "/.*" + ")?";
  }

  /** The text is read back as the expression it was written for. */
  lemma {:induction false} ReadsBack(p: string)
    ensures ReadAll(Compiled(p)) == Some(Read(ExpressionOf(p), ""))
    decreases |p|
  {
    hide ReadAtom, ReadQuantifier;
    if p == "" {
    } else if StartsWith(p, "**/") {
      PiecesStandAlone(p[3..]);
      ReadsAnyDepth(Compiled(p[3..]));
      ReadsBack(p[3..]);
    } else if p == "/**" {
      ReadsAllBelow("");
      assert "(?:/.*)?" + "" == Compiled(p);
      assert ReadAll("") == Some(Read(Empty, ""));
    } else if StartsWith(p, "**") {
      PiecesStandAlone(p[2..]);
      ReadsDots(Compiled(p[2..]));
      ReadsBack(p[2..]);
    } else {
      var t := Compiled(p[1..]);
      PiecesStandAlone(p[1..]);
      ReadsBack(p[1..]);
      if p[0] == '*' || p[0] == '?' {
        ReadsNotSlashes(t);
      } else {
        ReadsEscaped(p[0], t);
      }
    }
  }

  // --- The compiled expression means what the pattern means ---

  lemma Joins(s: Regex, t: Regex, x: string, i: nat)
    requires i <= |x| && Matches(s, x[..i]) && Matches(t, x[i..])
    ensures Matches(Then(s, t), x)
  {
  }

  lemma Splits(s: Regex, t: Regex, x: string) returns (i: nat)
    requires Matches(Then(s, t), x)
    ensures i <= |x| && Matches(s, x[..i]) && Matches(t, x[i..])
  {
    i :| 0 <= i <= |x| && Matches(s, x[..i]) && Matches(t, x[i..]);
  }

  lemma OneItem(r: Regex, y: string)
    ensures Matches(Then(r, Empty), y) <==> Matches(r, y)
  {
    if Matches(Then(r, Empty), y) {
      var i := Splits(r, Empty, y);
      assert y[..i] == y;
    }
    if Matches(r, y) {
      assert y[..|y|] == y;
      Joins(r, Empty, y, |y|);
    }
  }

  /** A directory stretch: empty, or ended by a slash. */
  predicate IsDepth(x: string) {
    x == "" || (x[|x| - 1] == '/' && '\n' !in x[..|x| - 1])
  }

  lemma MatchesAnyDepth(x: string)
    ensures Matches(ANY_DEPTH, x) <==> IsDepth(x)
  {
    var slash := Then(Char('/'), Empty);
    if Matches(ANY_DEPTH.r, x) {
      var i := Splits(Star(Dot), slash, x);
      StarOfDots(x[..i]);
      OneItem(Char('/'), x[i..]);
      assert x[i..][0] == x[i] && i == |x| - 1;
    }
    if x != "" && IsDepth(x) {
      var i := |x| - 1;
      StarOfDots(x[..i]);
      assert x[i..] == "/";
      OneItem(Char('/'), x[i..]);
      Joins(Star(Dot), slash, x, i);
    }
  }

  lemma MatchesAllBelow(x: string)
    ensures Matches(ALL_BELOW, x) <==> x == "" || (x[0] == '/' && Without(x[1..], '\n'))
  {
    var dots := Then(Star(Dot), Empty);
    if Matches(ALL_BELOW.r, x) {
      var i := Splits(Char('/'), dots, x);
      OneItem(Star(Dot), x[i..]);
      StarOfDots(x[i..]);
      assert i == 1 && x[..1][0] == x[0];
    }
    if x != "" && x[0] == '/' && Without(x[1..], '\n') {
      StarOfDots(x[1..]);
      OneItem(Star(Dot), x[1..]);
      assert x[..1] == "/";
      Joins(Char('/'), dots, x, 1);
    }
  }

  lemma DepthThen(r: Regex, x: string, k: nat)
    requires k < |x| && x[k] == '/' && Without(x[..k], '\n') && Matches(r, x[k + 1..])
    ensures Matches(Then(ANY_DEPTH, r), x)
  {
    var y := x[..k + 1];
    assert y[..k] == x[..k] && |y| - 1 == k && y[k] == '/';
    MatchesAnyDepth(y);
    Joins(ANY_DEPTH, r, x, k + 1);
  }

  /** A directory stretch and the rest: no stretch, or one that ends at some slash. */
  lemma DepthFirst(r: Regex, x: string)
    ensures Matches(Then(ANY_DEPTH, r), x) <==>
              (|| Matches(r, x)
               || exists k :: 0 <= k < |x| && x[k] == '/' && Without(x[..k], '\n') && Matches(r, x[k + 1..]))
  {
    if Matches(Then(ANY_DEPTH, r), x) {
      var i := Splits(ANY_DEPTH, r, x);
      MatchesAnyDepth(x[..i]);
      if i == 0 {
        assert x[i..] == x;
      } else {
        var k := i - 1;
        assert x[..i][..k] == x[..k] && x[..i][k] == x[k] == '/' && Matches(r, x[k + 1..]);
      }
    }
    if Matches(r, x) {
      MatchesAnyDepth(x[..0]);
      assert x[0..] == x;
      Joins(ANY_DEPTH, r, x, 0);
    }
    if k :| 0 <= k < |x| && x[k] == '/' && Without(x[..k], '\n') && Matches(r, x[k + 1..]) {
      DepthThen(r, x, k);
    }
  }

  lemma OneCharFirst(r: Regex, s: Regex, x: string)
    requires s.Char? || s.Not?
    ensures Matches(Then(s, r), x) <==> x != "" && (if s.Char? then x[0] == s.c else x[0] != s.c) && Matches(r, x[1..])
  {
    if Matches(Then(s, r), x) {
      var i :| 0 <= i <= |x| && Matches(s, x[..i]) && Matches(r, x[i..]);
      assert i == 1 && x[..1][0] == x[0];
    }
    if x != "" {
      assert x[..1] == [x[0]];
    }
  }

  /** For every pattern and every path. */
  lemma {:induction false} ExpressionFits(p: string, x: string)
    ensures Matches(ExpressionOf(p), x) <==> Fits(p, x, true)
    decreases |p|
  {
    if p == "" {
    } else if StartsWith(p, "**/") {
      DepthFirst(ExpressionOf(p[3..]), x);
      forall k | 0 <= k <= |x|
        ensures Matches(ExpressionOf(p[3..]), x[k..]) <==> Fits(p[3..], x[k..], true)
      {
        ExpressionFits(p[3..], x[k..]);
      }
      assert x[0..] == x;
    } else if p == "/**" {
      OneItem(ALL_BELOW, x);
      MatchesAllBelow(x);
    } else if StartsWith(p, "**") {
      forall k | 0 <= k <= |x|
        ensures Matches(ExpressionOf(p[2..]), x[k..]) <==> Fits(p[2..], x[k..], true)
        ensures Matches(Star(Dot), x[..k]) <==> Stretch(x[..k], true)
      {
        ExpressionFits(p[2..], x[k..]);
        StarOfDots(x[..k]);
      }
    } else if p[0] == '*' {
      forall k | 0 <= k <= |x|
        ensures Matches(ExpressionOf(p[1..]), x[k..]) <==> Fits(p[1..], x[k..], true)
        ensures Matches(Star(Not('/')), x[..k]) <==> Without(x[..k], '/')
      {
        ExpressionFits(p[1..], x[k..]);
        StarOfNots('/', x[..k]);
      }
    } else {
      OneCharFirst(ExpressionOf(p[1..]), if p[0] == '?' then Not('/') else Char(p[0]), x);
      if x != "" {
        ExpressionFits(p[1..], x[1..]);
      }
    }
  }

  /** Compiling preserves meaning, the double star taken within one line. */
  lemma CompiledFits(p: string, x: string)
    ensures FullMatch(Compiled(p), x) <==> Fits(p, x, true)
  {
    ReadsBack(p);
    ExpressionFits(p, x);
  }

  lemma {:induction false} OneLineFits(p: string, x: string)
    requires Without(x, '\n')
    ensures Fits(p, x, true) <==> Fits(p, x, false)
    decreases |p|
  {
    forall k, n | 0 <= k <= |x| && 0 < n <= |p|
      ensures Fits(p[n..], x[k..], true) <==> Fits(p[n..], x[k..], false)
    {
      OneLineFits(p[n..], x[k..]);
    }
    assert x[0..] == x;
  }

  /** For every pattern and every path without a newline, the compiled expression matches exactly what fits. */
  lemma CompiledMeansPattern(p: string, x: string)
    requires Without(x, '\n')
    ensures FullMatch(Compiled(p), x) <==> Fits(p, x, false)
  {
    CompiledFits(p, x);
    OneLineFits(p, x);
  }

  // --- Where the two meanings part ---

  predicate HasDoubleStar(p: string) {
    p != "" && (StartsWith(p, "**") || HasDoubleStar(p[1..]))
  }

  /** The two pieces with a slash have a double star too. */
  lemma DoubleStarPieces(p: string)
    ensures StartsWith(p, "**/") ==> StartsWith(p, "**") && HasDoubleStar(p)
    ensures p == "/**" ==> HasDoubleStar(p)
  {
    if StartsWith(p, "**/") {
      assert p[..2] == p[..3][..2];
    } else if p == "/**" {
      assert StartsWith(p[1..], "**");
    }
  }

  lemma {:induction false} SingleStarsFit(p: string, x: string)
    requires !HasDoubleStar(p)
    ensures Fits(p, x, true) <==> Fits(p, x, false)
    decreases |p|
  {
    if p != "" {
      DoubleStarPieces(p);
      forall k | 0 <= k <= |x|
        ensures Fits(p[1..], x[k..], true) <==> Fits(p[1..], x[k..], false)
      {
        SingleStarsFit(p[1..], x[k..]);
      }
    }
  }

  /** How often a line starts right after a slash. */
  function Breaks(x: string): nat {
    if |x| < 2 then 0 else (if x[0] == '/' && x[1] == '\n' then 1 else 0) + Breaks(x[1..])
  }

  lemma {:induction false} BreaksSplit(x: string, k: nat)
    requires k <= |x|
    ensures Breaks(x[..k]) + Breaks(x[k..]) <= Breaks(x) <= Breaks(x[..k]) + 1 + Breaks(x[k..])
    decreases k
  {
    if k == 0 {
      assert x[..0] == "" && x[0..] == x;
    } else if |x| >= 2 {
      BreaksSplit(x[1..], k - 1);
      assert x[1..][..k - 1] == x[..k][1..] && x[1..][k - 1..] == x[k..];
    }
  }

  lemma {:induction false} NoBreak(x: string)
    requires Without(x, '/') || Without(x, '\n')
    ensures Breaks(x) == 0
  {
    if |x| >= 2 {
      NoBreak(x[1..]);
    }
  }

  lemma PieceThen(x: string, k: nat, n: nat)
    requires k <= |x| && (Without(x[..k], '/') || Without(x[..k], '\n')) && Breaks(x[k..]) <= n
    ensures Breaks(x) <= n + 1
  {
    NoBreak(x[..k]);
    BreaksSplit(x, k);
  }

  lemma BelowHasNoBreak(p: string, x: string)
    requires p == "/**" && Fits(p, x, true)
    ensures Breaks(x) <= |p|
  {
    assert !StartsWith(p, "**/") by {
      assert p[..3][0] == '/';
    }
    if x != "" {
      assert x == ['/'] + x[1..];
      NoBreak(x);
    }
  }

  /** What a single piece of the compiled pattern matches has no break inside. */
  lemma {:induction false} FewBreaks(p: string, x: string)
    requires Fits(p, x, true)
    ensures Breaks(x) <= |p|
    decreases |p|
  {
    hide Breaks;
    if p == "" {
      NoBreak(x);
    } else if StartsWith(p, "**/") {
      if Fits(p[3..], x, true) {
        FewBreaks(p[3..], x);
      } else {
        var k :| 0 <= k < |x| && x[k] == '/' && Stretch(x[..k], true) && Fits(p[3..], x[k + 1..], true);
        FewBreaks(p[3..], x[k + 1..]);
        assert x[..k + 1] == x[..k] + ['/'];
        PieceThen(x, k + 1, |p| - 3);
      }
    } else if p == "/**" {
      BelowHasNoBreak(p, x);
    } else if StartsWith(p, "**") {
      var k :| 0 <= k <= |x| && Stretch(x[..k], true) && Fits(p[2..], x[k..], true);
      FewBreaks(p[2..], x[k..]);
      PieceThen(x, k, |p| - 2);
    } else if p[0] == '*' {
      var k :| 0 <= k <= |x| && Without(x[..k], '/') && Fits(p[1..], x[k..], true);
      FewBreaks(p[1..], x[k..]);
      PieceThen(x, k, |p| - 1);
    } else {
      FewBreaks(p[1..], x[1..]);
      assert x[..1] == [x[0]];
      PieceThen(x, 1, |p| - 1);
    }
  }

  function Broken(n: nat): (x: string)
    ensures Breaks(x) == n
  {
    if n == 0 then "" else
      assert (['/', '\n'] + Broken(n - 1))[1..] == ['\n'] + Broken(n - 1);
      assert (['\n'] + Broken(n - 1))[1..] == Broken(n - 1);
      ['/', '\n'] + Broken(n - 1)
  }

  /** A path that fits the pattern, with at least n breaks in what its first double star stands for. */
  function LongPath(p: string, n: nat): string
    decreases |p|
  {
    if p == "" then ""
    else if StartsWith(p, "**/") then Broken(n) + "/" + LongPath(p[3..], 0)
    else if p == "/**" then "/" + Broken(n)
    else if StartsWith(p, "**") then Broken(n) + LongPath(p[2..], 0)
    else if p[0] == '*' then LongPath(p[1..], n)
    else if p[0] == '?' then "a" + LongPath(p[1..], n)
    else [p[0]] + LongPath(p[1..], n)
  }

  lemma DepthFits(p: string, b: string, y: string)
    requires StartsWith(p, "**/") && Fits(p[3..], y, false)
    ensures Fits(p, b + "/" + y, false)
  {
    var x := b + "/" + y;
    assert x[|b|] == '/' && x[|b| + 1..] == y;
  }

  lemma StretchFits(p: string, b: string, y: string)
    requires StartsWith(p, "**") && !StartsWith(p, "**/") && Fits(p[2..], y, false)
    ensures Fits(p, b + y, false)
  {
    var x := b + y;
    assert x[..|b|] == b && x[|b|..] == y;
    assert p[0] == p[..2][0];
  }

  /** A pattern's first character, or a star that stands for nothing. */
  lemma FirstFits(p: string, y: string)
    requires p != "" && !StartsWith(p, "**") && p != "/**" && Fits(p[1..], y, false)
    ensures Fits(p, (if p[0] == '*' then "" else if p[0] == '?' then "a" else [p[0]]) + y, false)
  {
    DoubleStarPieces(p);
    if p[0] == '*' {
      assert "" + y == y && y[0..] == y && y[..0] == "";
    } else {
      var c := if p[0] == '?' then 'a' else p[0];
      assert ([c] + y)[1..] == y;
    }
  }

  lemma {:induction false} LongPathFits(p: string, n: nat)
    ensures Fits(p, LongPath(p, n), false)
    decreases |p|
  {
    if p == "" {
    } else if p == "/**" {
      assert p[..2][0] == p[..3][0] == '/';
    } else {
      hide Fits;
      if StartsWith(p, "**/") {
        LongPathFits(p[3..], 0);
        DepthFits(p, Broken(n), LongPath(p[3..], 0));
      } else if StartsWith(p, "**") {
        LongPathFits(p[2..], 0);
        StretchFits(p, Broken(n), LongPath(p[2..], 0));
      } else {
        LongPathFits(p[1..], n);
        FirstFits(p, LongPath(p[1..], n));
        assert "" + LongPath(p[1..], n) == LongPath(p[1..], n);
      }
    }
  }

  lemma BreaksPrefix(a: string, b: string)
    ensures Breaks(a + b) >= Breaks(a) && Breaks(a + b) >= Breaks(b)
  {
    BreaksSplit(a + b, |a|);
    assert (a + b)[..|a|] == a && (a + b)[|a|..] == b;
  }

  lemma {:induction false} LongPathBreaks(p: string, n: nat)
    requires HasDoubleStar(p)
    ensures Breaks(LongPath(p, n)) >= n
    decreases |p|
  {
    if StartsWith(p, "**/") {
      BreaksPrefix(Broken(n), "/");
      BreaksPrefix(Broken(n) + "/", LongPath(p[3..], 0));
    } else if p == "/**" {
      BreaksPrefix("/", Broken(n));
    } else if StartsWith(p, "**") {
      BreaksPrefix(Broken(n), LongPath(p[2..], 0));
    } else {
      LongPathBreaks(p[1..], n);
      BreaksPrefix(if p[0] == '?' then "a" else [p[0]], LongPath(p[1..], n));
    }
  }

  ghost predicate MeansPatternOn(p: string, x: string) {
    FullMatch(Compiled(p), x) <==> Fits(p, x, false)
  }

  /** The compiled expression means the pattern on every path exactly if the pattern has no double star. */
  lemma MeansPatternEverywhere(p: string)
    ensures (forall x :: MeansPatternOn(p, x)) <==> !HasDoubleStar(p)
  {
    if HasDoubleStar(p) {
      var x := LongPath(p, |p| + 1);
      LongPathFits(p, |p| + 1);
      LongPathBreaks(p, |p| + 1);
      CompiledFits(p, x);
      if Fits(p, x, true) {
        FewBreaks(p, x);
      }
      assert !MeansPatternOn(p, x);
    } else {
      forall x
        ensures MeansPatternOn(p, x)
      {
        CompiledFits(p, x);
        SingleStarsFit(p, x);
      }
    }
  }

  lemma TwoStarsFit(x: string)
    ensures Fits("**", x, false) && (Fits("**", x, true) ==> Without(x, '\n'))
  {
    assert "**"[2..] == "" && x[|x|..] == "";
    if Fits("**", x, true) {
      var k :| 0 <= k <= |x| && Stretch(x[..k], true) && Fits("", x[k..], true);
      assert x[..k] == x;
    }
  }

  /** And on a path it means every pattern exactly if the path has no newline. */
  lemma NewlinesStopDoubleStars(x: string)
    ensures (forall p :: MeansPatternOn(p, x)) <==> Without(x, '\n')
  {
    if Without(x, '\n') {
      forall p
        ensures MeansPatternOn(p, x)
      {
        CompiledMeansPattern(p, x);
      }
    } else {
      CompiledFits("**", x);
      TwoStarsFit(x);
      assert !MeansPatternOn("**", x);
    }
  }

  // --- Common patterns ---

  predicate IsLiteral(p: string) {
    '*' !in p && '?' !in p
  }

  /** Plain text in front of a pattern stands for itself (a slash right before a final double star belongs to that). */
  lemma {:induction false} LiteralFirst(d: string, p: string, x: string, oneLine: bool)
    requires IsLiteral(d) && !(d != "" && d[|d| - 1] == '/' && p == "**")
    ensures Fits(d + p, x, oneLine) <==> StartsWith(x, d) && Fits(p, x[|d|..], oneLine)
    decreases |d|
  {
    if d == "" {
      assert d + p == p && x[0..] == x;
    } else {
      var q := d + p;
      assert q[0] == d[0] && d[0] in d && q[1..] == d[1..] + p;
      assert (|d| > 1 ==> d[1] in d && q[1] == d[1]) && (|d| == 1 ==> q[1..] == p);
      if x != "" && x[0] == d[0] {
        LiteralFirst(d[1..], p, x[1..], oneLine);
        assert x == [x[0]] + x[1..] && d == [d[0]] + d[1..];
        assert StartsWith(x, d) <==> StartsWith(x[1..], d[1..]);
        assert |d| <= |x| ==> x[1..][|d[1..]|..] == x[|d|..];
      }
    }
  }

  /** A pattern without wildcards fits only itself. */
  lemma LiteralFitsItself(p: string, x: string, oneLine: bool)
    requires IsLiteral(p)
    ensures Fits(p, x, oneLine) <==> x == p
  {
    LiteralFirst(p, "", x, oneLine);
    assert p + "" == p;
    assert StartsWith(x, p) && x[|p|..] == "" ==> x == x[..|p|] + x[|p|..];
  }

  lemma BelowFits(y: string)
    ensures Fits("/**", y, false) <==> y == "" || y[0] == '/'
  {
    assert "/**"[..3][0] == '/' && "**/"[0] == '*';
  }

  /** `dir/` and two stars: the directory itself and everything below it. */
  lemma DirectoryFits(d: string, x: string)
    requires IsLiteral(d)
    ensures Fits(d + "/**", x, false) <==> x == d || StartsWith(x, d + "/")
  {
    hide Fits;
    LiteralFirst(d, "/**", x, false);
    SlashAfter(d, x);
    if StartsWith(x, d) {
      BelowFits(x[|d|..]);
      if |x| == |d| {
        assert x == x[..|d|] && x[|d|..] == "";
      } else {
        assert x[|d|..][0] == x[|d|];
      }
    } else {
      assert d[..|d|] == d;
    }
  }

  lemma SlashAfter(d: string, x: string)
    ensures StartsWith(x, d + "/") <==> StartsWith(x, d) && |x| > |d| && x[|d|] == '/'
  {
    if |x| > |d| {
      assert x[..|d| + 1] == x[..|d|] + [x[|d|]];
      assert x[..|d| + 1][..|d|] == x[..|d|] && (d + "/")[..|d|] == d;
    }
  }

  /** `dir/` and one star: the names directly below it. */
  lemma ChildrenFit(d: string, x: string)
    requires IsLiteral(d)
    ensures Fits(d + "/*", x, false) <==> StartsWith(x, d + "/") && '/' !in x[|d| + 1..]
  {
    hide Fits;
    var e := d + "/";
    assert d + "/*" == e + "*";
    LiteralFirst(e, "*", x, false);
    if StartsWith(x, e) {
      OneStarFits(x[|e|..]);
    }
  }

  lemma OneStarFits(y: string)
    ensures Fits("*", y, false) <==> '/' !in y
  {
    assert y[..|y|] == y && y[|y|..] == "" && "*"[1..] == "";
  }

  /** A question mark is one character of a component. */
  lemma OneCharacterFits(y: string)
    ensures Fits("?", y, false) <==> |y| == 1 && y != "/"
  {
    assert "?"[1..] == "";
    assert y != "" ==> (y[1..] == "" <==> |y| == 1);
  }

  /** It ends in a slash and the name. */
  predicate EndsInName(x: string, n: string) {
    |x| > |n| && x[|x| - |n| - 1] == '/' && x[|x| - |n|..] == n
  }

  /** Two stars and a slash in front of a name: the name in any directory, or in none. */
  lemma AnyDepthFits(n: string, x: string)
    requires IsLiteral(n)
    ensures Fits("**/" + n, x, false) <==> x == n || EndsInName(x, n)
  {
    var p := "**/" + n;
    assert p[3..] == n && p[..3] == "**/";
    LiteralFitsItself(n, x, false);
    if Fits(p, x, false) && !Fits(n, x, false) {
      var k :| 0 <= k < |x| && x[k] == '/' && Stretch(x[..k], false) && Fits(n, x[k + 1..], false);
      LiteralFitsItself(n, x[k + 1..], false);
    }
    if EndsInName(x, n) {
      var k := |x| - |n| - 1;
      LiteralFitsItself(n, x[k + 1..], false);
      assert x[k] == '/' && Stretch(x[..k], false) && Fits(n, x[k + 1..], false);
    }
  }
}
