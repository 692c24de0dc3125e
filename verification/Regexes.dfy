/**
 The part of Python's regular expressions that the pattern compiler writes: characters, `.`, `[^c]`, groups,
 `*` and `?`; read from text, and matched against a whole string.
 */
module Regexes {
  import opened Wrappers

  datatype Regex = Empty | Char(c: char) | Dot | Not(c: char) | Star(r: Regex) | Maybe(r: Regex) | Then(first: Regex,
      rest: Regex)

  /** The whole of `x` matches. `.` is any character but a newline. */
  ghost predicate Matches(r: Regex, x: string)
    decreases r, |x|
  {
    match r
    case Empty => x == ""
    case Char(c) => x == [c]
    case Dot => |x| == 1 && x[0] != '\n'
    case Not(c) => |x| == 1 && x[0] != c
    case Star(s) => x == "" || exists i :: 0 < i <= |x| && Matches(s, x[..i]) && Matches(r, x[i..])
    case Maybe(s) => x == "" || Matches(s, x)
    case Then(s, t) => exists i :: 0 <= i <= |x| && Matches(s, x[..i]) && Matches(t, x[i..])
  }

  // --- Reading ---

  datatype Read = Read(regex: Regex, rest: string)

  /** Characters with a meaning of their own outside `[...]`. */
  const SYNTAX := ".^$*+?{}[]\\|()"

  predicate IsWordChar(c: char) {
    'a' <= c <= 'z' || 'A' <= c <= 'Z' || '0' <= c <= '9' || c == '_'
  }

  predicate IsQuantifier(s: string) {
    s != "" && s[0] in "*+?{"
  }

  /** One atom: a group, `[^c]`, an escaped character, `.` or a plain character. */
  function ReadAtom(s: string): (r: Option<Read>)
    requires s != ""
    ensures r.Some? ==> |r.value.rest| < |s|
    decreases |s|, 0
  {
    if |s| >= 3 && s[..3] == "(?:" then
      match ReadAll(s[3..])
      case Some(Read(inner, t)) => if t != "" && t[0] == ')' then Some(Read(inner, t[1..])) else None
      case None => None
    else if |s| >= 4 && s[..2] == "[^" && s[3] == ']' && s[2] !in "\\]" then Some(Read(Not(s[2]), s[4..]))
    else if |s| >= 2 && s[0] == '\\' && !IsWordChar(s[1]) then Some(Read(Char(s[1]), s[2..]))
    else if s[0] == '.' then Some(Read(Dot, s[1..]))
    else if s[0] in SYNTAX then None
    else Some(Read(Char(s[0]), s[1..]))
  }

  /** A `*` or `?` after the atom; what else Python allows there is not read. */
  function ReadQuantifier(a: Regex, s: string): (r: Option<Read>)
    ensures r.Some? ==> |r.value.rest| <= |s|
  {
    if !IsQuantifier(s) then Some(Read(a, s))
    else if s[0] in "+{" || IsQuantifier(s[1..]) then None
    else Some(Read(if s[0] == '*' then Star(a) else Maybe(a), s[1..]))
  }

  /** Atoms up to the end or a closing parenthesis. */
  function ReadAll(s: string): (r: Option<Read>)
    ensures r.Some? ==> |r.value.rest| <= |s|
    decreases |s|, 1
  {
    if s == "" || s[0] == ')' then Some(Read(Empty, s)) else
      match ReadAtom(s)
      case None => None
      case Some(Read(atom, t)) =>
        match ReadQuantifier(atom, t)
        case None => None
        case Some(Read(item, u)) =>
          match ReadAll(u)
          case None => None
          case Some(Read(others, v)) => Some(Read(Then(item, others), v))
  }

  /** What the text means as an expression, if it is one. */
  function Meaning(text: string): Option<Regex> {
    match ReadAll(text)
    case Some(Read(r, rest)) => if rest == "" then Some(r) else None
    case None => None
  }

  /** `re.compile(text).fullmatch(x)`. */
  ghost predicate FullMatch(text: string, x: string) {
    Meaning(text).Some? && Matches(Meaning(text).value, x)
  }

  // --- What common expressions match ---

  ghost predicate Without(x: string, c: char) {
    c !in x
  }

  lemma {:induction false} StarOfDots(x: string)
    ensures Matches(Star(Dot), x) <==> Without(x, '\n')
    decreases |x|
  {
    if x != "" {
      StarOfDots(x[1..]);
      assert x == [x[0]] + x[1..];
      if Matches(Star(Dot), x) {
        var i :| 0 < i <= |x| && Matches(Dot, x[..i]) && Matches(Star(Dot), x[i..]);
        assert i == 1;
      } else {
        assert Matches(Dot, x[..1]) ==> !Matches(Star(Dot), x[1..]);
      }
    }
  }

  lemma {:induction false} StarOfNots(c: char, x: string)
    ensures Matches(Star(Not(c)), x) <==> Without(x, c)
    decreases |x|
  {
    if x != "" {
      StarOfNots(c, x[1..]);
      assert x == [x[0]] + x[1..];
      if Matches(Star(Not(c)), x) {
        var i :| 0 < i <= |x| && Matches(Not(c), x[..i]) && Matches(Star(Not(c)), x[i..]);
        assert i == 1;
      } else {
        assert Matches(Not(c), x[..1]) ==> !Matches(Star(Not(c)), x[1..]);
      }
    }
  }
}
