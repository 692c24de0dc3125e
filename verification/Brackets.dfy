/**
 Bracketed groups in a list of Zig tokens: where the group that starts at an opening bracket ends.
 */
module Brackets {
  import opened Wrappers

  type Tokens = seq<string>

  predicate IsOpener(t: string) {
    t == "{" || t == "(" || t == "["
  }

  predicate IsCloser(t: string) {
    t == "}" || t == ")" || t == "]"
  }

  function CloserOf(t: string): (c: string)
    requires IsOpener(t)
    ensures IsCloser(c)
  {
    if t == "{" then "}" else if t == "(" then ")" else "]"
  }

  /** Braces, parentheses and brackets, each closed by its own kind. */
  lemma PairsOfBrackets(o: string, c: string)
    ensures IsOpener(o) && c == CloserOf(o) <==> (o, c) in {("{", "}"), ("(", ")"), ("[", "]")}
    ensures IsCloser(c) <==> exists x :: IsOpener(x) && c == CloserOf(x)
  {
    assert IsOpener("{") && IsOpener("(") && IsOpener("[");
    assert CloserOf("{") == "}" && CloserOf("(") == ")" && CloserOf("[") == "]";
  }

  // --- What well-bracketed is ---

  /** Other tokens and whole groups, in any order. */
  ghost predicate WellBracketed(s: Tokens)
    decreases |s|
  {
    || s == []
    || (!IsOpener(s[0]) && !IsCloser(s[0]) && WellBracketed(s[1..]))
    || (IsOpener(s[0]) && exists k :: 0 < k < |s| && GroupEnds(s, k) && WellBracketed(s[k + 1..]))
  }

  /** The group that starts `s` ends at its token k. */
  ghost predicate GroupEnds(s: Tokens, k: nat)
    requires 0 < k < |s|
    decreases |s|, 0
  {
    IsOpener(s[0]) && s[k] == CloserOf(s[0]) && WellBracketed(s[1..k])
  }

  // --- The scan ---

  datatype Fault = Unbalanced | Unterminated

  type Stack = seq<string>

  /** The expected closers after one more token; none if it closes nothing open. */
  function Next(stack: Stack, t: string): Option<Stack> {
    if IsOpener(t) then Some(stack + [CloserOf(t)])
    else if IsCloser(t) then
      if stack != [] && stack[|stack| - 1] == t then Some(stack[..|stack| - 1]) else None
    else Some(stack)
  }

  /** The expected closers after all of `s`. */
  function After(stack: Stack, s: Tokens): Option<Stack> {
    if s == [] then Some(stack) else
      match After(stack, s[..|s| - 1])
      case None => None
      case Some(q) => Next(q, s[|s| - 1])
  }

  /** Where the first group from `i` on is complete. */
  function EndFrom(ts: Tokens, i: nat, stack: Stack): (r: Result<nat, Fault>)
    requires i <= |ts|
    ensures r.Ok? ==> i <= r.value < |ts|
    decreases |ts| - i
  {
    if i == |ts| then Err(Unterminated)
    else match Next(stack, ts[i])
      case None => Err(Unbalanced)
      case Some(q) => if IsCloser(ts[i]) && q == [] then Ok(i) else EndFrom(ts, i + 1, q)
  }

  method Balanced(ts: Tokens, start: nat) returns (r: Result<nat, Fault>)
    requires start <= |ts|
    ensures r == EndFrom(ts, start, [])
  {
    var stack: Stack := [];
    for i := start to |ts|
      invariant EndFrom(ts, start, []) == EndFrom(ts, i, stack)
    {
      var t := ts[i];
      if IsOpener(t) {
        stack := stack + [CloserOf(t)];
      } else if IsCloser(t) {
        if stack == [] || stack[|stack| - 1] != t {
          return Err(Unbalanced);
        }
        stack := stack[..|stack| - 1];
        if stack == [] {
          return Ok(i);
        }
      }
    }
    r := Err(Unterminated);
  }

  // --- Scanning well-bracketed text ---

  lemma {:induction false} AfterBoth(stack: Stack, s: Tokens, t: Tokens)
    ensures After(stack, s + t) == match After(stack, s) case None => None case Some(q) => After(q, t)
    decreases |t|
  {
    if t == [] {
      assert s + t == s;
    } else {
      var n := |t| - 1;
      assert (s + t)[..|s + t| - 1] == s + t[..n];
      AfterBoth(stack, s, t[..n]);
    }
  }

  /** What is open below does not matter to what is opened and closed above it. */
  lemma {:induction false} AfterAbove(base: Stack, stack: Stack, s: Tokens)
    requires After(stack, s).Some?
    ensures After(base + stack, s) == Some(base + After(stack, s).value)
    decreases |s|
  {
    if s != [] {
      var n := |s| - 1;
      AfterAbove(base, stack, s[..n]);
      var q, t := After(stack, s[..n]).value, s[n];
      if IsOpener(t) {
        assert base + (q + [CloserOf(t)]) == (base + q) + [CloserOf(t)];
      } else if IsCloser(t) {
        assert (base + q)[..|base + q| - 1] == base + q[..|q| - 1];
      }
    }
  }

  lemma AfterOne(stack: Stack, t: string)
    ensures After(stack, [t]) == Next(stack, t)
  {
    assert [t][..0] == [];
  }

  lemma ClosesInTurn(s: Tokens, k: nat)
    requires k <= |s| && After([], s[..k]) == Some([]) && After([], s[k..]) == Some([])
    ensures After([], s) == Some([])
  {
    AfterBoth([], s[..k], s[k..]);
    assert s == s[..k] + s[k..];
  }

  /** Well-bracketed text leaves nothing open. */
  lemma {:induction false} WellBracketedCloses(s: Tokens)
    requires WellBracketed(s)
    ensures After([], s) == Some([])
    decreases |s|
  {
    if s == [] {
    } else if IsOpener(s[0]) {
      var k :| 0 < k < |s| && GroupEnds(s, k) && WellBracketed(s[k + 1..]);
      GroupCloses(s, k);
      WellBracketedCloses(s[k + 1..]);
      ClosesInTurn(s, k + 1);
    } else {
      WellBracketedCloses(s[1..]);
      AfterOne([], s[0]);
      assert s[..1] == [s[0]];
      ClosesInTurn(s, 1);
    }
  }

  lemma GroupCloses(s: Tokens, k: nat)
    requires 0 < k < |s| && GroupEnds(s, k)
    ensures After([], s[..k + 1]) == Some([])
    decreases |s|, 0
  {
    var c := CloserOf(s[0]);
    WellBracketedCloses(s[1..k]);
    AfterAbove([c], [], s[1..k]);
    AfterOne([], s[0]);
    AfterBoth([], [s[0]], s[1..k]);
    assert s[..k] == [s[0]] + s[1..k];
    assert [c] + [] == [c] && s[..k + 1][..k] == s[..k] && s[..k + 1][k] == c;
    assert [] + [c] == [c] && [c][..0] == [];
  }

  // --- The scan finds exactly the group ---

  lemma AfterGrows(stack: Stack, s: Tokens, i: nat)
    requires i < |s|
    ensures After(stack, s[..i + 1]) == match After(stack, s[..i]) case None => None case Some(q) => Next(q, s[i])
  {
    assert s[..i + 1][..i] == s[..i];
  }

  /** With the group's own closer still expected, the scan goes on inside it and stops at its end. */
  lemma {:induction false} ScanReachesEnd(ts: Tokens, start: nat, k: nat, i: nat)
    requires start + k < |ts| && 0 < k && GroupEnds(ts[start..], k) && start < i <= start + k
    requires After([], ts[start + 1..start + k][..i - start - 1]).Some?
    ensures var q := After([], ts[start + 1..start + k][..i - start - 1]).value;
            EndFrom(ts, i, [CloserOf(ts[start])] + q) == Ok(start + k)
    decreases start + k - i
  {
    var c, inner, x := CloserOf(ts[start]), ts[start + 1..start + k], i - start - 1;
    var q := After([], inner[..x]).value;
    assert ts[start..][1..k] == inner;
    WellBracketedCloses(inner);
    if i == start + k {
      assert inner[..x] == inner && [c] + [] == [c] && [c][..0] == [];
    } else {
      PrefixGoesOn(inner, x + 1);
      AfterGrows([], inner, x);
      AfterAbove([c], q, [ts[i]]);
      AfterOne(q, ts[i]);
      AfterOne([c] + q, ts[i]);
      ScanReachesEnd(ts, start, k, i + 1);
    }
  }

  lemma {:induction false} PrefixGoesOn(s: Tokens, i: nat)
    requires i <= |s| && After([], s).Some?
    ensures After([], s[..i]).Some?
    decreases |s|
  {
    if i < |s| {
      PrefixGoesOn(s[..|s| - 1], i);
      assert s[..|s| - 1][..i] == s[..i];
    } else {
      assert s[..i] == s;
    }
  }

  /** Where the scan stops with only this closer expected before, what is between leaves nothing open. */
  lemma {:induction false} ScanStopsAtClose(ts: Tokens, start: nat, c: string, i: nat, q: Stack)
    requires start <= i <= |ts| && After([], ts[start..i]) == Some(q) && IsCloser(c)
    requires EndFrom(ts, i, [c] + q).Ok?
    ensures var j := EndFrom(ts, i, [c] + q).value; After([], ts[start..j]) == Some([]) && ts[j] == c
    decreases |ts| - i
  {
    var t := ts[i];
    assert i < |ts| ==> ts[start..i + 1] == ts[start..][..i + 1 - start] && ts[start..i] == ts[start..][..i - start];
    AfterGrows([], ts[start..], i - start);
    if q == [] && IsCloser(t) {
      assert [c] + [] == [c];
    } else {
      var r := Next(q, t);
      if IsOpener(t) {
        assert ([c] + q) + [CloserOf(t)] == [c] + (q + [CloserOf(t)]);
      } else if IsCloser(t) {
        assert ([c] + q)[..|q|] == [c] + q[..|q| - 1];
      }
      ScanStopsAtClose(ts, start, c, i + 1, r.value);
    }
  }

  /** Text that leaves nothing open lets the scan end. */
  lemma {:induction false} ScanEnds(ts: Tokens, i: nat, stack: Stack)
    requires i <= |ts| && stack != [] && After(stack, ts[i..]) == Some([])
    ensures EndFrom(ts, i, stack).Ok?
    decreases |ts| - i
  {
    if i < |ts| {
      assert ts[i..] == [ts[i]] + ts[i + 1..];
      AfterBoth(stack, [ts[i]], ts[i + 1..]);
      AfterOne(stack, ts[i]);
      var q := Next(stack, ts[i]).value;
      if !(IsCloser(ts[i]) && q == []) {
        ScanEnds(ts, i + 1, q);
      }
    }
  }

  lemma {:induction false} ClosedIsWellBracketed(s: Tokens)
    requires After([], s) == Some([])
    ensures WellBracketed(s)
    decreases |s|, 1
  {
    if s != [] {
      AfterBoth([], [s[0]], s[1..]);
      AfterOne([], s[0]);
      assert s == [s[0]] + s[1..];
      if IsOpener(s[0]) {
        var c := CloserOf(s[0]);
        assert [] + [c] == [c];
        ScanEnds(s, 1, [c]);
        var k := EndFrom(s, 1, [c]).value;
        ScanEndsGroup(s, k);
        GroupCloses(s, k);
        AfterBoth([], s[..k + 1], s[k + 1..]);
        assert s == s[..k + 1] + s[k + 1..];
        ClosedIsWellBracketed(s[k + 1..]);
      } else {
        ClosedIsWellBracketed(s[1..]);
      }
    }
  }

  lemma ScanEndsGroup(s: Tokens, k: nat)
    requires s != [] && IsOpener(s[0]) && EndFrom(s, 1, [CloserOf(s[0])]) == Ok(k)
    ensures 0 < k < |s| && GroupEnds(s, k)
    decreases |s|, 0
  {
    var c := CloserOf(s[0]);
    assert [c] + [] == [c] && s[1..1] == [];
    ScanStopsAtClose(s, 1, c, 1, []);
    ClosedIsWellBracketed(s[1..k]);
  }

  /** At an opening bracket the scan returns the end of the group there, and fails if there is none. */
  lemma BalancedFindsGroup(ts: Tokens, start: nat, j: nat)
    requires start < |ts| && IsOpener(ts[start])
    ensures EndFrom(ts, start, []) == Ok(j) <==> start < j < |ts| && GroupEnds(ts[start..], j - start)
  {
    var c := CloserOf(ts[start]);
    assert [] + [c] == [c];
    if start < j < |ts| && GroupEnds(ts[start..], j - start) {
      assert ts[start + 1..j][..0] == [] && [c] + [] == [c];
      ScanReachesEnd(ts, start, j - start, start + 1);
    }
    if EndFrom(ts, start, []) == Ok(j) {
      assert ts[start + 1..start + 1] == [] && [c] + [] == [c];
      ScanStopsAtClose(ts, start + 1, c, start + 1, []);
      ClosedIsWellBracketed(ts[start + 1..j]);
      assert ts[start..][1..j - start] == ts[start + 1..j];
    }
  }

  /** So a group has one end. */
  lemma GroupHasOneEnd(s: Tokens, j: nat, k: nat)
    requires 0 < j < |s| && 0 < k < |s| && GroupEnds(s, j) && GroupEnds(s, k)
    ensures j == k
  {
    assert s[0..] == s;
    BalancedFindsGroup(s, 0, j);
    BalancedFindsGroup(s, 0, k);
  }
}
