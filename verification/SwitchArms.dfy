/**
 The arms of a Zig switch: labels and the tokens of each body, read from the switch's token list.
 `id` reads an identifier token; it fails on anything else.
 */
module SwitchArms {
  import opened Wrappers
  import opened Brackets

  datatype Reading = MissingSwitch | NoBody | BadLabel | Duplicate | CutShort | Bracket(fault: Fault)

  type Naming = string -> Option<string>

  type Arms = map<string, Tokens>

  // --- What is read ---

  /** Tokens read, and those that follow. */
  datatype Part = Part(taken: Tokens, rest: Tokens)

  function Prefixed(p: Tokens, r: Result<Part, Reading>): Result<Part, Reading> {
    match r
    case Err(e) => Err(e)
    case Ok(Part(more, rest)) => Ok(Part(p + more, rest))
  }

  lemma PrefixedTwice(p: Tokens, q: Tokens, r: Result<Part, Reading>)
    ensures Prefixed([], r) == r && Prefixed(p, Prefixed(q, r)) == Prefixed(p + q, r)
  {
    if r.Ok? {
      assert [] + r.value.taken == r.value.taken && p + (q + r.value.taken) == (p + q) + r.value.taken;
    }
  }

  /** Labels up to the arrow, and what follows it; `else` is read as a star. */
  function LabelsOf(s: Tokens, id: Naming): (r: Result<Part, Reading>)
    ensures r.Ok? ==> |r.value.rest| < |s|
  {
    if s == [] then Err(CutShort)
    else if s[0] == "=>" then Ok(Part([], s[1..]))
    else if s[0] == "." then
      if |s| < 2 then Err(CutShort)
      else if id(s[1]).None? then Err(BadLabel)
      else Prefixed([id(s[1]).value], LabelsOf(s[2..], id))
    else if s[0] == "else" then Prefixed(["*"], LabelsOf(s[1..], id))
    else if s[0] == "," then LabelsOf(s[1..], id)
    else Err(BadLabel)
  }

  /** An arm's body: the tokens up to the next comma outside its groups, or to the end. */
  function BodyOf(s: Tokens): (r: Result<Part, Reading>)
    ensures r.Ok? ==> |r.value.rest| <= |s|
    decreases |s|
  {
    if s == [] || s[0] == "," then Ok(Part([], s))
    else if IsOpener(s[0]) then
      match EndFrom(s, 0, [])
      case Err(e) => Err(Bracket(e))
      case Ok(k) => Prefixed(s[..k + 1], BodyOf(s[k + 1..]))
    else Prefixed([s[0]], BodyOf(s[1..]))
  }

  /** The arms with this body for these labels too, each of which must be new. */
  function AddLabels(arms: Arms, labels: seq<string>, body: Tokens): Result<Arms, Reading>
    decreases |labels|
  {
    if labels == [] then Ok(arms)
    else if labels[0] in arms then Err(Duplicate)
    else AddLabels(arms[labels[0] := body], labels[1..], body)
  }

  function ArmsOf(s: Tokens, arms: Arms, id: Naming): Result<Arms, Reading>
    decreases |s|
  {
    if s == [] then Ok(arms)
    else match LabelsOf(s, id)
      case Err(e) => Err(e)
      case Ok(Part(labels, t)) =>
        match BodyOf(t)
        case Err(e) => Err(e)
        case Ok(Part(body, rest)) =>
          match AddLabels(arms, labels, body)
          case Err(e) => Err(e)
          case Ok(more) => if rest == [] then Ok(more) else ArmsOf(rest[1..], more, id)
  }

  // --- The reader ---

  /** Scanning a suffix is scanning from its place. */
  lemma {:induction false} EndFromSuffix(ts: Tokens, start: nat, i: nat, stack: Stack)
    requires start <= i <= |ts|
    ensures EndFrom(ts, i, stack) == match EndFrom(ts[start..], i - start,
        stack) case Err(e) => Err(e) case Ok(k) => Ok(start + k)
    decreases |ts| - i
  {
    if i < |ts| {
      var q := Next(stack, ts[i]);
      if q.Some? {
        EndFromSuffix(ts, start, i + 1, q.value);
      }
    }
  }

  method ReadLabels(body: Tokens, start: nat, id: Naming) returns (r: Result<(seq<string>, nat), Reading>)
    requires start <= |body|
    ensures match LabelsOf(body[start..], id)
            case Err(e) => r == Err(e)
            case Ok(Part(labels, rest)) =>
              r.Ok? && r.value.0 == labels && start < r.value.1 <= |body| && body[r.value.1..] == rest
  {
    var i := start;
    var labels: seq<string> := [];
    PrefixedTwice([], [], LabelsOf(body[start..], id));
    while i < |body| && body[i] != "=>"
      invariant start <= i <= |body|
      invariant LabelsOf(body[start..], id) == Prefixed(labels, LabelsOf(body[i..], id))
      decreases |body| - i
    {
      ghost var s := body[i..];
      if body[i] == "." {
        if i + 1 == |body| {
          return Err(CutShort);
        }
        var name := id(body[i + 1]);
        if name.None? {
          return Err(BadLabel);
        }
        assert s[2..] == body[i + 2..];
        PrefixedTwice(labels, [name.value], LabelsOf(s[2..], id));
        labels, i := labels + [name.value], i + 2;
      } else if body[i] == "else" {
        assert s[1..] == body[i + 1..];
        PrefixedTwice(labels, ["*"], LabelsOf(s[1..], id));
        labels, i := labels + ["*"], i + 1;
      } else if body[i] == "," {
        assert s[1..] == body[i + 1..];
        i := i + 1;
      } else {
        return Err(BadLabel);
      }
    }
    if i == |body| {
      return Err(CutShort);
    }
    assert body[i..][1..] == body[i + 1..];
    r := Ok((labels, i + 1));
  }

  lemma BodyGoesOn(body: Tokens, begin: nat, at: nat, i: nat)
    requires begin <= at <= i < |body| && body[at] != ","
    requires if IsOpener(body[at]) then EndFrom(body, at, []) == Ok(i) else i == at
    ensures Prefixed(body[begin..at], BodyOf(body[at..])) == Prefixed(body[begin..i + 1], BodyOf(body[i + 1..]))
  {
    hide EndFrom;
    if IsOpener(body[at]) {
      EndFromHere(body, at, i);
    }
    BodyUnfolds(body[at..], i - at);
    SuffixParts(body, at, i);
    PrefixedTwice(body[begin..at], body[at..i + 1], BodyOf(body[i + 1..]));
    assert body[begin..at] + body[at..i + 1] == body[begin..i + 1];
  }

  lemma EndFromHere(body: Tokens, at: nat, i: nat)
    requires at <= i < |body| && EndFrom(body, at, []) == Ok(i)
    ensures EndFrom(body[at..], 0, []) == Ok(i - at)
  {
    EndFromSuffix(body, at, at, []);
  }

  lemma SuffixParts(body: Tokens, at: nat, i: nat)
    requires at <= i < |body|
    ensures body[at..][i - at + 1..] == body[i + 1..] && body[at..][..i - at + 1] == body[at..i + 1]
  {
  }

  /** The next token outside groups, or the whole group it opens, belongs to the body. */
  lemma BodyUnfolds(s: Tokens, k: nat)
    requires k < |s| && s[0] != "," && if IsOpener(s[0]) then EndFrom(s, 0, []) == Ok(k) else k == 0
    ensures BodyOf(s) == Prefixed(s[..k + 1], BodyOf(s[k + 1..]))
  {
    if !IsOpener(s[0]) {
      assert [s[0]] == s[..1];
    }
  }

  method ReadBody(body: Tokens, begin: nat) returns (r: Result<nat, Reading>)
    requires begin <= |body|
    ensures match BodyOf(body[begin..])
            case Err(e) => r == Err(e)
            case Ok(Part(taken, rest)) =>
              r.Ok? && begin <= r.value <= |body| && body[begin..r.value] == taken && body[r.value..] == rest
  {
    var i := begin;
    assert body[begin..begin] == [];
    PrefixedTwice([], [], BodyOf(body[begin..]));
    while i < |body| && body[i] != ","
      invariant begin <= i <= |body|
      invariant BodyOf(body[begin..]) == Prefixed(body[begin..i], BodyOf(body[i..]))
      decreases |body| - i
    {
      ghost var at := i;
      if IsOpener(body[i]) {
        EndFromSuffix(body, i, i, []);
        var end := Balanced(body, i);
        if end.Err? {
          return Err(Bracket(end.error));
        }
        i := end.value;
      }
      BodyGoesOn(body, begin, at, i);
      i := i + 1;
    }
    r := Ok(i);
  }

  method ReadArms(body: Tokens, id: Naming) returns (r: Result<Arms, Reading>)
    ensures r == ArmsOf(body, map[], id)
  {
    var arms: Arms := map[];
    var i := 0;
    while i < |body|
      invariant if i <= |body| then ArmsOf(body, map[], id) == ArmsOf(body[i..], arms, id)
          else ArmsOf(body, map[], id) == Ok(arms)
      decreases |body| - i
    {
      var read := ReadLabels(body, i, id);
      if read.Err? {
        return Err(read.error);
      }
      var (labels, begin) := read.value;
      var end := ReadBody(body, begin);
      if end.Err? {
        return Err(end.error);
      }
      var more := AddLabels(arms, labels, body[begin..end.value]);
      if more.Err? {
        return Err(more.error);
      }
      assert end.value < |body| ==> body[end.value..][1..] == body[end.value + 1..];
      arms, i := more.value, end.value + 1;
    }
    r := Ok(arms);
  }

  // --- The switch ---

  predicate StartsSwitch(ts: Tokens, expression: Tokens, i: nat) {
    var head := ["switch", "("] + expression + [")"];
    i + |head| <= |ts| && ts[i..i + |head|] == head
  }

  /** How many switches on the expression start before i. */
  ghost function Count(ts: Tokens, expression: Tokens, i: nat): nat {
    if i == 0 then 0 else Count(ts, expression, i - 1) + if StartsSwitch(ts, expression, i - 1) then 1 else 0
  }

  ghost predicate IsOccurrence(ts: Tokens, expression: Tokens, occurrence: nat, at: nat) {
    StartsSwitch(ts, expression, at) && Count(ts, expression, at) == occurrence
  }

  lemma {:induction false} CountGrows(ts: Tokens, expression: Tokens, i: nat, j: nat)
    requires i <= j
    ensures Count(ts, expression, i) <= Count(ts, expression, j)
    ensures i < j && StartsSwitch(ts, expression, i) ==> Count(ts, expression, i) < Count(ts, expression, j)
    decreases j
  {
    if i < j {
      CountGrows(ts, expression, i, j - 1);
    }
  }

  lemma OneOccurrence(ts: Tokens, expression: Tokens, occurrence: nat, i: nat, j: nat)
    requires IsOccurrence(ts, expression, occurrence, i) && IsOccurrence(ts, expression, occurrence, j)
    ensures i == j
  {
    if i < j {
      CountGrows(ts, expression, i, j);
    } else {
      CountGrows(ts, expression, j, i);
    }
  }

  method FindSwitch(ts: Tokens, expression: Tokens, occurrence: nat) returns (r: Option<nat>)
    ensures r.Some? ==> IsOccurrence(ts, expression, occurrence, r.value)
    ensures r.None? ==> forall at :: !IsOccurrence(ts, expression, occurrence, at)
  {
    var found := 0;
    for i := 0 to |ts|
      invariant found <= occurrence && Count(ts, expression, i) == found
    {
      if StartsSwitch(ts, expression, i) {
        if found == occurrence {
          return Some(i);
        }
        found := found + 1;
      }
    }
    forall at: nat
      ensures !IsOccurrence(ts, expression, occurrence, at)
    {
      if at < |ts| {
        CountGrows(ts, expression, at, |ts|);
      }
    }
    r := None;
  }

  /** The switch that starts at `at` has its body in braces up to j. */
  ghost predicate IsSwitchBody(ts: Tokens, expression: Tokens, at: nat, j: nat) {
    var start := at + |expression| + 3;
    start < j < |ts| && ts[start] == "{" && GroupEnds(ts[start..], j - start)
  }

  /** The arms of the switch on `expression` that comes after `occurrence` others. */
  method Read(ts: Tokens, expression: Tokens, occurrence: nat, id: Naming) returns (r: Result<Arms, Reading>)
    ensures forall at: nat, j: nat ::
              IsOccurrence(ts, expression, occurrence, at) && IsSwitchBody(ts, expression, at, j) ==>
                r == ArmsOf(ts[at + |expression| + 4..j], map[], id)
    ensures forall at: nat :: IsOccurrence(ts, expression, occurrence, at) ==>
              var start := at + |expression| + 3;
              && (start == |ts| ==> r == Err(CutShort))
              && (start < |ts| && ts[start] != "{" ==> r == Err(NoBody))
              && (start < |ts| && ts[start] == "{" && (forall j: nat :: !IsSwitchBody(ts, expression, at, j)) ==>
                    r.Err? && r.error.Bracket? && EndFrom(ts, start, []) == Err(r.error.fault))
    ensures (forall at :: !IsOccurrence(ts, expression, occurrence, at)) ==> r == Err(MissingSwitch)
  {
    var found := FindSwitch(ts, expression, occurrence);
    if found.None? {
      return Err(MissingSwitch);
    }
    var start := found.value + |expression| + 3;
    ghost var at := found.value;
    forall other | IsOccurrence(ts, expression, occurrence, other)
      ensures other == at
    {
      OneOccurrence(ts, expression, occurrence, at, other);
    }
    if start == |ts| {
      return Err(CutShort);
    }
    if ts[start] != "{" {
      return Err(NoBody);
    }
    var end := Balanced(ts, start);
    forall j: nat
      ensures IsSwitchBody(ts, expression, at, j) <==> end == Ok(j)
    {
      BalancedFindsGroup(ts, start, j);
    }
    if end.Err? {
      return Err(Bracket(end.error));
    }
    r := ReadArms(ts[start + 1..end.value], id);
  }

  // --- Printing and reading back ---

  datatype Label = Named(token: string) | Else

  datatype Arm = Arm(labels: seq<Label>, body: Tokens)

  function NameOf(l: Label, id: Naming): string {
    if l.Named? && id(l.token).Some? then id(l.token).value else "*"
  }

  function NamesOf(ls: seq<Label>, id: Naming): seq<string> {
    if ls == [] then [] else [NameOf(ls[0], id)] + NamesOf(ls[1..], id)
  }

  predicate CanName(ls: seq<Label>, id: Naming) {
    forall l :: l in ls && l.Named? ==> id(l.token).Some?
  }

  /** Labels separated by commas. */
  function PrintLabels(ls: seq<Label>): Tokens {
    if ls == [] then [] else
      if |ls| == 1 then PrintLabel(ls[0]) else PrintLabel(ls[0]) + [","] + PrintLabels(ls[1..])
  }

  /** A comma follows every arm; behind the last one it may be left out. */
  function Print(arms: seq<Arm>, lastComma: bool): Tokens {
    if arms == [] then []
    else
      PrintLabels(arms[0].labels) + ["=>"] + arms[0].body
      + (if lastComma || |arms| > 1 then [","] else []) + Print(arms[1..], lastComma)
  }

  /** Whole groups and other tokens, but no comma outside a group. */
  ghost predicate IsBody(s: Tokens)
    decreases |s|
  {
    || s == []
    || (!IsOpener(s[0]) && !IsCloser(s[0]) && s[0] != "," && IsBody(s[1..]))
    || (IsOpener(s[0]) && exists k :: 0 < k < |s| && GroupEnds(s, k) && IsBody(s[k + 1..]))
  }

  ghost predicate Printable(arms: seq<Arm>, id: Naming) {
    forall a :: a in arms ==> CanName(a.labels, id) && IsBody(a.body)
  }

  /** The names of all labels, in order. */
  function AllNames(arms: seq<Arm>, id: Naming): seq<string> {
    if arms == [] then [] else NamesOf(arms[0].labels, id) + AllNames(arms[1..], id)
  }

  function Bind(arms: Arms, names: seq<string>, body: Tokens): Arms
    decreases |names|
  {
    if names == [] then arms else Bind(arms[names[0] := body], names[1..], body)
  }

  /** Each label's name with its arm's body. */
  function Meaning(list: seq<Arm>, arms: Arms, id: Naming): Arms
    decreases |list|
  {
    if list == [] then arms else Meaning(list[1..], Bind(arms, NamesOf(list[0].labels, id), list[0].body), id)
  }

  predicate AllNew(names: seq<string>, arms: Arms) {
    && (forall n :: n in names ==> n !in arms)
    && forall i, j :: 0 <= i < j < |names| ==> names[i] != names[j]
  }

  function PrintLabel(l: Label): Tokens {
    if l.Named? then [".", l.token] else ["else"]
  }

  lemma LabelReadsBack(l: Label, t: Tokens, id: Naming)
    requires l.Named? ==> id(l.token).Some?
    ensures LabelsOf(PrintLabel(l) + t, id) == Prefixed([NameOf(l, id)], LabelsOf(t, id))
  {
    var s := PrintLabel(l) + t;
    assert s[|PrintLabel(l)|..] == t;
  }

  lemma FirstLabelReadsBack(ls: seq<Label>, t: Tokens, id: Naming)
    requires CanName(ls, id) && ls != []
    ensures LabelsOf(PrintLabels(ls) + ["=>"] + t, id)
         == Prefixed([NameOf(ls[0], id)], LabelsOf(PrintLabels(ls[1..]) + ["=>"] + t, id))
  {
    assert ls[0] in ls;
    var s, others := PrintLabels(ls) + ["=>"] + t, PrintLabels(ls[1..]) + ["=>"] + t;
    if |ls| == 1 {
      assert s == PrintLabel(ls[0]) + others;
      LabelReadsBack(ls[0], others, id);
    } else {
      assert s == PrintLabel(ls[0]) + ([","] + others);
      LabelReadsBack(ls[0], [","] + others, id);
      assert ([","] + others)[1..] == others;
    }
  }

  lemma {:induction false} LabelsReadBack(ls: seq<Label>, t: Tokens, id: Naming)
    requires CanName(ls, id)
    ensures LabelsOf(PrintLabels(ls) + ["=>"] + t, id) == Ok(Part(NamesOf(ls, id), t))
    decreases |ls|
  {
    var s := PrintLabels(ls) + ["=>"] + t;
    if ls == [] {
      assert s[1..] == t;
    } else {
      LabelsReadBack(ls[1..], t, id);
      FirstLabelReadsBack(ls, t, id);
    }
  }

  /** The first token of a body outside groups, or the group it opens, up to k; the rest is a body again. */
  ghost predicate BodyStarts(b: Tokens, k: nat) {
    && k < |b| && b[0] != "," && IsBody(b[k + 1..])
    && if IsOpener(b[0]) then 0 < k && GroupEnds(b, k) else k == 0
  }

  lemma SomeBodyStart(b: Tokens) returns (k: nat)
    requires IsBody(b) && b != []
    ensures BodyStarts(b, k)
  {
    k := 0;
    if IsOpener(b[0]) {
      k :| 0 < k < |b| && GroupEnds(b, k) && IsBody(b[k + 1..]);
    }
  }

  lemma StartUnfolds(b: Tokens, t: Tokens, k: nat)
    requires BodyStarts(b, k)
    ensures BodyOf(b + t) == Prefixed(b[..k + 1], BodyOf(b[k + 1..] + t))
  {
    hide BodyOf, IsBody, EndFrom, WellBracketed;
    var s := b + t;
    if IsOpener(b[0]) {
      assert s[0..] == s && s[1..k] == b[1..k];
      BalancedFindsGroup(s, 0, k);
    }
    BodyUnfolds(s, k);
    assert s[k + 1..] == b[k + 1..] + t && s[..k + 1] == b[..k + 1];
  }

  /** A body printed before a comma, or at the end, is read back whole. */
  lemma {:induction false} BodyReadsBack(b: Tokens, t: Tokens)
    requires IsBody(b) && (t == [] || t[0] == ",")
    ensures BodyOf(b + t) == Ok(Part(b, t))
    decreases |b|
  {
    if b == [] {
      assert b + t == t;
    } else {
      var k := SomeBodyStart(b);
      var first, others := b[..k + 1], b[k + 1..];
      assert b == first + others;
      StartUnfolds(b, t, k);
      BodyReadsBack(others, t);
      assert Prefixed(first, Ok(Part(others, t))) == Ok(Part(b, t));
    }
  }

  lemma NewAfterFirst(arms: Arms, names: seq<string>, body: Tokens)
    requires names != [] && names[0] !in arms
    ensures AllNew(names, arms) <==> AllNew(names[1..], arms[names[0] := body])
  {
    var others, more := names[1..], arms[names[0] := body];
    if AllNew(names, arms) {
      assert forall n :: n in others ==> n in names;
      forall n | n in others
        ensures n != names[0]
      {
        var i :| 0 <= i < |others| && others[i] == n;
        assert names[i + 1] == n;
      }
      assert forall i :: 0 <= i < |others| ==> others[i] == names[i + 1];
    }
    if AllNew(others, more) {
      assert forall i :: 1 <= i < |names| ==> names[i] == others[i - 1];
      assert forall i :: 1 <= i < |names| ==> names[i] in others;
    }
  }

  lemma {:induction false} NewLabelsAreBound(arms: Arms, names: seq<string>, body: Tokens)
    ensures AddLabels(arms, names, body) == if AllNew(names, arms) then Ok(Bind(arms, names, body)) else Err(Duplicate)
    decreases |names|
  {
    if names != [] {
      assert names[0] in names;
      if names[0] !in arms {
        NewAfterFirst(arms, names, body);
        NewLabelsAreBound(arms[names[0] := body], names[1..], body);
      }
    }
  }

  lemma {:induction false} BoundKeys(arms: Arms, names: seq<string>, body: Tokens)
    ensures forall n :: n in Bind(arms, names, body) <==> n in arms || n in names
    decreases |names|
  {
    if names != [] {
      BoundKeys(arms[names[0] := body], names[1..], body);
      assert names == [names[0]] + names[1..];
    }
  }

  /** All of two lists are new exactly if the first are, and the second are beside those. */
  lemma NewInTwo(arms: Arms, names: seq<string>, more: seq<string>, body: Tokens)
    ensures AllNew(names + more, arms) <==> AllNew(names, arms) && AllNew(more, Bind(arms, names, body))
  {
    BoundKeys(arms, names, body);
    var both := names + more;
    assert forall i :: 0 <= i < |names| ==> both[i] == names[i];
    assert forall i :: 0 <= i < |more| ==> both[|names| + i] == more[i];
    if AllNew(names, arms) && AllNew(more, Bind(arms, names, body)) {
      forall i, j | 0 <= i < j < |both|
        ensures both[i] != both[j]
      {
        if i < |names| <= j {
          assert both[i] in names && both[j] in more;
        }
      }
    }
    if AllNew(both, arms) {
      assert forall n :: n in names || n in more ==> n in both;
    }
  }

  /**
   Printed arms are read back as they were, with and without a last comma: each label with its body, if no label
   comes twice; if one does, that is what the reader says.
   */
  lemma {:induction false} PrintedArmsReadBack(list: seq<Arm>, lastComma: bool, arms: Arms, id: Naming)
    requires Printable(list, id)
    ensures ArmsOf(Print(list, lastComma), arms, id)
         == if AllNew(AllNames(list, id), arms) then Ok(Meaning(list, arms, id)) else Err(Duplicate)
    decreases |list|
  {
    if list != [] {
      var a, others := list[0], list[1..];
      assert a in list && forall b :: b in others ==> b in list;
      var names := NamesOf(a.labels, id);
      var rest := (if lastComma || |list| > 1 then [","] else []) + Print(others, lastComma);
      assert Print(list, lastComma) == PrintLabels(a.labels) + ["=>"] + (a.body + rest);
      LabelsReadBack(a.labels, a.body + rest, id);
      BodyReadsBack(a.body, rest);
      NewLabelsAreBound(arms, names, a.body);
      NewInTwo(arms, names, AllNames(others, id), a.body);
      assert rest != [] ==> rest[1..] == Print(others, lastComma);
      PrintedArmsReadBack(others, lastComma, Bind(arms, names, a.body), id);
    }
  }

  lemma {:induction false} BoundBodies(arms: Arms, names: seq<string>, body: Tokens, n: string)
    ensures n in names ==> n in Bind(arms, names, body) && Bind(arms, names, body)[n] == body
    ensures n !in names ==> (n in Bind(arms, names, body) <==> n in arms)
    ensures n !in names && n in arms ==> n in Bind(arms, names, body) && Bind(arms, names, body)[n] == arms[n]
    decreases |names|
  {
    if names != [] {
      BoundBodies(arms[names[0] := body], names[1..], body, n);
      assert names == [names[0]] + names[1..];
    }
  }

  lemma {:induction false} MeaningKeeps(list: seq<Arm>, arms: Arms, id: Naming, n: string)
    requires n !in AllNames(list, id)
    ensures n in Meaning(list, arms, id) <==> n in arms
    ensures n in arms ==> Meaning(list, arms, id)[n] == arms[n]
    decreases |list|
  {
    if list != [] {
      var names := NamesOf(list[0].labels, id);
      assert forall m :: m in names || m in AllNames(list[1..], id) ==> m in AllNames(list, id);
      BoundBodies(arms, names, list[0].body, n);
      MeaningKeeps(list[1..], Bind(arms, names, list[0].body), id, n);
    }
  }

  /** Without repeated labels every label means its own arm's body. */
  lemma {:induction false} LabelsMeanTheirBodies(list: seq<Arm>, arms: Arms, id: Naming, a: Arm, n: string)
    requires AllNew(AllNames(list, id), arms) && a in list && n in NamesOf(a.labels, id)
    ensures n in Meaning(list, arms, id) && Meaning(list, arms, id)[n] == a.body
    decreases |list|
  {
    var first, names, others := list[0], NamesOf(list[0].labels, id), AllNames(list[1..], id);
    NewInTwo(arms, names, others, first.body);
    var more := Bind(arms, names, first.body);
    if a == first {
      BoundBodies(arms, names, first.body, n);
      assert n !in others;
      MeaningKeeps(list[1..], more, id, n);
    } else {
      LabelsMeanTheirBodies(list[1..], more, id, a, n);
    }
  }
}
