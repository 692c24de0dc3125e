/**
 Which declarations may touch the framework's runtime types: every declaration starts with the marks
 it earns itself, and marks spread from a declaration to those that depend on it until nothing
 changes. A mark is one bit of the source's masks.
 */
module Candidates {
  import opened Wrappers
  import opened Graphs

  /** A declaration of the checked environment. `foreign`: it has an `extern` implementation. */
  datatype Node = Node(name: string, kind: string, implementedBy: bool, foreign: bool, dependencies: seq<string>)

  datatype Defect = Duplicate | Missing(name: string, dependency: string)

  function FirstIndex(s: seq<string>, x: string): nat
    requires x in s
    ensures FirstIndex(s, x) < |s| && s[FirstIndex(s, x)] == x && x !in s[..FirstIndex(s, x)]
  {
    if s[0] == x then 0 else 1 + FirstIndex(s[1..], x)
  }

  /** What a declaration earns itself: its own type's bit, and the last bit if its meaning is not in the graph. */
  function Earned(types: seq<string>, n: Node): set<nat> {
    (if n.name in types then {FirstIndex(types, n.name)} else {})
    + (if n.kind in {"unresolved", "opaque", "axiom"} || n.implementedBy || n.foreign then {|types|} else {})
  }

  function Dependencies(nodes: map<string, Node>): Graph<string> {
    map n | n in nodes :: set d | d in nodes[n].dependencies
  }

  /** Some declaration that `n` is or depends on, directly or not, earned the bit. */
  ghost predicate Earns(nodes: map<string, Node>, types: seq<string>, n: string, b: nat) {
    exists m :: m in nodes && b in Earned(types, nodes[m]) && Reaches(Dependencies(nodes), n, m)
  }

  /**
   A declaration has the bit of the first listed type whose name it reaches, and the last bit if it reaches something
   whose meaning is not in the graph: unresolved, opaque, an axiom, or implemented elsewhere.
   */
  lemma EarnsMeans(nodes: map<string, Node>, types: seq<string>, n: string, b: nat)
    ensures Earns(nodes, types, n, b) <==>
              exists m :: m in nodes && Reaches(Dependencies(nodes), n, m) && (
                || (b < |types| && types[b] == nodes[m].name && nodes[m].name !in types[..b])
                || (b == |types| && (nodes[m].kind == "unresolved" || nodes[m].kind == "opaque"
                    || nodes[m].kind == "axiom" || nodes[m].implementedBy || nodes[m].foreign)))
  {
    hide Reaches;
    forall m | m in nodes
      ensures b in Earned(types, nodes[m]) <==>
                || (b < |types| && types[b] == nodes[m].name && nodes[m].name !in types[..b])
                || (b == |types| && (nodes[m].kind == "unresolved" || nodes[m].kind == "opaque"
                    || nodes[m].kind == "axiom" || nodes[m].implementedBy || nodes[m].foreign))
    {
      EarnedMeans(types, nodes[m], b);
    }
  }

  lemma {:induction false} FirstIsIt(s: seq<string>, x: string, b: nat)
    requires b < |s| && s[b] == x && x !in s[..b]
    ensures FirstIndex(s, x) == b
  {
    if b > 0 {
      assert s[..b][0] == s[0] && s[1..][..b - 1] == s[..b][1..];
      FirstIsIt(s[1..], x, b - 1);
    }
  }

  lemma EarnedMeans(types: seq<string>, n: Node, b: nat)
    ensures b in Earned(types, n) <==>
              || (b < |types| && types[b] == n.name && n.name !in types[..b])
              || (b == |types| && (n.kind == "unresolved" || n.kind == "opaque" || n.kind == "axiom"
                  || n.implementedBy || n.foreign))
  {
    if b < |types| && types[b] == n.name && n.name !in types[..b] {
      FirstIsIt(types, n.name, b);
    }
  }

  ghost predicate Complete(nodes: map<string, Node>) {
    forall n, d :: n in nodes && d in nodes[n].dependencies ==> d in nodes
  }

  // --- The inventory ---

  method Inventory(list: seq<Node>) returns (r: Result<map<string, Node>, Defect>)
    ensures r.Err? <==> exists i, j :: 0 <= i < j < |list| && list[i].name == list[j].name
    ensures r.Ok? ==> forall n :: n in r.value <==> exists i :: 0 <= i < |list| && list[i].name == n
    ensures r.Ok? ==> forall i :: 0 <= i < |list| ==> r.value[list[i].name] == list[i]
  {
    var nodes := map[];
    for i := 0 to |list|
      invariant forall n :: n in nodes <==> exists j :: 0 <= j < i && list[j].name == n
      invariant forall j :: 0 <= j < i ==> nodes[list[j].name] == list[j]
      invariant forall j, k :: 0 <= j < k < i ==> list[j].name != list[k].name
    {
      if list[i].name in nodes {
        return Err(Duplicate);
      }
      nodes := nodes[list[i].name := list[i]];
    }
    r := Ok(nodes);
  }

  // --- Who depends on whom ---

  ghost predicate Listed(users: map<string, seq<string>>, nodes: map<string, Node>, done: set<string>) {
    && users.Keys == nodes.Keys
    && forall d, p :: d in nodes ==> (p in users[d] <==> p in done && p in nodes && d in nodes[p].dependencies)
  }

  /** The source's `reverse`: for every declaration, those that depend on it; a dependency outside the graph fails. */
  method Users(nodes: map<string, Node>) returns (r: Result<map<string, seq<string>>, Defect>)
    ensures r.Ok? <==> Complete(nodes)
    ensures r.Ok? ==> Listed(r.value, nodes, nodes.Keys)
    ensures r.Err? ==> && r.error.Missing? && r.error.name in nodes && r.error.dependency !in nodes
                       && r.error.dependency in nodes[r.error.name].dependencies
  {
    var users: map<string, seq<string>> := map n | n in nodes :: [];
    var rest := nodes.Keys;
    while rest != {}
      invariant rest <= nodes.Keys && Listed(users, nodes, nodes.Keys - rest)
      invariant forall n, d :: n in nodes.Keys - rest && d in nodes[n].dependencies ==> d in nodes
      decreases rest
    {
      var name := AnyOf(rest);
      var listed := ListUser(users, nodes, name);
      if listed.Err? {
        return Err(listed.error);
      }
      users, rest := listed.value, rest - {name};
    }
    assert nodes.Keys - rest == nodes.Keys;
    r := Ok(users);
  }

  method ListUser(before: map<string, seq<string>>, nodes: map<string, Node>, name: string)
    returns (r: Result<map<string, seq<string>>, Defect>)
    requires before.Keys == nodes.Keys && name in nodes
    ensures r.Ok? <==> forall d :: d in nodes[name].dependencies ==> d in nodes
    ensures r.Ok? ==> r.value.Keys == nodes.Keys
    ensures r.Ok? ==> forall d, p :: d in nodes ==>
              (p in r.value[d] <==> p in before[d] || (p == name && d in nodes[name].dependencies))
    ensures r.Err? ==> r.error.Missing? && r.error.name == name
    ensures r.Err? ==> r.error.dependency !in nodes && r.error.dependency in nodes[name].dependencies
  {
    var dependencies := nodes[name].dependencies;
    var users := before;
    for i := 0 to |dependencies|
      invariant users.Keys == nodes.Keys
      invariant forall j :: 0 <= j < i ==> dependencies[j] in nodes
      invariant forall d, p :: d in nodes ==>
          (p in users[d] <==> p in before[d] || (p == name && d in dependencies[..i]))
    {
      var d := dependencies[i];
      if d !in nodes {
        return Err(Missing(name, d));
      }
      users := users[d := users[d] + [name]];
      assert dependencies[..i + 1] == dependencies[..i] + [d];
    }
    assert dependencies[..|dependencies|] == dependencies;
    r := Ok(users);
  }

  // --- The fixed point ---

  type Masks = map<string, set<nat>>

  /** No declaration has a mark it does not earn, and each has the marks it earns itself. */
  ghost predicate Between(masks: Masks, nodes: map<string, Node>, types: seq<string>) {
    && masks.Keys == nodes.Keys
    && (forall n :: n in nodes ==> Earned(types, nodes[n]) <= masks[n])
    && (forall n, b :: n in nodes && b in masks[n] ==> Earns(nodes, types, n, b))
  }

  /** What a declaration's users still lack of its marks is accounted for by the pending ones. */
  ghost predicate SpreadBut(masks: Masks, nodes: map<string, Node>, pending: set<string>) {
    && masks.Keys == nodes.Keys
    && forall n, d :: n in nodes && d in nodes && d in nodes[n].dependencies && d !in pending ==> masks[d] <= masks[n]
  }

  lemma EarnsThrough(nodes: map<string, Node>, types: seq<string>, n: string, d: string, b: nat)
    requires n in nodes && d in nodes[n].dependencies && Earns(nodes, types, d, b)
    ensures Earns(nodes, types, n, b)
  {
    var m :| m in nodes && b in Earned(types, nodes[m]) && Reaches(Dependencies(nodes), d, m);
    ReachesFirst(Dependencies(nodes), n, d, m);
  }

  lemma EarnsItself(nodes: map<string, Node>, types: seq<string>, n: string, b: nat)
    requires n in nodes && b in Earned(types, nodes[n])
    ensures Earns(nodes, types, n, b)
  {
    ReachesItself(Dependencies(nodes), n);
  }

  /** Once nothing is pending, every mark a declaration earns has reached it. */
  lemma NothingIsMissing(masks: Masks, nodes: map<string, Node>, types: seq<string>, n: string, b: nat)
    requires Complete(nodes) && Between(masks, nodes, types) && SpreadBut(masks, nodes, {})
    requires n in nodes && Earns(nodes, types, n, b)
    ensures b in masks[n]
  {
    hide Reaches;
    var m :| m in nodes && b in Earned(types, nodes[m]) && Reaches(Dependencies(nodes), n, m);
    var marked := set x | x in nodes && b in masks[x];
    BackwardClosedHoldsSources(Dependencies(nodes), marked, n, m);
  }

  /** The pairs of a declaration and a mark on it: they only grow. */
  ghost function Pairs(masks: Masks, types: seq<string>): set<(string, nat)> {
    set n, b: nat | n in masks && b in masks[n] && b <= |types| :: (n, b)
  }

  ghost function AllPairs(nodes: map<string, Node>, types: seq<string>): set<(string, nat)> {
    set n, b: nat | n in nodes && b <= |types| :: (n, b)
  }

  /** What may still be marked. */
  ghost function Unmarked(masks: Masks, nodes: map<string, Node>, types: seq<string>): set<(string, nat)> {
    AllPairs(nodes, types) - Pairs(masks, types)
  }

  /** A popped declaration hands its marks to its users; those that gained some are pending. */
  method Raise(nodes: map<string, Node>, types: seq<string>, users: map<string, seq<string>>,
               before: Masks, queued: set<string>, name: string)
    returns (masks: Masks, pending: set<string>)
    requires Complete(nodes) && Listed(users, nodes, nodes.Keys) && name in queued && queued <= nodes.Keys
    requires Between(before, nodes, types) && SpreadBut(before, nodes, queued)
    ensures Between(masks, nodes, types) && SpreadBut(masks, nodes, pending) && pending <= nodes.Keys
    ensures (masks == before && pending == queued - {name})
        || Unmarked(masks, nodes, types) < Unmarked(before, nodes, types)
  {
    hide Reaches;
    var parents := users[name];
    masks, pending := before, queued - {name};
    ghost var gained: Option<string> := None;
    for i := 0 to |parents|
      invariant Between(masks, nodes, types) && pending <= nodes.Keys
      invariant Raising(before, masks, queued, pending, name) && Covers(masks, name, parents, i)
      invariant if gained.None? then masks == before && pending == queued - {name}
                else gained.value in nodes && before[gained.value] < masks[gained.value]
    {
      ghost var was := masks;
      masks, pending := RaiseUser(nodes, types, masks, pending, name, parents, i, before, queued);
      gained := if masks == was then gained else Some(parents[i]);
    }
    if gained.Some? {
      PairsGrow(before, masks, nodes, types, gained.value);
    }
    AllButTheirUsers(before, masks, nodes, users, queued, pending, name);
  }

  method RaiseUser(nodes: map<string, Node>, types: seq<string>, masks: Masks, pending: set<string>, name: string,
                   parents: seq<string>, i: nat, ghost before: Masks, ghost queued: set<string>)
    returns (masks': Masks, pending': set<string>)
    requires Between(masks, nodes, types) && Raising(before, masks, queued, pending, name)
    requires Covers(masks, name, parents, i) && i < |parents| && name in nodes[parents[i]].dependencies
    ensures Between(masks', nodes, types) && Raising(before, masks', queued, pending', name)
    ensures Covers(masks', name, parents, i + 1) && pending <= pending' <= pending + {parents[i]}
    ensures if masks' == masks then pending' == pending else before[parents[i]] < masks'[parents[i]]
  {
    masks', pending' := masks, pending;
    var parent := parents[i];
    var combined := masks[parent] + masks[name];
    AddsNothing(masks[parent], masks[name]);
    if combined != masks[parent] {
      RaisingEarns(masks, nodes, types, parent, name);
      RaisingOne(before, masks, queued, pending, name, parents, i);
      masks', pending' := masks[parent := combined], pending + {parent};
    }
  }

  /** Masks only grew, and those that did are pending. */
  ghost predicate Raising(before: Masks, masks: Masks, queued: set<string>, pending: set<string>, name: string) {
    && name in before && before.Keys == masks.Keys && queued - {name} <= pending && masks[name] == before[name]
    && forall n :: n in before ==> before[n] <= masks[n] && (masks[n] == before[n] || n in pending)
  }

  ghost predicate Covers(masks: Masks, name: string, parents: seq<string>, i: nat) {
    && name in masks && i <= |parents| && (forall j :: 0 <= j < |parents| ==> parents[j] in masks)
    && forall j :: 0 <= j < i ==> masks[name] <= masks[parents[j]]
  }

  lemma RaisingOne(before: Masks, masks: Masks, queued: set<string>, pending: set<string>, name: string,
                   parents: seq<string>, i: nat)
    requires Raising(before, masks, queued, pending, name) && Covers(masks, name, parents, i) && i < |parents|
    requires !(masks[name] <= masks[parents[i]])
    ensures var m := masks[parents[i] := masks[parents[i]] + masks[name]];
            Raising(before, m, queued, pending + {parents[i]}, name) && Covers(m, name, parents, i + 1)
            && before[parents[i]] < m[parents[i]]
  {
  }

  lemma AllButTheirUsers(before: Masks, masks: Masks, nodes: map<string, Node>, users: map<string, seq<string>>,
                         queued: set<string>, pending: set<string>, name: string)
    requires Complete(nodes) && Listed(users, nodes, nodes.Keys) && name in nodes && masks.Keys == nodes.Keys
    requires SpreadBut(before, nodes, queued) && Raising(before, masks, queued, pending, name)
    requires Covers(masks, name, users[name], |users[name]|)
    ensures SpreadBut(masks, nodes, pending)
  {
    forall n, d | n in nodes && d in nodes && d in nodes[n].dependencies && d !in pending
      ensures masks[d] <= masks[n]
    {
      if d == name {
        assert n in users[name];
      } else {
        assert before[d] <= before[n];
      }
    }
  }

  lemma RaisingEarns(masks: Masks, nodes: map<string, Node>, types: seq<string>, parent: string, name: string)
    requires Between(masks, nodes, types) && parent in nodes && name in nodes && name in nodes[parent].dependencies
    ensures Between(masks[parent := masks[parent] + masks[name]], nodes, types)
  {
    forall b | b in masks[name]
      ensures Earns(nodes, types, parent, b)
    {
      EarnsThrough(nodes, types, parent, name, b);
    }
  }

  lemma PairsGrow(before: Masks, masks: Masks, nodes: map<string, Node>, types: seq<string>, n: string)
    requires Between(masks, nodes, types) && before.Keys == nodes.Keys
    requires forall m :: m in nodes ==> before[m] <= masks[m]
    requires n in nodes && before[n] < masks[n]
    ensures Unmarked(masks, nodes, types) < Unmarked(before, nodes, types)
  {
    var b := MemberBeyond(before[n], masks[n]);
    BitsAreFew(nodes, types, n, b);
    PairsStay(before, masks, types);
    assert (n, b) in Pairs(masks, types) && (n, b) in AllPairs(nodes, types) && (n, b) !in Pairs(before, types);
    hide *;
    assert (n, b) !in AllPairs(nodes, types) - Pairs(masks, types);
  }

  lemma PairsStay(before: Masks, masks: Masks, types: seq<string>)
    requires before.Keys == masks.Keys && forall m :: m in before ==> before[m] <= masks[m]
    ensures Pairs(before, types) <= Pairs(masks, types)
  {
  }

  lemma BitsAreFew(nodes: map<string, Node>, types: seq<string>, n: string, b: nat)
    requires Earns(nodes, types, n, b)
    ensures b <= |types|
  {
    var m :| m in nodes && b in Earned(types, nodes[m]) && Reaches(Dependencies(nodes), n, m);
  }

  lemma StartsBetween(masks: Masks, nodes: map<string, Node>, types: seq<string>)
    requires masks == map n | n in nodes :: Earned(types, nodes[n])
    ensures Between(masks, nodes, types) && SpreadBut(masks, nodes, set n | n in nodes && masks[n] != {})
  {
    forall n, b | n in nodes && b in masks[n]
      ensures Earns(nodes, types, n, b)
    {
      EarnsItself(nodes, types, n, b);
    }
  }

  /** With nothing pending the marks are exactly those earned. */
  lemma AllThatIsEarned(masks: Masks, nodes: map<string, Node>, types: seq<string>)
    requires Complete(nodes) && Between(masks, nodes, types) && SpreadBut(masks, nodes, {})
    ensures masks.Keys == nodes.Keys && forall n, b :: n in nodes ==> (b in masks[n] <==> Earns(nodes, types, n, b))
  {
    hide Earns;
    forall n, b | n in nodes
      ensures b in masks[n] <==> Earns(nodes, types, n, b)
    {
      if Earns(nodes, types, n, b) {
        NothingIsMissing(masks, nodes, types, n, b);
      }
    }
  }

  method Spread(nodes: map<string, Node>, types: seq<string>) returns (r: Result<Masks, Defect>)
    ensures r.Ok? <==> Complete(nodes)
    ensures r.Ok? ==> r.value.Keys == nodes.Keys
    ensures r.Ok? ==> forall n, b :: n in nodes ==> (b in r.value[n] <==> Earns(nodes, types, n, b))
  {
    var listed := Users(nodes);
    if listed.Err? {
      return Err(listed.error);
    }
    var users := listed.value;
    var masks := map n | n in nodes :: Earned(types, nodes[n]);
    var pending := set n | n in nodes && masks[n] != {};
    StartsBetween(masks, nodes, types);
    hide Reaches, Between, Earns, Pairs, AllPairs, Unmarked;
    while pending != {}
      invariant pending <= nodes.Keys && Between(masks, nodes, types) && SpreadBut(masks, nodes, pending)
      decreases Unmarked(masks, nodes, types), pending
    {
      var name := AnyOf(pending);
      masks, pending := Raise(nodes, types, users, masks, pending, name);
    }
    AllThatIsEarned(masks, nodes, types);
    r := Ok(masks);
  }
}
