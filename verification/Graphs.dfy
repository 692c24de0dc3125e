/**
 Reachability in a finite graph, given as the successors of each node (a node that is no key has none).
 */
module Graphs {

  type Graph<N> = map<N, set<N>>

  function Successors<N(==)>(g: Graph<N>, n: N): set<N> {
    if n in g then g[n] else {}
  }

  /** Any element: a worklist's order is not part of what it computes. */
  method AnyOf<N(==)>(s: set<N>) returns (n: N)
    requires s != {}
    ensures n in s
  {
    n :| n in s;
  }

  lemma Member<N>(s: set<N>) returns (n: N)
    requires s != {}
    ensures n in s
  {
    n :| n in s;
  }

  lemma MemberBeyond<N>(s: set<N>, t: set<N>) returns (n: N)
    requires s < t
    ensures n in t && n !in s
  {
    n :| n in t && n !in s;
  }

  lemma AddsNothing<N>(s: set<N>, t: set<N>)
    ensures s + t == s <==> t <= s
  {
  }

  ghost predicate Walk<N>(g: Graph<N>, p: seq<N>) {
    p != [] && forall i :: 0 <= i < |p| - 1 ==> p[i + 1] in Successors(g, p[i])
  }

  /** `b` is `a` or some walk leads from `a` to `b`. */
  ghost predicate Reaches<N(!new)>(g: Graph<N>, a: N, b: N) {
    exists p :: Walk(g, p) && p[0] == a && p[|p| - 1] == b
  }

  ghost predicate ReachedFrom<N(!new)>(g: Graph<N>, roots: set<N>, b: N) {
    exists a :: a in roots && Reaches(g, a, b)
  }

  lemma RootOf<N(!new)>(g: Graph<N>, roots: set<N>, b: N) returns (a: N)
    requires ReachedFrom(g, roots, b)
    ensures a in roots && Reaches(g, a, b)
  {
    a :| a in roots && Reaches(g, a, b);
  }

  /** No edge leads out of the set. */
  ghost predicate Closed<N>(g: Graph<N>, s: set<N>) {
    forall n :: n in s ==> Successors(g, n) <= s
  }

  lemma ReachesItself<N(!new)>(g: Graph<N>, a: N)
    ensures Reaches(g, a, a)
  {
    var p := [a];
    assert Walk(g, p) && p[0] == a && p[|p| - 1] == a;
  }

  lemma ReachesNext<N(!new)>(g: Graph<N>, a: N, b: N, c: N)
    requires Reaches(g, a, b) && c in Successors(g, b)
    ensures Reaches(g, a, c)
  {
    var p :| Walk(g, p) && p[0] == a && p[|p| - 1] == b;
    var q := p + [c];
    assert Walk(g, q) && q[0] == a && q[|q| - 1] == c;
  }

  lemma ReachesFirst<N(!new)>(g: Graph<N>, a: N, b: N, c: N)
    requires b in Successors(g, a) && Reaches(g, b, c)
    ensures Reaches(g, a, c)
  {
    var p :| Walk(g, p) && p[0] == b && p[|p| - 1] == c;
    var q := [a] + p;
    assert Walk(g, q) && q[0] == a && q[|q| - 1] == c;
  }

  lemma {:induction false} WalkStaysInside<N(!new)>(g: Graph<N>, s: set<N>, p: seq<N>)
    requires Closed(g, s) && Walk(g, p) && p[0] in s
    ensures p[|p| - 1] in s
    decreases |p|
  {
    if |p| > 1 {
      var q := p[..|p| - 1];
      WalkStaysInside(g, s, q);
      assert p[|p| - 2 + 1] in Successors(g, p[|p| - 2]);
    }
  }

  /** A set that holds every node with a successor in it holds the start of a walk into it. */
  lemma {:induction false} WalkStartsInside<N(!new)>(g: Graph<N>, s: set<N>, p: seq<N>)
    requires forall a, b :: b in s && b in Successors(g, a) ==> a in s
    requires Walk(g, p) && p[|p| - 1] in s
    ensures p[0] in s
    decreases |p|
  {
    if |p| > 1 {
      var q := p[1..];
      WalkStartsInside(g, s, q);
      assert p[0 + 1] in Successors(g, p[0]);
    }
  }

  lemma BackwardClosedHoldsSources<N(!new)>(g: Graph<N>, s: set<N>, a: N, b: N)
    requires forall x, y :: y in s && y in Successors(g, x) ==> x in s
    requires Reaches(g, a, b) && b in s
    ensures a in s
  {
    var p :| Walk(g, p) && p[0] == a && p[|p| - 1] == b;
    WalkStartsInside(g, s, p);
  }

  /** A closed set holds whatever its nodes reach. */
  lemma ClosedHoldsReached<N(!new)>(g: Graph<N>, s: set<N>, a: N, b: N)
    requires Closed(g, s) && a in s && Reaches(g, a, b)
    ensures b in s
  {
    var p :| Walk(g, p) && p[0] == a && p[|p| - 1] == b;
    WalkStaysInside(g, s, p);
  }

  /**
   A closed set that holds the roots, and nothing they do not reach, is what they reach, and is
   the least closed set that holds them.
   */
  lemma ReachedIsLeast<N(!new)>(g: Graph<N>, roots: set<N>, s: set<N>)
    requires Closed(g, s) && roots <= s && forall b :: b in s ==> ReachedFrom(g, roots, b)
    ensures forall b :: ReachedFrom(g, roots, b) ==> b in s
    ensures forall t :: Closed(g, t) && roots <= t ==> s <= t
  {
    forall t, b | Closed(g, t) && roots <= t && ReachedFrom(g, roots, b)
      ensures b in t
    {
      var a :| a in roots && Reaches(g, a, b);
      ClosedHoldsReached(g, t, a, b);
    }
  }

  // --- Cycles ---

  ghost predicate OnCycle<N(!new)>(g: Graph<N>, n: N) {
    ReachedFrom(g, Successors(g, n), n)
  }

  ghost predicate Distinct<N>(p: seq<N>) {
    forall i, j :: 0 <= i < j < |p| ==> p[i] != p[j]
  }

  lemma WalkBackIsCycle<N(!new)>(g: Graph<N>, p: seq<N>, i: nat)
    requires Walk(g, p) && i < |p| && p[i] in Successors(g, p[|p| - 1])
    ensures OnCycle(g, p[|p| - 1])
  {
    var q := p[i..];
    assert Walk(g, q) && q[0] == p[i] && q[|q| - 1] == p[|p| - 1];
    assert Reaches(g, p[i], p[|p| - 1]);
  }

  ghost function Elements<N>(p: seq<N>): set<N> {
    set a | a in p
  }

  lemma WalkGoesOn<N(!new)>(g: Graph<N>, p: seq<N>, m: N)
    requires Walk(g, p) && Distinct(p) && m in Successors(g, p[|p| - 1]) && m !in p
    ensures Walk(g, p + [m]) && Distinct(p + [m]) && Elements(p + [m]) == Elements(p) + {m}
  {
  }

  /** In a finite set where every node has a successor inside, some node lies on a cycle. */
  lemma {:induction false} NoWayOutIsCycle<N(!new)>(g: Graph<N>, s: set<N>, p: seq<N>) returns (n: N)
    requires forall a :: a in s ==> Successors(g, a) * s != {}
    requires Walk(g, p) && Distinct(p) && Elements(p) <= s
    ensures n in s && OnCycle(g, n)
    decreases s - Elements(p)
  {
    n := p[|p| - 1];
    assert n in Elements(p);
    var m := Member(Successors(g, n) * s);
    if m in p {
      var i :| 0 <= i < |p| && p[i] == m;
      WalkBackIsCycle(g, p, i);
    } else {
      WalkGoesOn(g, p, m);
      assert m in s - Elements(p);
      n := NoWayOutIsCycle(g, s, p + [m]);
    }
  }
}
