/**
 The process table of the build guard: which processes a workload owns, which of them its
 sub-admissions answer for, and how many Zig compiler invocations run at once.
 Parent links are taken as they are read: they may name absent processes or form a cycle.
 */
module Processes {
  import opened Graphs

  datatype Row = Row(parent: int, group: int, start: string, name: string)

  type Table = map<int, Row>

  // --- Specifications ---

  function ChildrenOf(rows: Table, among: set<int>): Graph<int>
    requires among <= rows.Keys
  {
    var parents := set c | c in among :: rows[c].parent;
    map p | p in parents :: ChildrenIn(rows, among, p)
  }

  function ChildrenIn(rows: Table, among: set<int>, p: int): set<int>
    requires among <= rows.Keys
  {
    set c | c in among && rows[c].parent == p
  }

  /** The processes a guard knows without following links: its group, and those seen before that still live. */
  function Seeds(rows: Table, root: int, seen: map<int, string>): (s: set<int>)
    ensures s <= rows.Keys
  {
    (set p | p in rows && rows[p].group == root) + (set p | p in seen && p in rows && rows[p].start == seen[p])
  }

  /** All of the workload: what the known processes reach by child links. */
  ghost function Family(rows: Table, root: int, seen: map<int, string>): set<int> {
    set p | p in rows && ReachedFrom(ChildrenOf(rows, rows.Keys), Seeds(rows, root, seen), p)
  }

  function StartsOf(rows: Table, owned: set<int>): map<int, string>
    requires owned <= rows.Keys
  {
    map p | p in owned :: rows[p].start
  }

  /** The owned processes below a running sub-admission, itself included. */
  ghost function Covered(rows: Table, owned: set<int>, roots: set<int>): set<int>
    requires owned <= rows.Keys
  {
    set p | p in owned && ReachedFrom(ChildrenOf(rows, owned), roots * owned, p)
  }

  /** A name as Linux shows it: its first 15 bytes. */
  function Shown(name: string): string {
    if |name| > 15 then name[..15] else name
  }

  function ZigOf(rows: Table, owned: set<int>, names: set<string>): set<int>
    requires owned <= rows.Keys
  {
    var observed := names + set n | n in names :: Shown(n);
    set p | p in owned && rows[p].name in observed
  }

  /** A Zig process whose parent is one too is part of its parent's invocation. */
  function InvocationsOf(rows: Table, owned: set<int>, names: set<string>): set<int>
    requires owned <= rows.Keys
  {
    var zig := ZigOf(rows, owned, names);
    set p | p in zig && rows[p].parent !in zig
  }

  function ParentsOf(rows: Table, owned: set<int>): Graph<int>
    requires owned <= rows.Keys
  {
    map p | p in owned && rows[p].parent in owned :: {rows[p].parent}
  }

  /** `a` is above `p`, by one owned parent link or more. */
  ghost predicate Above(rows: Table, owned: set<int>, a: int, p: int)
    requires owned <= rows.Keys
  {
    ReachedFrom(ParentsOf(rows, owned), Successors(ParentsOf(rows, owned), p), a)
  }

  /** The invocations that supervise no other one. */
  ghost function Working(rows: Table, owned: set<int>, names: set<string>): set<int>
    requires owned <= rows.Keys
  {
    var all := InvocationsOf(rows, owned, names);
    set p | p in all && !exists q :: q in all && Above(rows, owned, p, q)
  }

  /** An owned process with a Zig compiler's name; of a longer name only the first 15 characters are seen. */
  ghost predicate IsZig(rows: Table, owned: set<int>, names: set<string>, p: int)
    requires owned <= rows.Keys
  {
    && p in owned
    && (rows[p].name in names || exists n :: n in names && |n| > 15 && rows[p].name == n[..15])
  }

  /** A Zig process that Zig did not start. */
  ghost predicate IsCompiler(rows: Table, owned: set<int>, names: set<string>, p: int)
    requires owned <= rows.Keys
  {
    IsZig(rows, owned, names, p) && !IsZig(rows, owned, names, rows[p].parent)
  }

  /** Compiler invocations, none above another one or itself. */
  ghost predicate IsIndependent(rows: Table, owned: set<int>, names: set<string>, s: set<int>)
    requires owned <= rows.Keys
  {
    && (forall a :: a in s ==> IsCompiler(rows, owned, names, a))
    && (forall a, b :: a in s && b in s ==> !Above(rows, owned, a, b))
  }

  /** More than `jobs` compilers at work side by side. */
  ghost predicate IsParallel(rows: Table, owned: set<int>, names: set<string>, jobs: nat)
    requires owned <= rows.Keys
  {
    exists s :: IsIndependent(rows, owned, names, s) && |s| > jobs
  }

  // --- The worklists ---

  lemma SuccessorsAreChildren(rows: Table, among: set<int>, p: int)
    requires among <= rows.Keys
    ensures Successors(ChildrenOf(rows, among), p) == ChildrenIn(rows, among, p)
  {
    forall c | c in ChildrenIn(rows, among, p)
      ensures p in ChildrenOf(rows, among)
    {
      assert rows[c].parent in set d | d in among :: rows[d].parent;
    }
    assert p !in ChildrenOf(rows, among) ==> ChildrenIn(rows, among, p) == {};
  }

  lemma OneMoreChild(rows: Table, among: set<int>, c: int)
    requires among <= rows.Keys && c in rows
    ensures var g := ChildrenOf(rows, among); var p := rows[c].parent;
            ChildrenOf(rows, among + {c}) == g[p := Successors(g, p) + {c}]
  {
    var g, h, p := ChildrenOf(rows, among), ChildrenOf(rows, among + {c}), rows[c].parent;
    SuccessorsAreChildren(rows, among, p);
    assert h.Keys == g.Keys + {p};
    forall q | q in h.Keys
      ensures h[q] == if q == p then Successors(g, p) + {c} else g[q]
    {
      assert q != p ==> ChildrenIn(rows, among + {c}, q) == ChildrenIn(rows, among, q);
    }
  }

  method IndexChildren(rows: Table, among: set<int>) returns (children: Graph<int>)
    requires among <= rows.Keys
    ensures children == ChildrenOf(rows, among)
  {
    children := map[];
    var rest := among;
    while rest != {}
      invariant rest <= among && children == ChildrenOf(rows, among - rest)
      decreases rest
    {
      var pid := AnyOf(rest);
      var p := rows[pid].parent;
      OneMoreChild(rows, among - rest, pid);
      assert among - (rest - {pid}) == (among - rest) + {pid};
      children := children[p := Successors(children, p) + {pid}];
      rest := rest - {pid};
    }
    assert among - rest == among;
  }

  /** No process of the group a guard started is left. */
  ghost predicate IsGroupGone(rows: Table, root: int) {
    forall p :: p in rows ==> rows[p].group != root
  }

  lemma GroupIsGone(rows: Table, root: int)
    ensures (set p | p in rows && rows[p].group == root) == {} <==> IsGroupGone(rows, root)
  {
    var group := set p | p in rows && rows[p].group == root;
    if group != {} {
      var p := Member(group);
    }
    assert forall p :: p in rows && rows[p].group == root ==> p in group;
  }

  class Tree {
    const root: int
    var seen: map<int, string>
    var originalGroupGone: bool

    constructor (pid: int)
      ensures root == pid && seen == map[] && !originalGroupGone
    {
      root, seen, originalGroupGone := pid, map[], false;
    }

    /** The workload's processes now; those found are known at the next sample wherever they have moved. */
    method Owned(rows: Table) returns (owned: set<int>)
      modifies this
      ensures owned == Family(rows, root, old(seen))
      ensures seen == StartsOf(rows, owned)
      ensures originalGroupGone == (old(originalGroupGone) || IsGroupGone(rows, root))
    {
      var group := set p | p in rows && rows[p].group == root;
      if group == {} {
        originalGroupGone := true;
      }
      GroupIsGone(rows, root);
      var known := set p | p in seen && p in rows && rows[p].start == seen[p];
      assert group + known == Seeds(rows, root, seen);
      owned := Follow(rows, group + known);
      assert owned == Family(rows, root, seen);
      seen := StartsOf(rows, owned);
    }
  }

  /** The known processes and all that their child links lead to. */
  method Follow(rows: Table, known: set<int>) returns (owned: set<int>)
    requires known <= rows.Keys
    ensures owned == set p | p in rows && ReachedFrom(ChildrenOf(rows, rows.Keys), known, p)
  {
    var children := IndexChildren(rows, rows.Keys);
    var pending := known;
    owned := known;
    forall p | p in owned
      ensures ReachedFrom(children, known, p)
    {
      ReachesItself(children, p);
    }
    while pending != {}
      invariant known <= owned <= rows.Keys && pending <= owned
      invariant forall p :: p in owned - pending ==> Successors(children, p) <= owned
      invariant forall p :: p in owned ==> ReachedFrom(children, known, p)
      decreases rows.Keys - owned, pending
    {
      var pid := AnyOf(pending);
      var found := Successors(children, pid) - owned;
      NextAreReached(children, known, pid, found);
      owned, pending := owned + found, pending - {pid} + found;
    }
    ReachedIsLeast(children, known, owned);
  }

  lemma NextAreReached(g: Graph<int>, seeds: set<int>, p: int, found: set<int>)
    requires ReachedFrom(g, seeds, p) && found <= Successors(g, p)
    ensures forall c :: c in found ==> ReachedFrom(g, seeds, c)
  {
    var a := RootOf(g, seeds, p);
    forall c | c in found
      ensures ReachedFrom(g, seeds, c)
    {
      ReachesNext(g, a, p, c);
    }
  }

  lemma SeedsAreReached(g: Graph<int>, seeds: set<int>)
    ensures forall p :: p in seeds ==> ReachedFrom(g, seeds, p)
  {
    forall p | p in seeds
      ensures ReachedFrom(g, seeds, p)
    {
      ReachesItself(g, p);
    }
  }

  lemma ChildrenAmong(rows: Table, among: set<int>, p: int)
    requires among <= rows.Keys
    ensures Successors(ChildrenOf(rows, among), p) <= among
  {
  }

  /** The owned processes no running sub-admission covers. */
  method OutsideLeaves(rows: Table, owned: set<int>, roots: set<int>) returns (outside: set<int>)
    requires owned <= rows.Keys
    ensures outside == owned - Covered(rows, owned, roots)
  {
    hide ReachedFrom, ChildrenOf;
    var children := IndexChildren(rows, owned);
    ghost var seeds := roots * owned;
    var covered, pending := {}, roots * owned;
    SeedsAreReached(children, seeds);
    while pending != {}
      invariant seeds <= covered + pending <= owned
      invariant forall p :: p in covered ==> Successors(children, p) <= covered + pending
      invariant forall p :: p in covered + pending ==> ReachedFrom(children, seeds, p)
      decreases owned - covered, pending
    {
      var pid := AnyOf(pending);
      pending := pending - {pid};
      if pid !in covered {
        NextAreReached(children, seeds, pid, Successors(children, pid));
        ChildrenAmong(rows, owned, pid);
        covered, pending := covered + {pid}, pending + Successors(children, pid);
      }
    }
    assert covered + pending == covered;
    assert forall p :: p in covered ==> Successors(children, p) <= covered && ReachedFrom(children, seeds, p);
    assert Closed(children, covered) && seeds <= covered;
    ReachedIsLeast(children, seeds, covered);
    outside := owned - covered;
  }

  /** More than `jobs` Zig compiler invocations at work. */
  method ParallelZig(rows: Table, owned: set<int>, names: set<string>, jobs: nat) returns (parallel: bool)
    requires owned <= rows.Keys
    ensures parallel <==> IsParallel(rows, owned, names, jobs)
  {
    var invocations := InvocationsOf(rows, owned, names);
    var ancestors := {};
    var rest := invocations;
    while rest != {}
      invariant rest <= invocations && ancestors <= owned
      invariant forall a :: a in ancestors ==> exists q :: q in invocations && Above(rows, owned, a, q)
      invariant Closed(ParentsOf(rows, owned), ancestors)
      invariant forall p :: p in invocations - rest ==> Successors(ParentsOf(rows, owned), p) <= ancestors
      decreases rest
    {
      var pid := AnyOf(rest);
      ancestors := Climb(rows, owned, pid, invocations, ancestors);
      rest := rest - {pid};
    }
    forall p, q | q in invocations && Above(rows, owned, p, q)
      ensures p in ancestors
    {
      var up := ParentsOf(rows, owned);
      var a := RootOf(up, Successors(up, q), p);
      ClosedHoldsReached(up, ancestors, a, p);
    }
    forall p | p in invocations
      ensures p in ancestors <==> exists q :: q in invocations && Above(rows, owned, p, q)
    {
    }
    assert invocations - ancestors == Working(rows, owned, names);
    parallel := |invocations - ancestors| > jobs;
    WorkingIsParallel(rows, owned, names, jobs);
  }

  method Climb(rows: Table, owned: set<int>, pid: int, ghost invocations: set<int>, before: set<int>)
      returns (ancestors: set<int>)
    requires pid in invocations && invocations <= owned <= rows.Keys && before <= owned
    requires forall a :: a in before ==> exists q :: q in invocations && Above(rows, owned, a, q)
    requires Closed(ParentsOf(rows, owned), before)
    ensures before <= ancestors <= owned
    ensures forall a :: a in ancestors ==> exists q :: q in invocations && Above(rows, owned, a, q)
    ensures Closed(ParentsOf(rows, owned), ancestors)
    ensures Successors(ParentsOf(rows, owned), pid) <= ancestors
  {
    ghost var up := ParentsOf(rows, owned);
    ancestors := before;
    var parent := rows[pid].parent;
    if parent in owned {
      ReachesItself(up, parent);
    }
    while parent in owned && parent !in ancestors
      invariant before <= ancestors <= owned
      invariant parent in owned ==> Above(rows, owned, parent, pid)
      invariant forall a :: a in ancestors ==> a in before || Above(rows, owned, a, pid)
      invariant forall a :: a in ancestors ==> Successors(up, a) <= ancestors + {parent}
      invariant Successors(up, pid) <= ancestors + {parent}
      decreases owned - ancestors
    {
      ancestors := ancestors + {parent};
      if rows[parent].parent in owned {
        NextAreReached(up, Successors(up, pid), parent, {rows[parent].parent});
      }
      parent := rows[parent].parent;
    }
  }

  // --- Compilers side by side ---

  /** n parent links lead from p to a. */
  ghost predicate IsUp(rows: Table, owned: set<int>, p: int, n: nat, a: int)
    requires owned <= rows.Keys
    decreases n
  {
    if n == 0 then a == p
    else p in owned && rows[p].parent in owned && IsUp(rows, owned, rows[p].parent, n - 1, a)
  }

  lemma {:induction false} WalkIsUp(rows: Table, owned: set<int>, w: seq<int>)
    requires owned <= rows.Keys && Walk(ParentsOf(rows, owned), w)
    ensures IsUp(rows, owned, w[0], |w| - 1, w[|w| - 1])
  {
    if |w| > 1 {
      assert w[0 + 1] in Successors(ParentsOf(rows, owned), w[0]);
      WalkIsUp(rows, owned, w[1..]);
    }
  }

  lemma {:induction false} UpReaches(rows: Table, owned: set<int>, p: int, n: nat, a: int)
    requires owned <= rows.Keys && IsUp(rows, owned, p, n, a)
    ensures Reaches(ParentsOf(rows, owned), p, a)
    decreases n
  {
    if n == 0 {
      ReachesItself(ParentsOf(rows, owned), p);
    } else {
      UpReaches(rows, owned, rows[p].parent, n - 1, a);
      ReachesFirst(ParentsOf(rows, owned), p, rows[p].parent, a);
    }
  }

  lemma AboveIsUp(rows: Table, owned: set<int>, a: int, p: int) returns (n: nat)
    requires owned <= rows.Keys && Above(rows, owned, a, p)
    ensures n > 0 && IsUp(rows, owned, p, n, a)
  {
    var up := ParentsOf(rows, owned);
    var b := RootOf(up, Successors(up, p), a);
    var w :| Walk(up, w) && w[0] == b && w[|w| - 1] == a;
    WalkIsUp(rows, owned, w);
    n := |w|;
  }

  lemma UpIsAbove(rows: Table, owned: set<int>, p: int, n: nat, a: int)
    requires owned <= rows.Keys && n > 0 && IsUp(rows, owned, p, n, a)
    ensures Above(rows, owned, a, p)
  {
    UpReaches(rows, owned, rows[p].parent, n - 1, a);
    assert rows[p].parent in Successors(ParentsOf(rows, owned), p);
  }

  lemma {:induction false} UpGoesOn(rows: Table, owned: set<int>, p: int, n: nat, a: int, m: nat, b: int)
    requires owned <= rows.Keys && IsUp(rows, owned, p, n, a)
    ensures IsUp(rows, owned, p, n + m, b) <==> IsUp(rows, owned, a, m, b)
    decreases n
  {
    if n > 0 {
      UpGoesOn(rows, owned, rows[p].parent, n - 1, a, m, b);
    }
  }

  lemma AtOrAboveIsUp(rows: Table, owned: set<int>, a: int, w: int) returns (n: nat)
    requires owned <= rows.Keys && (a == w || Above(rows, owned, a, w))
    ensures IsUp(rows, owned, w, n, a)
  {
    if a == w {
      n := 0;
    } else {
      n := AboveIsUp(rows, owned, a, w);
    }
  }

  /** Of two processes at or above a third one is at or above the other. */
  lemma OneChain(rows: Table, owned: set<int>, a: int, b: int, w: int)
    requires owned <= rows.Keys && a != b
    requires a == w || Above(rows, owned, a, w)
    requires b == w || Above(rows, owned, b, w)
    ensures Above(rows, owned, a, b) || Above(rows, owned, b, a)
  {
    var n := AtOrAboveIsUp(rows, owned, a, w);
    var m := AtOrAboveIsUp(rows, owned, b, w);
    if n <= m {
      UpGoesOn(rows, owned, w, n, a, m - n, b);
      UpIsAbove(rows, owned, a, m - n, b);
    } else {
      UpGoesOn(rows, owned, w, m, b, n - m, a);
      UpIsAbove(rows, owned, b, n - m, a);
    }
  }

  lemma AboveAbove(rows: Table, owned: set<int>, a: int, b: int, c: int)
    requires owned <= rows.Keys && Above(rows, owned, a, b) && Above(rows, owned, b, c)
    ensures Above(rows, owned, a, c)
  {
    var n := AboveIsUp(rows, owned, a, b);
    var m := AboveIsUp(rows, owned, b, c);
    UpGoesOn(rows, owned, c, m, b, n, a);
    UpIsAbove(rows, owned, c, m + n, a);
  }

  /** What is above a process on a cycle is on that cycle. */
  lemma AboveACycle(rows: Table, owned: set<int>, a: int, q: int)
    requires owned <= rows.Keys && Above(rows, owned, a, q) && Above(rows, owned, q, q)
    ensures Above(rows, owned, a, a)
  {
    var n := AboveIsUp(rows, owned, a, q);
    var m := AboveIsUp(rows, owned, q, q);
    UpGoesOn(rows, owned, q, m, q, n, a);
    UpGoesOn(rows, owned, q, n, a, m, a);
    UpIsAbove(rows, owned, a, m, a);
  }

  ghost function Below(rows: Table, owned: set<int>, all: set<int>, a: int): set<int>
    requires owned <= rows.Keys
  {
    set q | q in all && Above(rows, owned, a, q)
  }

  /** Below an invocation that is on no cycle, or there itself, is one that supervises none. */
  lemma {:induction false} SomeoneWorks(rows: Table, owned: set<int>, names: set<string>, a: int) returns (w: int)
    requires owned <= rows.Keys && a in InvocationsOf(rows, owned, names) && !Above(rows, owned, a, a)
    ensures w in Working(rows, owned, names) && (w == a || Above(rows, owned, a, w))
    decreases Below(rows, owned, InvocationsOf(rows, owned, names), a)
  {
    hide Above, InvocationsOf;
    var all := InvocationsOf(rows, owned, names);
    if Below(rows, owned, all, a) == {} {
      w := a;
      assert forall q :: q in all && Above(rows, owned, a, q) ==> q in Below(rows, owned, all, a);
    } else {
      var q := Member(Below(rows, owned, all, a));
      if Above(rows, owned, q, q) {
        AboveACycle(rows, owned, a, q);
      }
      forall x | x in Below(rows, owned, all, q)
        ensures x in Below(rows, owned, all, a)
      {
        AboveAbove(rows, owned, a, q, x);
      }
      assert q in Below(rows, owned, all, a) && q !in Below(rows, owned, all, q);
      w := SomeoneWorks(rows, owned, names, q);
      if w != q {
        AboveAbove(rows, owned, a, q, w);
      }
    }
  }

  /** The working invocations at or below one. */
  ghost function WorkingUnder(rows: Table, owned: set<int>, names: set<string>, a: int): set<int>
    requires owned <= rows.Keys
  {
    set w | w in Working(rows, owned, names) && (w == a || Above(rows, owned, a, w))
  }

  lemma {:induction false} EachHasItsOwn(rows: Table, owned: set<int>, names: set<string>, s: set<int>, t: set<int>)
    requires owned <= rows.Keys && s <= InvocationsOf(rows, owned, names)
    requires forall a, b :: a in s && b in s ==> !Above(rows, owned, a, b)
    requires forall a :: a in s ==> WorkingUnder(rows, owned, names, a) <= t
    ensures |s| <= |t|
  {
    hide Above, InvocationsOf, Working;
    if s != {} {
      var a := Member(s);
      var w := SomeoneWorks(rows, owned, names, a);
      var under := WorkingUnder(rows, owned, names, a);
      forall b | b in s - {a}
        ensures WorkingUnder(rows, owned, names, b) <= t - under
      {
        forall x | x in WorkingUnder(rows, owned, names, b)
          ensures x in t - under
        {
          if x in under {
            OneChain(rows, owned, a, b, x);
          }
        }
      }
      EachHasItsOwn(rows, owned, names, s - {a}, t - under);
      assert w in under && t == (t - under) + under;
    }
  }

  lemma ZigMeans(rows: Table, owned: set<int>, names: set<string>, p: int)
    requires owned <= rows.Keys
    ensures p in ZigOf(rows, owned, names) <==> IsZig(rows, owned, names, p)
  {
    if p in owned && rows[p].name in set n | n in names :: Shown(n) {
      var n :| n in names && rows[p].name == Shown(n);
    }
    if n :| p in owned && n in names && |n| > 15 && rows[p].name == n[..15] {
      assert Shown(n) in set n | n in names :: Shown(n);
    }
  }

  lemma InvocationsMean(rows: Table, owned: set<int>, names: set<string>, s: set<int>)
    requires owned <= rows.Keys
    ensures IsIndependent(rows, owned, names, s) <==>
              && s <= InvocationsOf(rows, owned, names)
              && forall a, b :: a in s && b in s ==> !Above(rows, owned, a, b)
  {
    assert forall p :: IsZig(rows, owned, names, p) ==> p in owned;
    hide Above, IsZig, ZigOf;
    forall p
      ensures p in ZigOf(rows, owned, names) <==> IsZig(rows, owned, names, p)
    {
      ZigMeans(rows, owned, names, p);
    }
    forall a
      ensures a in InvocationsOf(rows, owned, names)
              <==> IsZig(rows, owned, names, a) && !IsZig(rows, owned, names, rows[a].parent)
    {
    }
    hide InvocationsOf;
  }

  /** Counting the invocations that supervise none finds as many as there are side by side. */
  lemma WorkingIsParallel(rows: Table, owned: set<int>, names: set<string>, jobs: nat)
    requires owned <= rows.Keys
    ensures |Working(rows, owned, names)| > jobs <==> IsParallel(rows, owned, names, jobs)
  {
    hide Above, IsIndependent, InvocationsOf;
    var working := Working(rows, owned, names);
    if |working| > jobs {
      InvocationsMean(rows, owned, names, working);
    }
    if s :| IsIndependent(rows, owned, names, s) && |s| > jobs {
      InvocationsMean(rows, owned, names, s);
      EachHasItsOwn(rows, owned, names, s, working);
    }
  }

  /** Zig processes that are all started by Zig, but for one, are one invocation. */
  lemma OneCompilerIsNotParallel(rows: Table, owned: set<int>, names: set<string>, first: int, jobs: nat)
    requires owned <= rows.Keys && 1 <= jobs
    requires forall p :: IsZig(rows, owned, names, p) && p != first ==> IsZig(rows, owned, names, rows[p].parent)
    ensures !IsParallel(rows, owned, names, jobs)
  {
    hide Above, IsZig;
    forall s | IsIndependent(rows, owned, names, s)
      ensures |s| <= 1
    {
      forall p | p in s
        ensures p in {first}
      {
      }
      OnlyOne(s, first);
    }
  }

  lemma OnlyOne(s: set<int>, first: int)
    requires s <= {first}
    ensures |s| <= 1
  {
    if first in s {
      assert s == {first};
    }
  }

  /**
   Two compilers that Zig did not start are parallel for one job if neither is above the other or on a cycle of
   parent links; if Zig started all others, exactly then.
   */
  lemma TwoCompilersAreParallel(rows: Table, owned: set<int>, names: set<string>, a: int, b: int)
    requires owned <= rows.Keys && a != b && IsCompiler(rows, owned, names, a) && IsCompiler(rows, owned, names, b)
    ensures var apart := && !Above(rows, owned, a, b) && !Above(rows, owned, b, a)
                         && !Above(rows, owned, a, a) && !Above(rows, owned, b, b);
            && (apart ==> IsParallel(rows, owned, names, 1))
            && ((forall p :: IsCompiler(rows, owned, names, p) ==> p == a || p == b) ==>
                  (IsParallel(rows, owned, names, 1) <==> apart))
  {
    hide Above, IsZig;
    if !Above(rows, owned, a, b) && !Above(rows, owned, b, a) && !Above(rows, owned, a, a)
       && !Above(rows, owned, b, b) {
      assert IsIndependent(rows, owned, names, {a, b}) && |{a, b}| == 2;
    }
    if forall p :: IsCompiler(rows, owned, names, p) ==> p == a || p == b {
      forall s | IsIndependent(rows, owned, names, s) && |s| > 1
        ensures a in s && b in s
      {
        forall p | p in s
          ensures p in {a, b}
        {
          assert IsCompiler(rows, owned, names, p);
        }
        BothIn(s, a, b);
      }
    }
  }

  lemma BothIn(s: set<int>, a: int, b: int)
    requires s <= {a, b} && |s| > 1
    ensures a in s && b in s
  {
    if a !in s {
      OnlyOne(s, b);
    }
    if b !in s {
      OnlyOne(s, a);
    }
  }

  /** A tool that a Zig process starts, and that starts nothing, makes no difference. */
  lemma ToolsDoNotCount(rows: Table, owned: set<int>, names: set<string>, c: int, row: Row, jobs: nat)
    requires owned <= rows.Keys && c !in rows && IsZig(rows, owned, names, row.parent)
    requires IsZig(rows[c := row], owned + {c}, names, c)
    requires forall p :: p in owned ==> rows[p].parent != c
    ensures IsParallel(rows[c := row], owned + {c}, names, jobs) <==> IsParallel(rows, owned, names, jobs)
  {
    var more, all := rows[c := row], owned + {c};
    assert row.parent != c;
    forall p | p in owned
      ensures IsZig(more, all, names, p) <==> IsZig(rows, owned, names, p)
    {
    }
    hide IsZig;
    forall s
      ensures IsIndependent(more, all, names, s) <==> IsIndependent(rows, owned, names, s)
    {
      IndependentWithout(rows, owned, names, c, row, s);
    }
    hide IsIndependent;
  }

  lemma IndependentWithout(rows: Table, owned: set<int>, names: set<string>, c: int, row: Row, s: set<int>)
    requires owned <= rows.Keys && c !in rows && row.parent in owned && IsZig(rows, owned, names, row.parent)
    requires forall p :: p in owned ==> rows[p].parent != c
    requires forall p :: p in owned ==>
               (IsZig(rows[c := row], owned + {c}, names, p) <==> IsZig(rows, owned, names, p))
    ensures IsIndependent(rows[c := row], owned + {c}, names, s) <==> IsIndependent(rows, owned, names, s)
  {
    hide Above;
    var more, all := rows[c := row], owned + {c};
    assert forall p :: IsZig(rows, owned, names, p) ==> p in owned;
    assert forall p :: IsZig(more, all, names, p) ==> p in all;
    hide IsZig;
    if c in s {
      assert more[c].parent == row.parent;
    } else {
      forall a, b | a in owned && b in owned
        ensures Above(more, all, a, b) <==> Above(rows, owned, a, b)
      {
        AboveWithout(rows, owned, c, row, a, b);
      }
    }
  }

  lemma AboveWithout(rows: Table, owned: set<int>, c: int, row: Row, a: int, b: int)
    requires owned <= rows.Keys && c !in rows && a in owned && b in owned
    requires forall p :: p in owned ==> rows[p].parent != c
    ensures Above(rows[c := row], owned + {c}, a, b) <==> Above(rows, owned, a, b)
  {
    hide Above;
    if Above(rows, owned, a, b) {
      var n := AboveIsUp(rows, owned, a, b);
      UpWithout(rows, owned, c, row, b, n, a);
      UpIsAbove(rows[c := row], owned + {c}, b, n, a);
    }
    if Above(rows[c := row], owned + {c}, a, b) {
      var n := AboveIsUp(rows[c := row], owned + {c}, a, b);
      UpWithout(rows, owned, c, row, b, n, a);
      UpIsAbove(rows, owned, b, n, a);
    }
  }

  lemma {:induction false} UpWithout(rows: Table, owned: set<int>, c: int, row: Row, p: int, n: nat, a: int)
    requires owned <= rows.Keys && c !in rows && p in owned
    requires forall q :: q in owned ==> rows[q].parent != c
    ensures IsUp(rows[c := row], owned + {c}, p, n, a) <==> IsUp(rows, owned, p, n, a)
    decreases n
  {
    if n > 0 && rows[p].parent in owned {
      UpWithout(rows, owned, c, row, rows[p].parent, n - 1, a);
    }
  }

  // --- What the samples of one run have in common ---

  /** What a guard knows after these samples. */
  ghost function SeenAfter(samples: seq<Table>, root: int): map<int, string> {
    if samples == [] then map[] else
      var n := |samples| - 1;
      StartsOf(samples[n], Family(samples[n], root, SeenAfter(samples[..n], root)))
  }

  /** The same process in both samples, by pid and start. */
  predicate Same(r: Table, s: Table, p: int) {
    p in r && p in s && r[p].start == s[p].start
  }

  /**
   A process owned at one sample is owned as long as it lives, whatever happens to its parents and
   its group meanwhile.
   */
  lemma {:induction false} OwnedWhileItLives(samples: seq<Table>, root: int, i: nat, p: int)
    requires i < |samples| && p in Family(samples[i], root, SeenAfter(samples[..i], root))
    requires forall j :: i <= j < |samples| ==> Same(samples[i], samples[j], p)
    ensures p in SeenAfter(samples, root)
    decreases |samples|
  {
    var n := |samples| - 1;
    if i < n {
      assert samples[..n][..i] == samples[..i];
      OwnedWhileItLives(samples[..n], root, i, p);
      SeenStaysOwned(samples[n], root, SeenAfter(samples[..n], root), p);
      assert SeenAfter(samples[..n], root)[p] == samples[n - 1][p].start;
      assert Same(samples[i], samples[n - 1], p) && Same(samples[i], samples[n], p);
    }
  }

  lemma SeenStaysOwned(rows: Table, root: int, seen: map<int, string>, p: int)
    ensures p in seen && p in rows && rows[p].start == seen[p] ==> p in Family(rows, root, seen)
  {
    ReachesItself(ChildrenOf(rows, rows.Keys), p);
  }

  /** A child of an owned process is owned from the first sample that shows both. */
  lemma ChildrenAreOwned(rows: Table, root: int, seen: map<int, string>, p: int, c: int)
    requires p in Family(rows, root, seen) && c in rows && rows[c].parent == p
    ensures c in Family(rows, root, seen)
  {
    NextAreReached(ChildrenOf(rows, rows.Keys), Seeds(rows, root, seen), p, {c});
  }

  /**
   The workload is the least set that holds the processes of its group, those seen before under the same start, and
   the children of its own.
   */
  lemma FamilyIsLeast(rows: Table, root: int, seen: map<int, string>, t: set<int>)
    ensures forall p :: p in rows && (rows[p].group == root || (p in seen && rows[p].start == seen[p])) ==>
              p in Family(rows, root, seen)
    ensures forall p, c :: p in Family(rows, root, seen) && c in rows && rows[c].parent == p ==>
              c in Family(rows, root, seen)
    ensures && (forall p :: p in rows && (rows[p].group == root || (p in seen && rows[p].start == seen[p])) ==> p in t)
            && (forall p, c :: p in t && c in rows && rows[c].parent == p ==> c in t)
            ==> Family(rows, root, seen) <= t
  {
    forall p | p in Seeds(rows, root, seen)
      ensures p in Family(rows, root, seen)
    {
      ReachesItself(ChildrenOf(rows, rows.Keys), p);
    }
    forall p, c | p in Family(rows, root, seen) && c in rows && rows[c].parent == p
      ensures c in Family(rows, root, seen)
    {
      ChildrenAreOwned(rows, root, seen, p, c);
    }
    if && (forall p :: p in rows && (rows[p].group == root || (p in seen && rows[p].start == seen[p])) ==> p in t)
       && (forall p, c :: p in t && c in rows && rows[c].parent == p ==> c in t) {
      FamilyWithin(rows, root, seen, t);
    }
  }

  lemma FamilyWithin(rows: Table, root: int, seen: map<int, string>, t: set<int>)
    requires Seeds(rows, root, seen) <= t
    requires forall p, c :: p in t && c in rows && rows[c].parent == p ==> c in t
    ensures Family(rows, root, seen) <= t
  {
    var g := ChildrenOf(rows, rows.Keys);
    forall p | p in t
      ensures Successors(g, p) <= t
    {
      SuccessorsAreChildren(rows, rows.Keys, p);
      assert forall c :: c in Successors(g, p) ==> c in t;
    }
    forall p | p in Family(rows, root, seen)
      ensures p in t
    {
      assert ReachedFrom(g, Seeds(rows, root, seen), p);
      var a := RootOf(g, Seeds(rows, root, seen), p);
      ClosedHoldsReached(g, t, a, p);
    }
  }

  /**
   What the sub-admissions cover is the least set that holds their owned roots and the owned children of its own.
   */
  lemma CoveredIsLeast(rows: Table, owned: set<int>, roots: set<int>, t: set<int>)
    requires owned <= rows.Keys
    ensures Covered(rows, owned, roots) <= owned
        && forall p :: p in roots && p in owned ==> p in Covered(rows, owned, roots)
    ensures forall p, c :: p in Covered(rows, owned, roots) && c in owned && rows[c].parent == p ==>
              c in Covered(rows, owned, roots)
    ensures && (forall p :: p in roots && p in owned ==> p in t)
            && (forall p, c :: p in t && c in owned && rows[c].parent == p ==> c in t)
            ==> Covered(rows, owned, roots) <= t
  {
    var g := ChildrenOf(rows, owned);
    forall p | p in roots && p in owned
      ensures p in Covered(rows, owned, roots)
    {
      ReachesItself(g, p);
    }
    forall p, c | p in Covered(rows, owned, roots) && c in owned && rows[c].parent == p
      ensures c in Covered(rows, owned, roots)
    {
      SuccessorsAreChildren(rows, owned, p);
      NextAreReached(g, roots * owned, p, {c});
    }
    if && (forall p :: p in roots && p in owned ==> p in t)
       && (forall p, c :: p in t && c in owned && rows[c].parent == p ==> c in t) {
      CoveredWithin(rows, owned, roots, t);
    }
  }

  lemma CoveredWithin(rows: Table, owned: set<int>, roots: set<int>, t: set<int>)
    requires owned <= rows.Keys && roots * owned <= t
    requires forall p, c :: p in t && c in owned && rows[c].parent == p ==> c in t
    ensures Covered(rows, owned, roots) <= t
  {
    var g := ChildrenOf(rows, owned);
    forall p | p in t
      ensures Successors(g, p) <= t
    {
      SuccessorsAreChildren(rows, owned, p);
      assert forall c :: c in Successors(g, p) ==> c in t;
    }
    forall p | p in Covered(rows, owned, roots)
      ensures p in t
    {
      var a := RootOf(g, roots * owned, p);
      ClosedHoldsReached(g, t, a, p);
    }
  }
}
