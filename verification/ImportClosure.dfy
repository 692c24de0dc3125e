/**
 Which modules' kernel replays may be cached: those whose whole import closure is built by this
 package or the toolchain and has no cycle. `owned` stands for the look-up of a module's file on the search path.
 */
module ImportClosure {
  import opened Graphs

  type Imports = map<string, seq<string>>

  function ImportsOf(imports: Imports): Graph<string> {
    map m | m in imports :: set d | d in imports[m]
  }

  /** Every module that `m` is or imports, directly or not, is known and owned and imports itself in no way. */
  ghost predicate Eligible(imports: Imports, owned: string -> bool, m: string) {
    forall x :: Reaches(ImportsOf(imports), m, x) ==> x in imports && owned(x) && !OnCycle(ImportsOf(imports), x)
  }

  ghost function Names(s: seq<string>): set<string> {
    set m | m in s
  }

  /** The owned ones among the modules met so far, with what they import. */
  ghost predicate Collected(imports: Imports, owned: string -> bool, met: set<string>, pending: map<string,
      set<string>>) {
    && (forall m :: m in pending <==> m in met && m in imports && owned(m))
    && (forall m :: m in pending ==> pending[m] == Successors(ImportsOf(imports), m))
  }

  /** All modules an import map can lead to. */
  ghost function Mentioned(imports: Imports, candidates: seq<string>): set<string> {
    Names(candidates) + imports.Keys + set m, d | m in imports && d in imports[m] :: d
  }

  method Collect(imports: Imports, owned: string -> bool, candidates: seq<string>)
    returns (pending: map<string, set<string>>, ghost met: set<string>)
    ensures Collected(imports, owned, met, pending)
    ensures Closed(ImportsOf(imports), met) && forall m :: m in candidates ==> m in met
  {
    ghost var g := ImportsOf(imports);
    var required := candidates;
    var seen: set<string> := {};
    pending := map[];
    while required != []
      invariant forall m :: m in candidates ==> m in seen || m in required
      invariant forall m, d :: m in seen && d in Successors(g, m) ==> d in seen || d in required
      invariant seen + Names(required) <= Mentioned(imports, candidates)
      invariant Collected(imports, owned, seen, pending)
      decreases Mentioned(imports, candidates) - seen, |required|
    {
      var m := required[|required| - 1];
      var others := required[..|required| - 1];
      assert required == others + [m];
      required := others;
      if m !in seen {
        seen := seen + {m};
        if m in imports {
          required := required + imports[m];
          if owned(m) {
            pending := pending[m := set d | d in imports[m]];
          }
        }
      }
    }
    met := seen;
  }

  // --- Rounds ---

  /** Approved modules import only approved ones, and none of them is on a cycle. */
  ghost predicate Sound(g: Graph<string>, approved: set<string>) {
    Closed(g, approved) && forall m :: m in approved ==> !OnCycle(g, m)
  }

  lemma ReadyIsSound(g: Graph<string>, approved: set<string>, ready: set<string>)
    requires Sound(g, approved) && approved !! ready
    requires forall m :: m in ready ==> Successors(g, m) <= approved
    ensures Sound(g, approved + ready)
  {
    forall m | m in ready
      ensures !OnCycle(g, m)
    {
      if OnCycle(g, m) {
        var a := RootOf(g, Successors(g, m), m);
        ClosedHoldsReached(g, approved, a, m);
      }
    }
  }

  method Approve(g: Graph<string>, collected: map<string, set<string>>) returns (approved: set<string>)
    requires forall m :: m in collected ==> collected[m] == Successors(g, m)
    ensures approved <= collected.Keys && Sound(g, approved)
    ensures forall m :: m in collected && collected[m] <= approved ==> m in approved
  {
    var pending := collected;
    approved := {};
    while pending != map[]
      invariant approved !! pending.Keys && approved + pending.Keys == collected.Keys
      invariant forall m :: m in pending ==> pending[m] == Successors(g, m)
      invariant Sound(g, approved)
      decreases pending.Keys
    {
      var ready := set m | m in pending && pending[m] <= approved;
      if ready == {} {
        break;
      }
      ReadyIsSound(g, approved, ready);
      approved := approved + ready;
      pending := pending - ready;
    }
  }

  /** What the rounds leave out leads to something missing, foreign or cyclic. */
  lemma LeftOutIsIneligible(imports: Imports, owned: string -> bool, met: set<string>, collected: map<string,
      set<string>>,
                            approved: set<string>, m: string)
    requires Collected(imports, owned, met, collected) && Closed(ImportsOf(imports), met)
    requires forall x :: x in collected && collected[x] <= approved ==> x in approved
    requires m in met && m !in approved
    ensures !Eligible(imports, owned, m)
  {
    var g := ImportsOf(imports);
    if Eligible(imports, owned, m) {
      var left := set x | x in met && x !in approved && Reaches(g, m, x);
      ReachesItself(g, m);
      forall x | x in left
        ensures Successors(g, x) * left != {}
      {
        assert x in collected;
        var d := MemberNotIn(collected[x], approved);
        ReachesNext(g, m, x, d);
        assert d in Successors(g, x) * left;
      }
      var n := NoWayOutIsCycle(g, left, [m]);
    }
  }

  lemma MemberNotIn(s: set<string>, t: set<string>) returns (d: string)
    requires !(s <= t)
    ensures d in s && d !in t
  {
    d :| d in s && d !in t;
  }

  /** An approved module's whole closure is approved. */
  lemma ApprovedIsEligible(imports: Imports, owned: string -> bool, met: set<string>, collected: map<string,
      set<string>>,
                           approved: set<string>, m: string)
    requires Collected(imports, owned, met, collected)
    requires approved <= collected.Keys && Sound(ImportsOf(imports), approved) && m in approved
    ensures Eligible(imports, owned, m)
  {
    forall x | Reaches(ImportsOf(imports), m, x)
      ensures x in approved
    {
      ClosedHoldsReached(ImportsOf(imports), approved, m, x);
    }
  }

  /** Exactly the candidates whose whole import closure is owned and free of cycles. */
  method CacheableModules(imports: Imports, owned: string -> bool, candidates: seq<string>) returns (r: set<string>)
    ensures forall m :: m in r <==> m in candidates && Eligible(imports, owned, m)
  {
    if candidates == [] {
      return {};
    }
    var collected, met := Collect(imports, owned, candidates);
    var approved := Approve(ImportsOf(imports), collected);
    forall m | m in candidates
      ensures m in approved <==> Eligible(imports, owned, m)
    {
      if m in approved {
        ApprovedIsEligible(imports, owned, met, collected, approved, m);
      } else {
        LeftOutIsIneligible(imports, owned, met, collected, approved, m);
      }
    }
    r := set m | m in candidates && m in approved;
  }
}
