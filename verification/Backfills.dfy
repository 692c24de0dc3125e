/**
 Running ahead of the queue head, over every interleaving: what a backfill leaves for the head when it is admitted,
 and from when on the head lets nobody ahead.
 */
module Backfills {
  import opened Wrappers
  import opened Registries
  import opened Charge
  import opened Machine
  import opened Worlds
  import opened LockBooks
  import opened Bounds
  import opened Phases
  import opened Workspaces
  import opened Heads
  import opened Reservations
  import opened Safety

  // --- Slots that no admitted guard holds ---

  ghost predicate IsCommitted(w: World, k: nat) {
    k in w.sh.locks.slots && w.sh.locks.slots[k] in w.guards && IsAdmitted(w.guards[w.sh.locks.slots[k]].phase)
  }

  /** Free, or held by a guard that is still collecting. */
  ghost function Uncommitted(w: World): set<nat> {
    set k: nat | k < w.sh.capacity && !IsCommitted(w, k)
  }

  // --- A backfill on its way ---

  /** Its slots are together and it has not been admitted yet. */
  predicate HasPassedScan(p: Phase) {
    match p
    case Surplus(path) => path.AsBackfill?
    case Judging(path) => path.AsBackfill?
    case Publishing(path) => path.AsBackfill?
    case _ => false
  }

  /** What an attempt asks for: its weight, and what the heads reserved when it read their entries. */
  ghost predicate OfferOk(g: Guard) {
    match g.phase
    case Offering(want, need) => g.weight <= want < need
    case TakingMain(path) => path.AsBackfill? ==> g.weight <= path.want < path.need
    case Scanning(path, _) => path.AsBackfill? ==> g.weight <= path.want < path.need
    case Surplus(path) => path.AsBackfill? ==> g.weight <= path.want < path.need && |g.held| < path.need
    case Registering(path) => path.AsBackfill? ==> g.weight <= path.want < path.need
    case Judging(path) => path.AsBackfill? ==> g.weight <= path.want < path.need
    case Publishing(path) => path.AsBackfill? ==> g.weight <= path.want < path.need
    case Admitted(path) => path.AsBackfill? ==> g.weight <= path.want < path.need
    case _ => true
  }

  lemma InsideKeepsOffer(sh: Shared, g: Guard)
    requires OfferOk(g) && g.naming.None? && Inside(g.phase) && !IsLast(g.phase)
    ensures OfferOk(Advance(sh, g).g)
  {
    hide MyTurn, NewName, Reserve, ElasticRoom, WithinBound, Excess;
  }

  lemma LastKeepsOffer(sh: Shared, g: Guard)
    requires OfferOk(g) && g.naming.None? && IsLast(g.phase)
    ensures OfferOk(Advance(sh, g).g)
  {
    hide NewName, Withdraw, ElasticRoom, WithinBound, GiveBack, LetCollect, HoldsLock;
  }

  lemma OutsideKeepsOffer(sh: Shared, g: Guard)
    requires OfferOk(g) && (g.naming.Some? || !Inside(g.phase))
    ensures OfferOk(Advance(sh, g).g)
  {
    hide MyTurn, FirstInLine, NewName, Withdraw, ElasticRoom, WorkspaceOf, CloseLocks;
  }

  lemma PerformKeepsOffer(sh: Shared, g: Guard, a: Action)
    requires OfferOk(g) && Enabled(sh, g, a)
    ensures OfferOk(Perform(sh, g, a).g)
  {
    hide Advance, MyTurn, NewName, Withdraw, CloseLocks;
    if a.Advancing? {
      if g.naming.Some? || !Inside(g.phase) {
        OutsideKeepsOffer(sh, g);
      } else if IsLast(g.phase) {
        LastKeepsOffer(sh, g);
      } else {
        InsideKeepsOffer(sh, g);
      }
    }
  }

  // --- What a backfill leaves ---

  ghost predicate Spared(w: World, g: Guard) {
    && OfferOk(g)
    && (HasPassedScan(g.phase) ==> g.phase.path.want <= |Uncommitted(w)|)
    && (g.phase.Admitted? && g.phase.path.AsBackfill? && w.sh.locks.register == Some(g.id) ==>
          g.phase.path.want - g.weight <= |Uncommitted(w)|)
  }

  ghost predicate SparesOk(w: World) {
    forall id :: id in w.guards ==> Spared(w, w.guards[id])
  }

  /** The phases with a step that can admit. */
  predicate MayAdmit(p: Phase) {
    p.Draining? || p.Judging? || p.Publishing?
  }

  lemma AdvanceMayAdmit(sh: Shared, g: Guard)
    requires !IsAdmitted(g.phase) && IsAdmitted(Advance(sh, g).g.phase)
    ensures g.naming.None? && MayAdmit(g.phase)
  {
    AdvanceGoes(sh, g);
    hide Advance;
  }

  /** Only `register`, or `<lock>` to oneself, leads to an admission. */
  lemma AdmissionNeedsLocks(sh: Shared, g: Guard, a: Action)
    requires HoldsOk(sh.locks, g) && Enabled(sh, g, a) && !IsAdmitted(g.phase) && IsAdmitted(Perform(sh, g, a).g.phase)
    ensures a.Advancing? && Perform(sh, g, a).sh.locks.slots == sh.locks.slots && Perform(sh, g, a).g.held == g.held
    ensures if g.phase.Draining? then sh.locks.main.CanOwn() else sh.locks.register == Some(g.id)
    ensures MayAdmit(g.phase)
  {
    OnlyAdvancingAdmits(sh, g, a);
    AdvanceMayAdmit(sh, g);
    hide NewName, WithinBound, ElasticRoom, Excess;
  }

  lemma OnlyAdvancingAdmits(sh: Shared, g: Guard, a: Action)
    requires Enabled(sh, g, a) && !IsAdmitted(g.phase) && IsAdmitted(Perform(sh, g, a).g.phase)
    ensures a.Advancing?
  {
    hide Advance, NewName, Withdraw;
  }

  lemma AdvancingAdmittedTakesNone(sh: Shared, g: Guard)
    requires IsAdmitted(g.phase) && IsAdmitted(Advance(sh, g).g.phase)
    ensures Advance(sh, g).sh.locks.slots == sh.locks.slots
  {
    hide NewName, Withdraw;
  }

  /** An admitted guard takes no more slots. */
  lemma AdmittedTakesNone(sh: Shared, g: Guard, a: Action)
    requires Enabled(sh, g, a) && IsAdmitted(g.phase) && IsAdmitted(Perform(sh, g, a).g.phase)
    ensures Perform(sh, g, a).sh.locks.slots == sh.locks.slots
  {
    hide Advance, NewName, Withdraw;
    if a.Advancing? {
      AdvancingAdmittedTakesNone(sh, g);
    }
  }

  lemma SmallerSet(a: set<nat>, b: set<nat>)
    requires a <= b
    ensures |a| <= |b|
  {
    assert b == a + (b - a);
  }

  lemma CommittedBefore(w: World, id: Id, a: Action, k: nat)
    requires LocksOk(w) && CanMove(w, Act(id, a)) && IsCommitted(After(w, Act(id, a)), k)
    requires IsAdmitted(After(w, Act(id, a)).guards[id].phase) ==> IsAdmitted(w.guards[id].phase)
    ensures IsCommitted(w, k)
  {
    var g, b := w.guards[id], Perform(w.sh, w.guards[id], a);
    assert GuardOk(w.sh, g) && g.id == id;
    PerformKeeps(w.sh, g, a);
    hide Perform, Enabled;
    if b.sh.locks.slots[k] == id {
      AdmittedTakesNone(w.sh, g, a);
    }
  }

  /** Who admits no one frees slots at most. */
  lemma NothingMoreCommitted(w: World, id: Id, a: Action)
    requires LocksOk(w) && CanMove(w, Act(id, a))
    requires IsAdmitted(After(w, Act(id, a)).guards[id].phase) ==> IsAdmitted(w.guards[id].phase)
    ensures |Uncommitted(w)| <= |Uncommitted(After(w, Act(id, a)))|
  {
    var w' := After(w, Act(id, a));
    assert w'.sh.capacity == w.sh.capacity by {
      assert GuardOk(w.sh, w.guards[id]);
      PerformKeeps(w.sh, w.guards[id], a);
    }
    forall k: nat | k in Uncommitted(w)
      ensures k in Uncommitted(w')
    {
      if IsCommitted(w', k) {
        CommittedBefore(w, id, a, k);
      }
    }
    SmallerSet(Uncommitted(w), Uncommitted(w'));
  }

  /** An admission takes the guard's own slots and no others. */
  lemma AdmissionCommitsItsOwn(w: World, id: Id, a: Action)
    requires LocksOk(w) && CanMove(w, Act(id, a))
    requires IsAdmitted(After(w, Act(id, a)).guards[id].phase) && !IsAdmitted(w.guards[id].phase)
    ensures |Uncommitted(w)| - |w.guards[id].held| <= |Uncommitted(After(w, Act(id, a)))|
  {
    var w', g := After(w, Act(id, a)), w.guards[id];
    assert GuardOk(w.sh, g) && g.id == id && HoldsOk(w.sh.locks, g);
    PerformKeeps(w.sh, g, a);
    AdmissionNeedsLocks(w.sh, g, a);
    DistinctCount(g.held);
    forall k: nat | k in Uncommitted(w) && k !in SetOf(g.held)
      ensures k in Uncommitted(w')
    {
    }
    SmallerSet(Uncommitted(w) - SetOf(g.held), Uncommitted(w'));
    assert Uncommitted(w) <= (Uncommitted(w) - SetOf(g.held)) + SetOf(g.held);
    SmallerSet(Uncommitted(w), (Uncommitted(w) - SetOf(g.held)) + SetOf(g.held));
  }

  /** It holds `register` and reads `<lock>`, so nobody else is admitted meanwhile. */
  lemma NobodyElseIsAdmitted(w: World, id: Id, j: Id, a: Action)
    requires LocksOk(w) && id in w.guards && CanMove(w, Act(j, a)) && j != id
    requires w.sh.locks.register == Some(id) && id in w.sh.locks.main.readers
    ensures IsAdmitted(After(w, Act(j, a)).guards[j].phase) ==> IsAdmitted(w.guards[j].phase)
  {
    var g := w.guards[j];
    assert GuardOk(w.sh, g) && g.id == j;
    hide Perform, Enabled;
    if !IsAdmitted(g.phase) && IsAdmitted(Perform(w.sh, g, a).g.phase) {
      AdmissionNeedsLocks(w.sh, g, a);
    }
  }

  /** Under way with its slots, a backfill holds `register` and reads `<lock>`. */
  lemma PassedScanHolds(t: Locks, g: Guard)
    requires HoldsOk(t, g) && HasPassedScan(g.phase)
    ensures t.register == Some(g.id) && g.id in t.main.readers && g.weight <= |g.held| && Distinct(g.held)
    ensures !g.phase.Surplus? ==> |g.held| == g.weight
  {
  }

  lemma AdmittedHoldsMain(t: Locks, g: Guard)
    requires HoldsOk(t, g) && g.phase.Admitted? && g.phase.path.AsBackfill?
    ensures g.id in t.main.readers && |g.held| == g.weight
  {
  }

  lemma OthersStaySpared(w: World, id: Id, j: Id, a: Action)
    requires LocksOk(w) && id in w.guards && CanMove(w, Act(j, a)) && j != id && Spared(w, w.guards[id])
    ensures Spared(After(w, Act(j, a)), w.guards[id])
  {
    var g, w' := w.guards[id], After(w, Act(j, a));
    assert GuardOk(w.sh, g) && GuardOk(w.sh, w.guards[j]) && g.id == id && w.guards[j].id == j;
    PerformKeeps(w.sh, w.guards[j], a);
    assert w'.sh.locks.register == Some(id) ==> w.sh.locks.register == Some(id);
    hide Perform, Enabled, Uncommitted;
    if HasPassedScan(g.phase) {
      PassedScanHolds(w.sh.locks, g);
      NobodyElseIsAdmitted(w, id, j, a);
      NothingMoreCommitted(w, j, a);
    } else if g.phase.Admitted? && g.phase.path.AsBackfill? && w'.sh.locks.register == Some(id) {
      AdmittedHoldsMain(w.sh.locks, g);
      NobodyElseIsAdmitted(w, id, j, a);
      NothingMoreCommitted(w, j, a);
    }
  }

  /** How a backfill comes to have its slots together: its scan found enough, and not too many. */
  lemma PassedScanBefore(sh: Shared, g: Guard, a: Action)
    requires Enabled(sh, g, a) && HoldsOk(sh.locks, g) && HasPassedScan(Perform(sh, g, a).g.phase)
    ensures a.Advancing?
    ensures var g' := Perform(sh, g, a).g;
            || (HasPassedScan(g.phase) && g.phase.path == g'.phase.path)
            || (&& g.phase.Scanning? && g'.phase == Surplus(g.phase.path) && g'.held == g.held && g'.weight == g.weight
                && g.phase.path.want <= |g.held| < g.phase.path.need && Perform(sh, g, a).sh == sh)
  {
    OnlyAdvancingPasses(sh, g, a);
    AdvanceGoes(sh, g);
    if g.phase.Scanning? && g.naming.None? {
      ScanPasses(sh, g);
    }
    hide Advance;
  }

  lemma ScanPasses(sh: Shared, g: Guard)
    requires g.naming.None? && g.phase.Scanning? && HasPassedScan(Advance(sh, g).g.phase)
    ensures var g' := Advance(sh, g).g;
            && g.phase.path.AsBackfill? && g'.phase == Surplus(g.phase.path) && g'.held == g.held
            && g'.weight == g.weight
            && g.phase.path.want <= |g.held| < g.phase.path.need && Advance(sh, g).sh == sh
  {
    hide Reserve, Goal;
  }

  lemma OnlyAdvancingPasses(sh: Shared, g: Guard, a: Action)
    requires Enabled(sh, g, a) && HoldsOk(sh.locks, g) && HasPassedScan(Perform(sh, g, a).g.phase)
    ensures a.Advancing?
  {
    hide Advance, NewName, Withdraw, HoldsOk;
  }

  lemma HeldIsUncommitted(w: World, id: Id)
    requires LocksOk(w) && id in w.guards && !IsAdmitted(w.guards[id].phase)
    ensures |w.guards[id].held| <= |Uncommitted(w)|
  {
    var g := w.guards[id];
    assert GuardOk(w.sh, g) && HoldsOk(w.sh.locks, g);
    DistinctCount(g.held);
    forall k | k in SetOf(g.held)
      ensures k in Uncommitted(w)
    {
      HolderIs(w, id, k);
    }
    SmallerSet(SetOf(g.held), Uncommitted(w));
  }

  lemma PassedScanStaysSpared(w: World, id: Id, a: Action)
    requires LocksOk(w) && CanMove(w, Act(id, a)) && Spared(w, w.guards[id])
    requires HasPassedScan(After(w, Act(id, a)).guards[id].phase)
    ensures After(w, Act(id, a)).guards[id].phase.path.want <= |Uncommitted(After(w, Act(id, a)))|
  {
    var g := w.guards[id];
    assert GuardOk(w.sh, g);
    PassedScanBefore(w.sh, g, a);
    hide Perform, Enabled, Uncommitted;
    NothingMoreCommitted(w, id, a);
    if !HasPassedScan(g.phase) {
      HeldIsUncommitted(w, id);
    }
  }

  /** The step that admits a backfill, or one after it that leaves `register` locked. */
  lemma AdmittedBackfillBefore(sh: Shared, g: Guard, a: Action)
    requires Enabled(sh, g, a) && HoldsOk(sh.locks, g)
    requires var b := Perform(sh, g, a);
             b.g.phase.Admitted? && b.g.phase.path.AsBackfill? && b.sh.locks.register == Some(g.id)
    ensures a.Advancing? && sh.locks.register == Some(g.id) && Perform(sh, g, a).g.weight == g.weight
    ensures || Perform(sh, g, a).g.phase == g.phase
            || (HasPassedScan(g.phase) && !g.phase.Surplus? && Perform(sh, g, a).g.phase.path == g.phase.path)
  {
    OnlyAdvancingLeavesAdmitted(sh, g, a);
    AdvanceGoes(sh, g);
    hide NewName, Withdraw, ElasticRoom, WithinBound, Excess;
  }

  lemma OnlyAdvancingLeavesAdmitted(sh: Shared, g: Guard, a: Action)
    requires Enabled(sh, g, a) && Perform(sh, g, a).g.phase.Admitted?
    ensures a.Advancing?
  {
    hide Advance, NewName, Withdraw;
  }

  lemma AdmittedStaysSpared(w: World, id: Id, a: Action)
    requires LocksOk(w) && CanMove(w, Act(id, a)) && Spared(w, w.guards[id])
    requires var w' := After(w, Act(id, a));
             w'.guards[id].phase.Admitted? && w'.guards[id].phase.path.AsBackfill? && w'.sh.locks.register == Some(id)
    ensures var w' := After(w, Act(id, a)); w'.guards[id].phase.path.want - w'.guards[id].weight <= |Uncommitted(w')|
  {
    var g := w.guards[id];
    assert GuardOk(w.sh, g) && g.id == id;
    AdmittedBackfillBefore(w.sh, g, a);
    hide Perform, Enabled, Uncommitted;
    if HasPassedScan(g.phase) {
      PassedScanHolds(w.sh.locks, g);
      AdmissionCommitsItsOwn(w, id, a);
    } else {
      NothingMoreCommitted(w, id, a);
    }
  }

  lemma ActKeepsSpares(w: World, id: Id, a: Action)
    requires LocksOk(w) && SparesOk(w) && CanMove(w, Act(id, a))
    ensures SparesOk(After(w, Act(id, a)))
  {
    hide Perform, Enabled, Uncommitted, LocksOk, OfferOk;
    var w' := After(w, Act(id, a));
    PerformKeepsOffer(w.sh, w.guards[id], a);
    ActKeepsId(w, id, a);
    forall j | j in w'.guards
      ensures Spared(w', w'.guards[j])
    {
      if j != id {
        OthersStaySpared(w, j, id, a);
      } else {
        if HasPassedScan(w'.guards[id].phase) {
          PassedScanStaysSpared(w, id, a);
        }
        if w'.guards[id].phase.Admitted? && w'.guards[id].phase.path.AsBackfill? && w'.sh.locks.register == Some(id) {
          AdmittedStaysSpared(w, id, a);
        }
      }
    }
  }

  lemma ActKeepsId(w: World, id: Id, a: Action)
    requires LocksOk(w) && CanMove(w, Act(id, a))
    ensures After(w, Act(id, a)).guards[id].id == id
  {
    assert GuardOk(w.sh, w.guards[id]);
    PerformKeeps(w.sh, w.guards[id], a);
  }

  lemma MoveKeepsSpares(w: World, m: Move)
    requires LocksOk(w) && SparesOk(w) && CanMove(w, m)
    ensures SparesOk(After(w, m))
  {
    match m
    case Tick(_) => SameUncommitted(w, After(w, m));
    case Arrive(id, a) =>
      forall k: nat
        ensures IsCommitted(w, k) <==> IsCommitted(After(w, m), k)
      {
      }
      SameUncommitted(w, After(w, m));
    case Act(id, a) => ActKeepsSpares(w, id, a);
  }

  lemma SameUncommitted(w: World, w': World)
    requires w'.sh.capacity == w.sh.capacity && forall k: nat :: IsCommitted(w, k) <==> IsCommitted(w', k)
    ensures Uncommitted(w') == Uncommitted(w)
  {
  }

  lemma {:induction false} ReachableSpares(capacity: nat, clock: nat, w: World, n: nat)
    requires 1 <= capacity && ReachableIn(capacity, clock, w, n)
    ensures SparesOk(w)
    decreases n
  {
    if n > 0 {
      var v :| ReachableIn(capacity, clock, v, n - 1) && Moves(v, w);
      ReachableSpares(capacity, clock, v, n - 1);
      ReachableInIsSound(capacity, clock, v, n - 1);
      var m :| CanMove(v, m) && w == After(v, m);
      MoveKeepsSpares(v, m);
    }
  }

  // --- One backfill, among the moves of all guards ---

  /** Under way with one reading of the reservations, up to its admission. */
  predicate IsOnItsWay(p: Phase, want: nat, need: nat) {
    var path := AsBackfill(want, need);
    || p == Offering(want, need) || p == TakingMain(path) || (p.Scanning? && p.path == path)
    || p == Surplus(path) || p == Judging(path) || p == Publishing(path) || p == Admitted(path)
  }

  /** Its scan has found enough slots. */
  predicate IsLate(p: Phase) {
    HasPassedScan(p) || p.Admitted?
  }

  /** The scan's verdict: the reservations stay free besides its weight, the head could not be admitted now. */
  ghost predicate IsTested(w: World, id: Id, want: nat, need: nat) {
    id in w.guards && w.guards[id].phase == Surplus(AsBackfill(want, need)) && want <= |w.guards[id].held| < need
  }

  /** A run from the moment a guard reads the reservations to the moment that makes it admitted. */
  ghost predicate IsBackfill(t: seq<World>, id: Id, want: nat, need: nat) {
    && |t| > 2 && Reachable(t[0]) && IsRun(t)
    && CanMove(t[0], Act(id, Backfilling)) && t[1] == After(t[0], Act(id, Backfilling))
    && (forall i :: 1 <= i < |t| ==> id in t[i].guards && IsOnItsWay(t[i].guards[id].phase, want, need))
    && !t[|t| - 2].guards[id].phase.Admitted? && t[|t| - 1].guards[id].phase.Admitted?
  }

  lemma AdvanceOnItsWay(sh: Shared, g: Guard, want: nat, need: nat)
    requires IsOnItsWay(g.phase, want, need) && IsOnItsWay(Advance(sh, g).g.phase, want, need)
    ensures Advance(sh, g).g.weight == g.weight
    ensures !IsLate(g.phase) && IsLate(Advance(sh, g).g.phase) ==>
              var g' := Advance(sh, g).g; g'.phase == Surplus(AsBackfill(want, need)) && want <= |g'.held| < need
  {
    AdvanceGoes(sh, g);
    if g.phase.Scanning? && g.naming.None? && HasPassedScan(Advance(sh, g).g.phase) {
      ScanPasses(sh, g);
    }
    WeightOnItsWay(sh, g, want, need);
    hide Advance;
  }

  lemma WeightOnItsWay(sh: Shared, g: Guard, want: nat, need: nat)
    requires IsOnItsWay(g.phase, want, need) && IsOnItsWay(Advance(sh, g).g.phase, want, need)
    ensures Advance(sh, g).g.weight == g.weight
  {
    hide NewName, Withdraw, Reserve, LetCollect;
  }

  lemma OnlyAdvancingStaysOnItsWay(sh: Shared, g: Guard, a: Action, want: nat, need: nat)
    requires Enabled(sh, g, a) && IsOnItsWay(g.phase, want, need) && IsOnItsWay(Perform(sh, g, a).g.phase, want, need)
    ensures a.Advancing?
  {
    hide Advance, NewName, Withdraw;
  }

  lemma MoveOnItsWay(v: World, w: World, id: Id, want: nat, need: nat)
    requires Moves(v, w) && id in v.guards && id in w.guards
    requires IsOnItsWay(v.guards[id].phase, want, need) && IsOnItsWay(w.guards[id].phase, want, need)
    ensures w.guards[id].weight == v.guards[id].weight
    ensures !IsLate(v.guards[id].phase) && IsLate(w.guards[id].phase) ==> IsTested(w, id, want, need)
  {
    var m :| CanMove(v, m) && w == After(v, m);
    if m.Act? && m.id == id {
      OnlyAdvancingStaysOnItsWay(v.sh, v.guards[id], m.action, want, need);
      AdvanceOnItsWay(v.sh, v.guards[id], want, need);
    }
    hide Advance;
  }

  lemma {:induction false} TestedBefore(t: seq<World>, id: Id, want: nat, need: nat, i: nat)
    requires IsBackfill(t, id, want, need) && 1 <= i < |t|
    ensures id in t[0].guards && t[i].guards[id].weight == t[0].guards[id].weight
    ensures IsLate(t[i].guards[id].phase) ==> exists k :: 1 <= k <= i && IsTested(t[k], id, want, need)
  {
    hide After, CanMove, Reachable, Moves;
    if i == 1 {
      StartsOnItsWay(t[0], id);
    } else {
      TestedBefore(t, id, want, need, i - 1);
      MoveOnItsWay(t[i - 1], t[i - 1 + 1], id, want, need);
    }
  }

  lemma StartsOnItsWay(w: World, id: Id)
    requires CanMove(w, Act(id, Backfilling))
    ensures var g := After(w, Act(id, Backfilling)).guards[id];
            && id in w.guards && g.weight == w.guards[id].weight && !IsLate(g.phase)
            && g.phase == Offering(g.weight + Unmet(w.sh.heads), LargestNeed(w.sh.heads))
  {
  }

  lemma {:induction false} SoundAlong(t: seq<World>, i: nat)
    requires IsRun(t) && i < |t| && Reachable(t[0])
    ensures Sound(t[i]) && SparesOk(t[i])
  {
    hide Sound, SparesOk, Moves, ReachableIn, LocksOk, EntriesOk, LanesOk, WorkspacesOk, HeadsOk;
    if i == 0 {
      ReachableIsSpared(t[0]);
    } else {
      SoundAlong(t, i - 1);
      MoveIsSound(t[i - 1], t[i - 1 + 1]);
      NextIsSpared(t[i - 1], t[i - 1 + 1]);
    }
  }

  lemma ReachableIsSpared(w: World)
    requires Reachable(w)
    ensures Sound(w) && SparesOk(w)
  {
    hide Sound, SparesOk;
    var capacity: nat, clock: nat, n: nat :| 1 <= capacity && ReachableIn(capacity, clock, w, n);
    ReachableInIsSound(capacity, clock, w, n);
    ReachableSpares(capacity, clock, w, n);
  }

  lemma NextIsSpared(v: World, w: World)
    requires Sound(v) && SparesOk(v) && Moves(v, w)
    ensures SparesOk(w)
  {
    var m :| CanMove(v, m) && w == After(v, m);
    hide After, CanMove, SparesOk;
    MoveKeepsSpares(v, m);
  }

  /** At the moment a backfill becomes admitted it still holds `register`. */
  lemma AdmittedUnderRegister(v: World, w: World, id: Id, want: nat, need: nat)
    requires LocksOk(v) && LocksOk(w) && SparesOk(w) && Moves(v, w) && id in v.guards && id in w.guards
    requires IsOnItsWay(v.guards[id].phase, want, need) && !v.guards[id].phase.Admitted?
    requires w.guards[id].phase == Admitted(AsBackfill(want, need))
    ensures |w.guards[id].held| == w.guards[id].weight && want - w.guards[id].weight <= |Uncommitted(w)|
  {
    hide Fits, SlotsOk, WeightOk, OfferOk;
    var m :| CanMove(v, m) && w == After(v, m);
    var g := v.guards[id];
    assert GuardOk(v.sh, g) && g.id == id && GuardOk(w.sh, w.guards[id]) && w.guards[id].id == id;
    assert Spared(w, w.guards[id]);
    AdmittedHoldsMain(w.sh.locks, w.guards[id]);
    AdmissionNeedsLocks(v.sh, g, m.action);
    AdmissionKeepsRegister(v.sh, g);
    hide Perform, Enabled, Uncommitted;
  }

  lemma AdmissionKeepsRegister(sh: Shared, g: Guard)
    requires !IsAdmitted(g.phase) && IsAdmitted(Advance(sh, g).g.phase) && (g.phase.Judging? || g.phase.Publishing?)
    ensures Advance(sh, g).sh.locks.register == sh.locks.register
  {
    hide NewName, WithinBound, ElasticRoom, Excess;
  }

  /**
   Backfills protect the queue head in every interleaving: an admitted one had, at its scan, slots for its weight
   and all that the heads it read reserved, but fewer than the neediest of them lacked. It kept its weight, and
   when it becomes admitted as many slots as they reserved are held by no admitted guard.
   */
  lemma BackfillProtectsTheHead(t: seq<World>, id: Id, want: nat, need: nat)
    requires IsBackfill(t, id, want, need)
    ensures id in t[0].guards && id in t[|t| - 1].guards
    ensures var v, w := t[0], t[|t| - 1];
            && want == v.guards[id].weight + Unmet(v.sh.heads) && need == LargestNeed(v.sh.heads)
            && (exists k :: 1 <= k < |t| && IsTested(t[k], id, want, need))
            && |w.guards[id].held| == w.guards[id].weight == v.guards[id].weight
            && Unmet(v.sh.heads) <= |Uncommitted(w)|
  {
    var n := |t| - 1;
    StartsOnItsWay(t[0], id);
    TestedBefore(t, id, want, need, n);
    SoundAlong(t, n - 1);
    SoundAlong(t, n);
    hide After, CanMove, Sound, SparesOk, LocksOk, EntriesOk, LanesOk, WorkspacesOk, HeadsOk, Moves, Uncommitted,
        Reachable;
    LastStep(t, id, want, need);
  }

  lemma LastStep(t: seq<World>, id: Id, want: nat, need: nat)
    requires IsBackfill(t, id, want, need) && Sound(t[|t| - 2]) && Sound(t[|t| - 1]) && SparesOk(t[|t| - 1])
    ensures var w := t[|t| - 1];
            |w.guards[id].held| == w.guards[id].weight && want - w.guards[id].weight <= |Uncommitted(w)|
  {
    hide After, CanMove, SparesOk, LocksOk, EntriesOk, LanesOk, WorkspacesOk, HeadsOk, Moves, Uncommitted, Reachable;
    AdmittedUnderRegister(t[|t| - 2], t[|t| - 2 + 1], id, want, need);
  }

  // --- The entries of queue heads ---

  /**
   In every reachable state a head's name stands for an entry with what it announced last, every entry is that of a
   head that holds the queue, and the next name a guard takes is new: what a round of collecting starts from.
   */
  lemma EntriesStandForHeads(w: World, id: Id)
    requires Reachable(w) && id in w.guards
    ensures w.guards[id].head.Some? ==> Entry(w.guards[id].head.value, w.guards[id].reserved) in w.sh.heads
    ensures forall e :: e in w.sh.heads ==>
              && e.name.pid in w.guards && w.sh.locks.queue == Some(e.name.pid)
              && (w.guards[e.name.pid].head == Some(e.name) || w.guards[e.name.pid].oldHead == Some(e.name))
    ensures Sorted(w.sh.heads) && Absent(w.sh.heads, NewName(w.sh, w.guards[id]))
  {
    EveryReachableIsSound(w);
    hide EntriesOk, LanesOk, WorkspacesOk, Reachable, Sorted;
    forall e | e in w.sh.heads
      ensures e.name.pid in w.guards && w.sh.locks.queue == Some(e.name.pid)
      ensures w.guards[e.name.pid].head == Some(e.name) || w.guards[e.name.pid].oldHead == Some(e.name)
      ensures e.name != NewName(w.sh, w.guards[id])
    {
      EntryHasItsHead(w, e);
    }
  }

  lemma EntryHasItsHead(w: World, e: Entry<Reservation>)
    requires LocksOk(w) && HeadsOk(w) && e in w.sh.heads
    ensures e.name.pid in w.guards && w.guards[e.name.pid].id == e.name.pid && w.sh.locks.queue == Some(e.name.pid)
    ensures w.guards[e.name.pid].head == Some(e.name) || w.guards[e.name.pid].oldHead == Some(e.name)
    ensures e.name.serial < w.guards[e.name.pid].serial
  {
    assert HeadOk(w.sh.heads, w.sh.locks.queue, w.guards[e.name.pid]);
    hide IsHeadPhase, GuardOk, Sorted;
  }

  // --- Past the ramp nobody starts to run ahead ---

  lemma TwoNames<T>(r: seq<Entry<T>>)
    requires Sorted(r)
    ensures |r| > 1 ==> r[0] in r && r[1] in r && r[0].name != r[1].name
  {
  }

  lemma AllOneName<T>(r: seq<Entry<T>>, e: Entry<T>)
    requires Sorted(r) && e in r && forall x :: x in r ==> x.name == e.name
    ensures r == [e]
  {
    TwoNames(r);
  }

  /** The entries of queue heads are those of the one guard that holds the queue. */
  lemma HeadsAreIts(w: World, id: Id, e: Entry<Reservation>)
    requires LocksOk(w) && HeadsOk(w) && id in w.guards && w.guards[id].head.Some? && e in w.sh.heads
    ensures w.guards[id].head == Some(e.name) || w.guards[id].oldHead == Some(e.name)
  {
    var j := e.name.pid;
    assert HeadOk(w.sh.heads, w.sh.locks.queue, w.guards[j]) && HeadOk(w.sh.heads, w.sh.locks.queue, w.guards[id]);
    assert w.guards[j].id == j && w.guards[id].id == id;
  }

  /** So between two announcements there is one entry. */
  lemma OneHead(w: World, id: Id)
    requires LocksOk(w) && HeadsOk(w) && id in w.guards && w.guards[id].head.Some? && !w.guards[id].phase.Announced?
    ensures w.sh.heads == [Entry(w.guards[id].head.value, w.guards[id].reserved)]
  {
    assert HeadOk(w.sh.heads, w.sh.locks.queue, w.guards[id]);
    forall x | x in w.sh.heads
      ensures x.name == w.guards[id].head.value
    {
      HeadsAreIts(w, id, x);
    }
    hide LocksOk;
    AllOneName(w.sh.heads, Entry(w.guards[id].head.value, w.guards[id].reserved));
  }

  /** Behind a head a backfill starts exactly if a normal guard is lighter than what it lacks and does not reserve. */
  lemma BackfillBesideHead(w: World, id: Id, other: Id)
    requires Reachable(w) && id in w.guards && w.guards[id].head.Some? && !w.guards[id].phase.Announced?
        && other in w.guards
    ensures var g, r := w.guards[other], w.guards[id].reserved;
            CanBackfill(w.sh, g)
            <==> (&& g.phase.Queueing? && g.lane == Normal && g.naming.None?
                  && w.sh.drains == [] && g.weight + r.unmet < r.need)
  {
    EveryReachableIsSound(w);
    OneHead(w, id);
    OneEntry(w.sh.heads, w.sh.heads[0]);
    hide LocksOk, EntriesOk, LanesOk, WorkspacesOk, HeadsOk;
  }

  /** While a head replaces its entry both stand. */
  lemma TwoHeads(w: World, id: Id)
    requires LocksOk(w) && HeadsOk(w) && id in w.guards && w.guards[id].oldHead.Some?
    ensures w.guards[id].head.Some? && |w.sh.heads| <= 2
    ensures exists e :: e in w.sh.heads && e.name == w.guards[id].head.value && e.value == w.guards[id].reserved
    ensures forall e :: e in w.sh.heads ==> Some(e.name) in {w.guards[id].head, w.guards[id].oldHead}
  {
    assert HeadOk(w.sh.heads, w.sh.locks.queue, w.guards[id]);
    forall x | x in w.sh.heads
      ensures Some(x.name) in {w.guards[id].head, w.guards[id].oldHead}
    {
      HeadsAreIts(w, id, x);
    }
    AtMostTwo(w.sh.heads, w.guards[id].head.value, w.guards[id].oldHead.value);
  }

  lemma AtMostTwo<T>(r: seq<Entry<T>>, m: Name, n: Name)
    requires Sorted(r) && forall x :: x in r ==> x.name == m || x.name == n
    ensures |r| <= 2
  {
    ThreeNames(r);
  }

  lemma ThreeNames<T>(r: seq<Entry<T>>)
    requires Sorted(r)
    ensures |r| > 2 ==> r[0] in r && r[1] in r && r[2] in r && r[0].name != r[1].name && r[1].name != r[2].name
                        && r[0].name != r[2].name
  {
    if |r| > 2 {
      assert Before(r[0].name, r[1].name) && Before(r[1].name, r[2].name) && Before(r[0].name, r[2].name);
    }
  }

  /** Whoever reads both counts all that they reserve, and the larger need: more than either says alone. */
  lemma BothEntriesCount(heads: seq<Entry<Reservation>>)
    requires |heads| == 2
    ensures Unmet(heads) == heads[0].value.unmet + heads[1].value.unmet
    ensures LargestNeed(heads) == if heads[0].value.need <= heads[1].value.need then heads[1].value.need
                                  else heads[0].value.need
  {
    assert heads[1..] == [heads[1]];
    OneEntry(heads[1..], heads[1]);
  }

  /** While it replaces its entry, a backfill starts only if it fits beside both: the new one is respected at once. */
  lemma NewEntryIsRespected(w: World, id: Id, other: Id)
    requires Reachable(w) && id in w.guards && w.guards[id].oldHead.Some? && other in w.guards
    requires CanBackfill(w.sh, w.guards[other])
    ensures w.guards[other].weight + w.guards[id].reserved.unmet < LargestNeed(w.sh.heads)
  {
    hide LocksOk, EntriesOk, LanesOk, WorkspacesOk, HeadsOk, Reachable;
    EveryReachableIsSound(w);
    TwoHeads(w, id);
    var heads := w.sh.heads;
    var e :| e in heads && e.name == w.guards[id].head.value && e.value == w.guards[id].reserved;
    if |heads| == 2 {
      BothEntriesCount(heads);
    } else {
      assert heads == [e];
      OneEntry(heads, e);
    }
  }

  lemma OneEntry(heads: seq<Entry<Reservation>>, e: Entry<Reservation>)
    requires heads == [e]
    ensures Unmet(heads) == e.value.unmet && LargestNeed(heads) == e.value.need
  {
    assert heads[1..] == [];
  }

  /** A head that collects: from its turn to the check under `register`. */
  predicate IsCollecting(p: Phase) {
    match p
    case Deciding | Dropping(_) | Announced | Regrouping => true
    case Scanning(path, _) => path.AsHead?
    case Registering(path) => path.AsHead?
    case Judging(path) => path.AsHead?
    case Publishing(path) => path.AsHead?
    case _ => false
  }

  /** Its entry reserves all it lacks, and the next one will. */
  ghost predicate ReservesAll(g: Guard) {
    g.head.Some? && g.reserved.unmet == g.reserved.need && (g.phase.Dropping? ==> g.phase.keep == g.weight)
  }

  /** Since a scan that ended short after the ramp: about to reserve all it lacks, or doing so. */
  ghost predicate IsPastTheRamp(sh: Shared, g: Guard) {
    && g.since + g.job.ramp <= sh.clock
    && (|| (g.phase == Scanning(AsHead, sh.capacity) && |g.held| < g.weight)
        || g.phase == Dropping(g.weight)
        || ReservesAll(g))
  }

  lemma ScanPastTheRamp(sh: Shared, g: Guard)
    requires g.naming.None? && g.phase.Scanning? && g.phase.path.AsHead? && IsPastTheRamp(sh, g)
    ensures IsPastTheRamp(Advance(sh, g).sh, Advance(sh, g).g)
  {
    ReserveGrows(g.weight, g.job.ramp, sh.clock - g.since, sh.clock - g.since);
    hide Reserve;
  }

  lemma DropPastTheRamp(sh: Shared, g: Guard)
    requires g.naming.None? && g.phase.Dropping? && |g.held| <= g.weight && IsPastTheRamp(sh, g)
    ensures IsPastTheRamp(Advance(sh, g).sh, Advance(sh, g).g)
  {
    hide NewName;
  }

  lemma AdvancePastTheRamp(sh: Shared, g: Guard)
    requires IsCollecting(g.phase) && IsCollecting(Advance(sh, g).g.phase) && IsPastTheRamp(sh, g)
    requires g.phase.Dropping? ==> |g.held| <= g.weight
    ensures IsPastTheRamp(Advance(sh, g).sh, Advance(sh, g).g)
  {
    if g.naming.None? && g.phase.Scanning? {
      hide Advance;
      ScanPastTheRamp(sh, g);
    } else if g.naming.None? && g.phase.Dropping? {
      hide Advance;
      DropPastTheRamp(sh, g);
    } else {
      hide NewName, Withdraw, MyTurn, WithinBound, ElasticRoom;
    }
  }

  lemma OtherActionsPastTheRamp(sh: Shared, g: Guard, a: Action)
    requires Enabled(sh, g, a) && !a.Advancing? && IsCollecting(g.phase) && IsCollecting(Perform(sh, g, a).g.phase)
    requires IsPastTheRamp(sh, g)
    ensures IsPastTheRamp(Perform(sh, g, a).sh, Perform(sh, g, a).g)
  {
    hide NewName, Withdraw, Advance;
  }

  lemma MovePastTheRamp(v: World, w: World, id: Id)
    requires LocksOk(v) && Moves(v, w) && id in v.guards && id in w.guards
    requires IsCollecting(v.guards[id].phase) && IsCollecting(w.guards[id].phase) && IsPastTheRamp(v.sh, v.guards[id])
    ensures IsPastTheRamp(w.sh, w.guards[id])
  {
    var m :| CanMove(v, m) && w == After(v, m);
    if m.Act? {
      ActPastTheRamp(v, id, m.id, m.action);
    }
    hide Perform, Enabled;
  }

  lemma ActPastTheRamp(v: World, id: Id, j: Id, a: Action)
    requires LocksOk(v) && CanMove(v, Act(j, a)) && id in v.guards
    requires IsCollecting(v.guards[id].phase) && IsPastTheRamp(v.sh, v.guards[id])
    requires IsCollecting(After(v, Act(j, a)).guards[id].phase)
    ensures IsPastTheRamp(After(v, Act(j, a)).sh, After(v, Act(j, a)).guards[id])
  {
    var g := v.guards[j];
    assert GuardOk(v.sh, g) && HoldsOk(v.sh.locks, g);
    PerformKeeps(v.sh, g, a);
    SameClock(v.sh, g, a);
    if j == id {
      if a.Advancing? {
        DroppingHoldsAtMost(v.sh.locks, g);
        hide Advance;
        AdvancePastTheRamp(v.sh, g);
      } else {
        OtherActionsPastTheRamp(v.sh, g, a);
      }
    }
    hide Perform, Enabled;
  }

  lemma DroppingHoldsAtMost(t: Locks, g: Guard)
    requires HoldsOk(t, g)
    ensures g.phase.Dropping? ==> |g.held| <= g.weight
  {
  }

  /** n moves, after each of which the guard is still collecting. */
  ghost predicate CollectsThroughout(v: World, w: World, id: Id, n: nat)
    decreases n
  {
    if n == 0 then v == w
    else exists u :: && CollectsThroughout(v, u, id, n - 1) && Moves(u, w)
                     && id in w.guards && IsCollecting(w.guards[id].phase)
  }

  lemma {:induction false} StaysPastTheRamp(v: World, w: World, id: Id, n: nat)
    requires Sound(v) && id in v.guards && IsCollecting(v.guards[id].phase) && IsPastTheRamp(v.sh, v.guards[id])
    requires CollectsThroughout(v, w, id, n)
    ensures Sound(w) && id in w.guards && IsCollecting(w.guards[id].phase) && IsPastTheRamp(w.sh, w.guards[id])
    decreases n
  {
    hide Moves, LocksOk, EntriesOk, LanesOk, WorkspacesOk, HeadsOk, IsPastTheRamp, IsCollecting;
    if n > 0 {
      var u :| CollectsThroughout(v, u, id, n - 1) && Moves(u, w) && id in w.guards && IsCollecting(w.guards[id].phase);
      StaysPastTheRamp(v, u, id, n - 1);
      MoveIsSound(u, w);
      MovePastTheRamp(u, w, id);
    }
  }

  /**
   Once a head has ended a scan short of its weight after its ramp, then, however the guards go on, whenever it
   decides again it has published all it lacks as reserved, and no guard starts a backfill.
   */
  lemma NobodyAheadPastTheRamp(v: World, w: World, id: Id, n: nat, other: Id)
    requires Reachable(v) && id in v.guards && v.guards[id].phase == Scanning(AsHead, v.sh.capacity)
    requires |v.guards[id].held| < v.guards[id].weight && v.guards[id].since + v.guards[id].job.ramp <= v.sh.clock
    requires CollectsThroughout(v, w, id, n) && w.guards[id].phase.Deciding? && other in w.guards
    ensures var g := w.guards[id];
            && g.head.Some? && g.reserved.unmet == g.reserved.need && w.sh.heads == [Entry(g.head.value, g.reserved)]
            && !CanBackfill(w.sh, w.guards[other])
  {
    hide LocksOk, EntriesOk, LanesOk, WorkspacesOk, HeadsOk, CollectsThroughout, Reachable;
    EveryReachableIsSound(v);
    StaysPastTheRamp(v, w, id, n);
    OneHead(w, id);
    OneEntry(w.sh.heads, w.sh.heads[0]);
  }
}
