/**
 When an admission is decided for a workload: in every reachable state the registries add up to what the running
 workloads declare and hold, so each decision is told in terms of those workloads alone.
 */
module Decisions {
  import opened Wrappers
  import opened Registries
  import opened Charge
  import opened Machine
  import opened Worlds
  import opened LockBooks
  import opened Bounds
  import opened Phases
  import opened Safety

  // --- Sums over guards ---

  ghost function Sum(m: map<Id, int>): int
    decreases m.Keys
  {
    if m.Keys == {} then 0 else
      var i :| i in m.Keys;
      m[i] + Sum(m - {i})
  }

  lemma {:induction false} SumWithout(m: map<Id, int>, i: Id)
    requires i in m
    ensures Sum(m) == m[i] + Sum(m - {i})
    decreases m.Keys
  {
    var j :| j in m.Keys && Sum(m) == m[j] + Sum(m - {j});
    if i != j {
      SumWithout(m - {j}, i);
      SumWithout(m - {i}, j);
      assert m - {i} - {j} == m - {j} - {i};
    }
  }

  lemma {:induction false} SumOfZeros(m: map<Id, int>)
    requires forall i :: i in m ==> m[i] == 0
    ensures Sum(m) == 0
    decreases m.Keys
  {
    if m.Keys != {} {
      var i :| i in m.Keys && Sum(m) == m[i] + Sum(m - {i});
      SumOfZeros(m - {i});
    }
  }

  /** No guard has two entries. */
  ghost predicate OneEach(r: seq<Entry<nat>>) {
    forall i, j :: 0 <= i < j < |r| ==> r[i].name.pid != r[j].name.pid
  }

  /** The entries say what the guards' values are, and a guard without one has none. */
  ghost predicate Tells(r: seq<Entry<nat>>, m: map<Id, int>) {
    && (forall e :: e in r ==> e.name.pid in m && m[e.name.pid] == e.value)
    && (forall i :: i in m && m[i] != 0 ==> exists e :: e in r && e.name.pid == i)
  }

  lemma {:induction false} TotalIsSum(r: seq<Entry<nat>>, m: map<Id, int>)
    requires OneEach(r) && Tells(r, m)
    ensures Total(r) == Sum(m)
  {
    if r == [] {
      SumOfZeros(m);
    } else {
      var e := r[0];
      assert e in r;
      SumWithout(m, e.name.pid);
      forall x | x in r[1..]
        ensures x in r && x.name.pid != e.name.pid
      {
        var k :| 0 <= k < |r[1..]| && r[1..][k] == x;
        assert r[k + 1] == x;
      }
      assert forall x :: x in r ==> x == e || x in r[1..];
      TotalIsSum(r[1..], m - {e.name.pid});
    }
  }

  // --- What the registries say ---

  /** A running workload of its own that may hold less than it declared. */
  ghost predicate IsCharged(g: Guard) {
    Standing(g.phase) && !g.job.exclusive && !g.job.elastic && !g.job.sub
  }

  /** The declared slots that running workloads do not hold. */
  ghost function Excesses(w: World): map<Id, int> {
    map i | i in w.guards && IsCharged(w.guards[i]) :: w.guards[i].declared - |w.guards[i].held|
  }

  /** The slots that running elastic workloads hold. */
  ghost function Bases(w: World): map<Id, int> {
    map i | i in w.guards && Standing(w.guards[i].phase) && w.guards[i].job.elastic :: |w.guards[i].held|
  }

  /** Neither an exclusive workload nor a part registers excess. */
  ghost predicate RegistrantsOk(w: World) {
    forall i :: i in w.guards && w.guards[i].registered.Some? ==>
      !w.guards[i].job.exclusive && !w.guards[i].job.sub
  }

  lemma InsideRegisters(sh: Shared, g: Guard)
    requires g.naming.None? && Inside(g.phase) && !g.phase.Publishing?
    ensures Advance(sh, g).g.registered == g.registered
  {
    hide MyTurn, NewName, Withdraw, Reserve, Goal, GiveBack, HoldsLock, LetCollect, ElasticRoom, WithinBound, Excess;
  }

  lemma AdvanceRegisters(sh: Shared, g: Guard)
    requires g.naming.Some? || !g.phase.Publishing?
    ensures Advance(sh, g).g.registered == g.registered
  {
    if g.naming.None? && Inside(g.phase) {
      InsideRegisters(sh, g);
    } else {
      hide MyTurn, FirstInLine, Withdraw, WorkspaceOf, CloseLocks, ElasticRoom, Publish, Unlink;
    }
  }

  lemma OnlyPublishingRegisters(sh: Shared, g: Guard, a: Action)
    requires Enabled(sh, g, a) && !(a.Advancing? && g.naming.None? && g.phase.Publishing?)
    ensures Perform(sh, g, a).g.registered in {g.registered, None}
  {
    hide Advance;
    if a.Advancing? {
      AdvanceRegisters(sh, g);
    }
  }

  lemma PublisherIsCharged(sh: Shared, g: Guard)
    requires HoldsOk(sh.locks, g) && ClaimOk(sh, g) && g.phase.Publishing?
    ensures !g.job.exclusive && !g.job.sub
  {
  }

  lemma PerformRegisters(sh: Shared, g: Guard, a: Action)
    requires GuardOk(sh, g) && ClaimOk(sh, g) && Enabled(sh, g, a)
    requires g.registered.Some? ==> !g.job.exclusive && !g.job.sub
    ensures var g' := Perform(sh, g, a).g; g'.registered.Some? ==> !g'.job.exclusive && !g'.job.sub
  {
    hide Perform, Enabled, Fits, FitsAlone, SlotsOk;
    PerformIsOneJob(sh, g, a);
    if a.Advancing? && g.naming.None? && g.phase.Publishing? {
      PublisherIsCharged(sh, g);
    } else {
      OnlyPublishingRegisters(sh, g, a);
    }
  }

  lemma MoveKeepsRegistrants(w: World, m: Move)
    requires LocksOk(w) && EntriesOk(w) && RegistrantsOk(w) && CanMove(w, m)
    ensures RegistrantsOk(After(w, m))
  {
    hide Perform, Enabled, GuardOk;
    if m.Act? {
      OwnClaimOk(w, m.id);
      PerformRegisters(w.sh, w.guards[m.id], m.action);
    }
    hide LocksOk, EntriesOk;
  }

  lemma OwnClaimOk(w: World, id: Id)
    requires LocksOk(w) && EntriesOk(w) && id in w.guards
    ensures GuardOk(w.sh, w.guards[id]) && ClaimOk(w.sh, w.guards[id])
  {
    assert OwnEntriesOk(w.sh, w.guards[id]);
  }

  lemma PerformIsOneJob(sh: Shared, g: Guard, a: Action)
    requires Enabled(sh, g, a) && WeightOk(sh, g)
    ensures Perform(sh, g, a).g.job == g.job
  {
    PerformKeepsJob(sh, g, a);
    hide Perform;
  }

  lemma {:induction false} ReachableRegistrants(capacity: nat, clock: nat, w: World, n: nat)
    requires 1 <= capacity && ReachableIn(capacity, clock, w, n)
    ensures RegistrantsOk(w)
    decreases n
  {
    hide LocksOk, EntriesOk, LanesOk, RegistrantsOk, CanMove, After;
    if n > 0 {
      var v :| ReachableIn(capacity, clock, v, n - 1) && Moves(v, w);
      ReachableRegistrants(capacity, clock, v, n - 1);
      ReachableInIsSound(capacity, clock, v, n - 1);
      var m :| CanMove(v, m) && w == After(v, m);
      MoveKeepsRegistrants(v, m);
    } else {
      StartHasNone(capacity, clock);
    }
  }

  lemma StartHasNone(capacity: nat, clock: nat)
    ensures RegistrantsOk(Start(capacity, clock))
  {
  }

  lemma ReachableBooks(w: World)
    requires Reachable(w)
    ensures LocksOk(w) && EntriesOk(w) && RegistrantsOk(w) && LanesOk(w)
  {
    var capacity: nat, clock: nat, n: nat :| 1 <= capacity && ReachableIn(capacity, clock, w, n);
    EveryReachableIsSound(w);
    ReachableRegistrants(capacity, clock, w, n);
  }

  lemma ExcessEntryIs(w: World, e: Entry<nat>)
    requires LocksOk(w) && EntriesOk(w) && RegistrantsOk(w) && e in w.sh.running
    ensures var i := e.name.pid;
            && i in Excesses(w) && Excesses(w)[i] == e.value && w.guards[i].registered == Some(e.name)
  {
    var g := w.guards[e.name.pid];
    assert OwnEntriesOk(w.sh, g) && g.id == e.name.pid;
    AdmittedIsFull(w, e.name.pid);
    OneOfName(w.sh.running, e, Entry(g.registered.value, Excess(g)));
    assert WeightOk(w.sh, g);
  }

  lemma OneOfName(r: seq<Entry<nat>>, e: Entry<nat>, f: Entry<nat>)
    requires Sorted(r) && e in r && f in r && e.name == f.name
    ensures e == f
  {
    var i :| 0 <= i < |r| && r[i] == e;
    var j :| 0 <= j < |r| && r[j] == f;
  }

  lemma ExcessHasEntry(w: World, i: Id)
    requires LocksOk(w) && EntriesOk(w) && i in Excesses(w) && Excesses(w)[i] != 0
    ensures exists e :: e in w.sh.running && e.name.pid == i
  {
    var g := w.guards[i];
    assert OwnEntriesOk(w.sh, g) && g.id == i;
    AdmittedIsFull(w, i);
    assert Entry(g.registered.value, Excess(g)) in w.sh.running;
  }

  /** The registered excess is what the running workloads declare and do not hold. */
  lemma RunningIsExcess(w: World)
    requires Reachable(w)
    ensures Total(w.sh.running) == Sum(Excesses(w))
  {
    hide LocksOk, EntriesOk, RegistrantsOk, LanesOk, Reachable, Excesses, Total;
    ReachableBooks(w);
    var r := w.sh.running;
    forall e | e in r
      ensures e.name.pid in Excesses(w) && Excesses(w)[e.name.pid] == e.value
    {
      ExcessEntryIs(w, e);
    }
    forall i | i in Excesses(w) && Excesses(w)[i] != 0
      ensures exists e :: e in r && e.name.pid == i
    {
      ExcessHasEntry(w, i);
    }
    EntriesAreSorted(w);
    forall i, j | 0 <= i < j < |r|
      ensures r[i].name.pid != r[j].name.pid
    {
      ExcessEntryIs(w, r[i]);
      ExcessEntryIs(w, r[j]);
      assert Before(r[i].name, r[j].name);
    }
    TotalIsSum(r, Excesses(w));
  }

  lemma EntriesAreSorted(w: World)
    requires EntriesOk(w)
    ensures Sorted(w.sh.running) && Sorted(w.sh.elastic)
  {
  }

  lemma BaseEntryIs(w: World, e: Entry<nat>)
    requires LocksOk(w) && EntriesOk(w) && e in w.sh.elastic
    ensures var i := e.name.pid;
            && i in Bases(w) && Bases(w)[i] == e.value && w.guards[i].base == Some(e.name)
  {
    var g := w.guards[e.name.pid];
    assert OwnEntriesOk(w.sh, g) && g.id == e.name.pid;
    assert GuardOk(w.sh, g) && WeightOk(w.sh, g);
    AdmittedIsFull(w, e.name.pid);
    OneOfName(w.sh.elastic, e, Entry(g.base.value, g.weight));
  }

  lemma BaseHasEntry(w: World, i: Id)
    requires LocksOk(w) && EntriesOk(w) && i in Bases(w)
    ensures exists e :: e in w.sh.elastic && e.name.pid == i
  {
    var g := w.guards[i];
    assert OwnEntriesOk(w.sh, g) && g.id == i;
    assert GuardOk(w.sh, g) && WeightOk(w.sh, g);
    assert Entry(g.base.value, g.weight) in w.sh.elastic;
  }

  /** The registered bases are what the running elastic workloads hold. */
  lemma ElasticIsBases(w: World)
    requires Reachable(w)
    ensures Total(w.sh.elastic) == Sum(Bases(w))
  {
    hide LocksOk, EntriesOk, RegistrantsOk, LanesOk, Reachable, Bases, Total;
    ReachableBooks(w);
    var r := w.sh.elastic;
    forall e | e in r
      ensures e.name.pid in Bases(w) && Bases(w)[e.name.pid] == e.value
    {
      BaseEntryIs(w, e);
    }
    forall i | i in Bases(w)
      ensures exists e :: e in r && e.name.pid == i
    {
      BaseHasEntry(w, i);
    }
    EntriesAreSorted(w);
    forall i, j | 0 <= i < j < |r|
      ensures r[i].name.pid != r[j].name.pid
    {
      BaseEntryIs(w, r[i]);
      BaseEntryIs(w, r[j]);
      assert Before(r[i].name, r[j].name);
    }
    TotalIsSum(r, Bases(w));
  }

  // --- The decisions ---

  /** The guard after its own next step. */
  function Next(w: World, id: Id): Guard
    requires id in w.guards
  {
    After(w, Act(id, Advancing)).guards[id]
  }

  ghost predicate IsDeciding(w: World, id: Id, path: Path) {
    Reachable(w) && id in w.guards && w.guards[id].phase == Judging(path)
  }

  lemma NamesNothing(w: World, id: Id, path: Path)
    requires IsDeciding(w, id, path)
    ensures w.guards[id].naming.None? && !w.guards[id].job.exclusive
    ensures |w.guards[id].held| == w.guards[id].weight <= w.guards[id].declared
    ensures w.sh.part == Slots(w.sh.capacity, PROCESS_MIB)
  {
    hide Reachable, EntriesOk, RegistrantsOk, GuardOk, TableOk, OwnersOk;
    ReachableBooks(w);
    assert LaneOk(w.guards[id]) && GuardOk(w.sh, w.guards[id]);
    JudgedHoldsItsWeight(w.sh, w.guards[id], path);
  }

  lemma JudgedHoldsItsWeight(sh: Shared, g: Guard, path: Path)
    requires GuardOk(sh, g) && g.phase == Judging(path)
    ensures !g.job.exclusive && |g.held| == g.weight <= g.declared
  {
    hide SlotsOk;
  }

  /**
   A workload charged less than it declares is admitted exactly if the declared slots that the running workloads
   and it do not hold stay within half the budget. Else it is charged what it declared: as the head it collects
   that, otherwise it gives everything back.
   */
  lemma OvercommitDecision(w: World, id: Id, path: Path)
    requires IsDeciding(w, id, path)
    requires !w.guards[id].job.elastic && !w.guards[id].job.sub && w.guards[id].weight < w.guards[id].declared
    ensures var g, g' := w.guards[id], Next(w, id);
            if 2 * (Sum(Excesses(w)) + g.declared - |g.held|) <= w.sh.capacity then
              g'.phase == Publishing(path) && g'.weight == g.weight
            else
              g'.phase == (if path.AsHead? then Regrouping else Undoing(path)) && g'.weight == g.declared
  {
    hide Reachable, Excesses;
    NamesNothing(w, id, path);
    RunningIsExcess(w);
  }

  /** An elastic workload is admitted exactly if its base and those that run leave the largest part free. */
  lemma ElasticDecision(w: World, id: Id, path: Path)
    requires IsDeciding(w, id, path) && w.guards[id].job.elastic
    ensures Next(w, id).phase ==
              if Sum(Bases(w)) + |w.guards[id].held| + Slots(w.sh.capacity, PROCESS_MIB) <= w.sh.capacity
              then Publishing(path) else Undoing(path)
  {
    hide Reachable, Bases;
    NamesNothing(w, id, path);
    ElasticIsBases(w);
  }

  /** A part, or a workload charged all it declares, is admitted as it is; an approved entry leads to the admission. */
  lemma OtherDecisions(w: World, id: Id, path: Path)
    requires Reachable(w) && id in w.guards
    requires || w.guards[id].phase == Publishing(path)
          || (w.guards[id].phase == Judging(path) && !w.guards[id].job.elastic
              && (w.guards[id].job.sub || w.guards[id].weight == w.guards[id].declared))
    ensures Next(w, id).phase == Admitted(path) && Next(w, id).weight == w.guards[id].weight
  {
    hide Reachable, NewName, Excess, LocksOk, EntriesOk, RegistrantsOk;
    ReachableBooks(w);
    assert LaneOk(w.guards[id]);
  }
}
