/**
 What holds in every state any interleaving of guards can reach: slots are conserved, an
 exclusive guard runs alone, one build runs per workspace, declared limits stay within 1.5 times
 the budget, and the elastic bases always leave room for the largest part.
 */
module Safety {
  import opened Wrappers
  import opened Registries
  import opened Charge
  import opened Machine
  import opened Worlds
  import opened LockBooks
  import opened Bounds
  import opened Phases
  import opened Workspaces
  import opened Heads

  /** The books on slots and locks, on excess and bases, on lanes, workspaces and queue heads. */
  ghost predicate Sound(w: World) {
    LocksOk(w) && EntriesOk(w) && LanesOk(w) && WorkspacesOk(w) && HeadsOk(w)
  }

  lemma StartIsSound(capacity: nat, clock: nat)
    requires 1 <= capacity
    ensures Sound(Start(capacity, clock))
  {
  }

  lemma MoveIsSound(v: World, w: World)
    requires Sound(v) && Moves(v, w)
    ensures Sound(w)
  {
    var m :| CanMove(v, m) && w == After(v, m);
    hide After, CanMove, LocksOk, EntriesOk, LanesOk, WorkspacesOk, HeadsOk;
    MoveKeepsLocks(v, m);
    MoveKeepsEntries(v, m);
    MoveKeepsLanes(v, m);
    MoveKeepsWorkspaces(v, m);
    MoveKeepsHeads(v, m);
  }

  lemma {:induction false} ReachableInIsSound(capacity: nat, clock: nat, w: World, n: nat)
    requires 1 <= capacity && ReachableIn(capacity, clock, w, n)
    ensures Sound(w)
    decreases n
  {
    hide Sound, Moves;
    if n == 0 {
      StartIsSound(capacity, clock);
    } else {
      var v :| ReachableIn(capacity, clock, v, n - 1) && Moves(v, w);
      ReachableInIsSound(capacity, clock, v, n - 1);
      MoveIsSound(v, w);
    }
  }

  lemma EveryReachableIsSound(w: World)
    requires Reachable(w)
    ensures Sound(w)
  {
    var capacity: nat, clock: nat, n: nat :| 1 <= capacity && ReachableIn(capacity, clock, w, n);
    ReachableInIsSound(capacity, clock, w, n);
  }

  lemma ReachableIsSound(w: World)
    requires Reachable(w)
    ensures LocksOk(w) && EntriesOk(w)
  {
    EveryReachableIsSound(w);
  }

  // --- Counting slots ---

  lemma HolderIs(w: World, i: Id, k: nat)
    requires LocksOk(w) && i in w.guards && k in w.guards[i].held
    ensures k in w.sh.locks.slots && w.sh.locks.slots[k] == i
  {
    assert HoldsOk(w.sh.locks, w.guards[i]);
  }

  lemma AdmittedIsFull(w: World, i: Id)
    requires LocksOk(w) && i in w.guards && IsAdmitted(w.guards[i].phase)
    ensures |w.guards[i].held| == if w.guards[i].job.exclusive then 0 else w.guards[i].weight
  {
    assert HoldsOk(w.sh.locks, w.guards[i]);
  }

  ghost function SetOf(s: seq<nat>): set<nat> {
    set k | k in s
  }

  lemma {:induction false} DistinctCount(s: seq<nat>)
    requires Distinct(s)
    ensures |SetOf(s)| == |s|
  {
    if s != [] {
      var n := |s| - 1;
      DistinctCount(s[..n]);
      assert s[n] !in SetOf(s[..n]);
      assert SetOf(s) == SetOf(s[..n]) + {s[n]};
    }
  }

  lemma {:induction false} BelowCount(s: set<nat>, n: nat)
    requires forall k :: k in s ==> k < n
    ensures |s| <= n
  {
    if n == 0 {
      assert s == {};
    } else {
      BelowCount(s - {n - 1}, n - 1);
      if n - 1 in s {
        assert |s| == |s - {n - 1}| + 1;
      } else {
        assert s == s - {n - 1};
      }
    }
  }

  ghost function HeldSlots(w: World, ids: set<Id>): nat
    requires ids <= w.guards.Keys
  {
    if ids == {} then 0 else
      var i :| i in ids;
      |w.guards[i].held| + HeldSlots(w, ids - {i})
  }

  lemma {:induction false} HeldWithin(w: World, ids: set<Id>, slots: set<nat>)
    requires LocksOk(w) && ids <= w.guards.Keys
    requires forall i, k :: i in ids && k in w.guards[i].held ==> k in slots
    ensures HeldSlots(w, ids) <= |slots|
  {
    if ids != {} {
      var i :| i in ids && HeldSlots(w, ids) == |w.guards[i].held| + HeldSlots(w, ids - {i});
      var mine := SetOf(w.guards[i].held);
      assert GuardOk(w.sh, w.guards[i]);
      DistinctCount(w.guards[i].held);
      forall j, k | j in ids - {i} && k in w.guards[j].held
        ensures k in slots - mine
      {
        HolderIs(w, j, k);
      }
      HeldWithin(w, ids - {i}, slots - mine);
      assert mine <= slots;
      assert |slots - mine| == |slots| - |mine|;
    }
  }

  /**
   Slots are conserved: no two guards hold one slot, all held slots are within the budget, and an
   admitted guard holds exactly its weight (an exclusive one holds none, but `<lock>` itself).
   */
  lemma SlotsAreConserved(w: World)
    requires Reachable(w)
    ensures forall i, j, k :: i in w.guards && j in w.guards && k in w.guards[i].held && k in w.guards[j].held ==>
        i == j
    ensures HeldSlots(w, w.guards.Keys) <= w.sh.capacity
    ensures forall i :: i in w.guards && IsAdmitted(w.guards[i].phase) ==>
              |w.guards[i].held| == if w.guards[i].job.exclusive then 0 else w.guards[i].weight
  {
    ReachableIsSound(w);
    forall i, j, k | i in w.guards && j in w.guards && k in w.guards[i].held && k in w.guards[j].held
      ensures i == j
    {
      HolderIs(w, i, k);
      HolderIs(w, j, k);
    }
    forall i, k | i in w.guards && k in w.guards[i].held
      ensures k in w.sh.locks.slots.Keys
    {
      HolderIs(w, i, k);
    }
    HeldWithin(w, w.guards.Keys, w.sh.locks.slots.Keys);
    BelowCount(w.sh.locks.slots.Keys, w.sh.capacity);
    forall i | i in w.guards && IsAdmitted(w.guards[i].phase)
      ensures |w.guards[i].held| == if w.guards[i].job.exclusive then 0 else w.guards[i].weight
    {
      AdmittedIsFull(w, i);
    }
  }

  /** Back in the queue loop, outside it, or done: nothing that was taken is kept. */
  predicate TurnedBack(p: Phase) {
    p.Arrived? || p.Outside? || p.Queueing? || p.Gone?
  }

  /** Without its entry in the registry of queue heads. */
  lemma TurnedBackIsNoHead(w: World, id: Id)
    requires HeadsOk(w) && LocksOk(w) && id in w.guards && TurnedBack(w.guards[id].phase)
    ensures w.guards[id].head.None? && forall e :: e in w.sh.heads ==> e.name.pid != id
  {
    assert HeadOk(w.sh.heads, w.sh.locks.queue, w.guards[id]) && w.guards[id].id == id;
  }

  lemma TurnedBackHoldsItsWorkspace(w: World, id: Id)
    requires WorkspacesOk(w) && id in w.guards && TurnedBack(w.guards[id].phase)
    ensures forall x: nat :: WorkspaceOf(w.sh.locks, x).HeldBy(id) ==>
              && (w.guards[id].phase.Outside? || w.guards[id].phase.Queueing?)
              && x == w.guards[id].job.workspace && !w.guards[id].job.sub
  {
  }

  lemma TurnedBackHoldsNoLock(w: World, id: Id)
    requires LocksOk(w) && EntriesOk(w) && id in w.guards && TurnedBack(w.guards[id].phase)
    ensures w.guards[id].held == [] && (forall k :: k in w.sh.locks.slots ==> w.sh.locks.slots[k] != id)
    ensures w.sh.locks.queue != Some(id) && w.sh.locks.register != Some(id) && !w.sh.locks.main.HeldBy(id)
    ensures forall e :: e in w.sh.running || e in w.sh.elastic ==> e.name.pid != id
  {
    var g := w.guards[id];
    assert GuardOk(w.sh, g) && OwnEntriesOk(w.sh, g);
  }

  /**
   Every refused or turned-back attempt has returned everything it took: its slots, the admission locks, its
   entries, and the workspace unless it waits for its turn with it.
   */
  lemma TurnedBackKeepsNothing(w: World, id: Id)
    requires Reachable(w) && id in w.guards && TurnedBack(w.guards[id].phase)
    ensures w.guards[id].held == [] && (forall k :: k in w.sh.locks.slots ==> w.sh.locks.slots[k] != id)
    ensures w.sh.locks.queue != Some(id) && w.sh.locks.register != Some(id) && !w.sh.locks.main.HeldBy(id)
    ensures forall e :: e in w.sh.running || e in w.sh.elastic ==> e.name.pid != id
    ensures w.guards[id].head.None? && forall e :: e in w.sh.heads ==> e.name.pid != id
    ensures forall x: nat :: WorkspaceOf(w.sh.locks, x).HeldBy(id) ==>
              && (w.guards[id].phase.Outside? || w.guards[id].phase.Queueing?)
              && x == w.guards[id].job.workspace && !w.guards[id].job.sub
  {
    EveryReachableIsSound(w);
    hide LocksOk, EntriesOk, LanesOk, WorkspacesOk, HeadsOk, TurnedBack;
    TurnedBackHoldsNoLock(w, id);
    TurnedBackIsNoHead(w, id);
    TurnedBackHoldsItsWorkspace(w, id);
  }

  /** What an admitted guard holds of `<lock>` and of its workspace. */
  lemma AdmittedHolds(w: World, i: Id)
    requires LocksOk(w) && i in w.guards && IsAdmitted(w.guards[i].phase)
    ensures var g := w.guards[i]; var main := w.sh.locks.main; var lock := WorkspaceOf(w.sh.locks, g.job.workspace);
            && (if g.job.exclusive then main.writer == Some(i) else i in main.readers)
            && RwOk(main) && RwOk(lock)
            && (!g.job.sub ==> if g.job.sharedWorkspace then i in lock.readers else lock.writer == Some(i))
  {
    assert GuardOk(w.sh, w.guards[i]) && HoldsOk(w.sh.locks, w.guards[i]);
  }

  /** While an exclusive guard runs no other guard is admitted. */
  lemma ExclusiveRunsAlone(w: World, id: Id, other: Id)
    requires Reachable(w) && id in w.guards && other in w.guards
    requires w.guards[id].job.exclusive && IsAdmitted(w.guards[id].phase) && IsAdmitted(w.guards[other].phase)
    ensures other == id
  {
    ReachableIsSound(w);
    AdmittedHolds(w, id);
    AdmittedHolds(w, other);
  }

  /** Two builds run in one workspace only if both share it (or are parts of its elastic guard). */
  lemma OneBuildPerWorkspace(w: World, i: Id, j: Id)
    requires Reachable(w) && i in w.guards && j in w.guards && i != j
    requires IsAdmitted(w.guards[i].phase) && IsAdmitted(w.guards[j].phase)
    requires w.guards[i].job.workspace == w.guards[j].job.workspace && !w.guards[i].job.sub && !w.guards[j].job.sub
    ensures w.guards[i].job.sharedWorkspace && w.guards[j].job.sharedWorkspace
  {
    ReachableIsSound(w);
    AdmittedHolds(w, i);
    AdmittedHolds(w, j);
  }

  // --- The declared limits of the running workloads ---

  /** The workloads that run and are neither being preempted nor parts of an elastic one. */
  ghost function Workloads(w: World): set<Id> {
    set id | id in w.guards && Standing(w.guards[id].phase) && !w.guards[id].job.sub
  }

  ghost function DeclaredSlots(w: World, ids: set<Id>): nat
    requires ids <= w.guards.Keys
  {
    if ids == {} then 0 else
      var i :| i in ids;
      w.guards[i].declared + DeclaredSlots(w, ids - {i})
  }

  lemma OneDeclared(w: World, i: Id, slots: set<nat>, r: seq<Entry<nat>>) returns (r': seq<Entry<nat>>)
    requires LocksOk(w) && EntriesOk(w) && i in w.guards && Sorted(r)
    requires Standing(w.guards[i].phase) && !w.guards[i].job.sub && !w.guards[i].job.exclusive
    requires forall k :: k in w.guards[i].held ==> k in slots
    requires w.guards[i].registered.Some? ==> Entry(w.guards[i].registered.value, Excess(w.guards[i])) in r
    ensures Sorted(r') && w.guards[i].declared + |slots - SetOf(w.guards[i].held)| + Total(r') <= |slots| + Total(r)
    ensures forall e :: e in r && e.name.pid != i ==> e in r'
  {
    var g := w.guards[i];
    DeclaredIs(w, i);
    HeldLeaves(g.held, slots);
    r' := Withdraw(r, g.registered);
    if g.registered.Some? {
      UnlinkRemoves(r, g.registered.value);
      TotalUnlink(r, g.registered.value);
    }
  }

  /** A workload's declared slots are those it holds and, if it is overcommitted, its registered excess. */
  lemma DeclaredIs(w: World, i: Id)
    requires LocksOk(w) && EntriesOk(w) && i in w.guards
    requires Standing(w.guards[i].phase) && !w.guards[i].job.sub && !w.guards[i].job.exclusive
    ensures var g := w.guards[i];
            && Distinct(g.held) && g.declared <= |g.held| + (if g.registered.Some? then Excess(g) else 0)
            && (g.registered.Some? ==> g.registered.value.pid == i)
  {
    assert GuardOk(w.sh, w.guards[i]) && OwnEntriesOk(w.sh, w.guards[i]);
  }

  lemma HeldLeaves(held: seq<nat>, slots: set<nat>)
    requires Distinct(held) && forall k :: k in held ==> k in slots
    ensures |slots - SetOf(held)| + |held| == |slots|
  {
    DistinctCount(held);
    assert SetOf(held) <= slots;
  }

  lemma HeldByOne(w: World, i: Id, j: Id, k: nat)
    requires LocksOk(w) && i in w.guards && j in w.guards && i != j && k in w.guards[j].held
    ensures k !in SetOf(w.guards[i].held)
  {
    HolderIs(w, j, k);
    if k in w.guards[i].held {
      HolderIs(w, i, k);
    }
  }

  lemma {:induction false} DeclaredWithin(w: World, ids: set<Id>, slots: set<nat>, r: seq<Entry<nat>>)
    requires LocksOk(w) && EntriesOk(w) && ids <= Workloads(w) && Sorted(r)
    requires forall i :: i in ids ==> !w.guards[i].job.exclusive
    requires forall i, k :: i in ids && k in w.guards[i].held ==> k in slots
    requires forall i :: i in ids && w.guards[i].registered.Some? ==>
               Entry(w.guards[i].registered.value, Excess(w.guards[i])) in r
    ensures DeclaredSlots(w, ids) <= |slots| + Total(r)
  {
    if ids != {} {
      var i :| i in ids && DeclaredSlots(w, ids) == w.guards[i].declared + DeclaredSlots(w, ids - {i});
      var r' := OneDeclared(w, i, slots, r);
      var rest := slots - SetOf(w.guards[i].held);
      forall j, k | j in ids - {i} && k in w.guards[j].held
        ensures k in rest
      {
        HeldByOne(w, i, j, k);
      }
      forall j | j in ids - {i} && w.guards[j].registered.Some?
        ensures Entry(w.guards[j].registered.value, Excess(w.guards[j])) in r'
      {
        assert OwnEntriesOk(w.sh, w.guards[j]);
      }
      DeclaredWithin(w, ids - {i}, rest, r');
    }
  }

  /**
   The declared limits of the running workloads total at most 1.5 times the budget, however each
   was admitted: their registered excess never exceeds half of it.
   */
  lemma OvercommitIsBounded(w: World)
    requires Reachable(w)
    ensures 2 * Total(w.sh.running) <= w.sh.capacity
    ensures 2 * DeclaredSlots(w, Workloads(w)) <= 3 * w.sh.capacity
  {
    hide Sorted;
    ReachableIsSound(w);
    if x :| x in Workloads(w) && w.guards[x].job.exclusive {
      forall j | j in Workloads(w)
        ensures j == x
      {
        ExclusiveRunsAlone(w, x, j);
      }
      assert Workloads(w) == {x};
      assert DeclaredSlots(w, {x}) == w.guards[x].declared + DeclaredSlots(w, {x} - {x});
      assert GuardOk(w.sh, w.guards[x]);
    } else {
      forall i | i in Workloads(w)
        ensures GuardOk(w.sh, w.guards[i]) && OwnEntriesOk(w.sh, w.guards[i])
      {
      }
      DeclaredWithin(w, Workloads(w), w.sh.locks.slots.Keys, w.sh.running);
      BelowCount(w.sh.locks.slots.Keys, w.sh.capacity);
    }
  }

  /** The bases of the admitted elastic workloads leave the largest part free. */
  lemma ElasticBasesLeaveAPart(w: World)
    requires Reachable(w)
    ensures Total(w.sh.elastic) + Slots(w.sh.capacity, PROCESS_MIB) <= w.sh.capacity
    ensures forall i :: i in w.guards && Standing(w.guards[i].phase) && w.guards[i].job.elastic ==>
              w.guards[i].base.Some? && Entry(w.guards[i].base.value, |w.guards[i].held|) in w.sh.elastic
  {
    ReachableIsSound(w);
    forall i | i in w.guards && Standing(w.guards[i].phase) && w.guards[i].job.elastic
      ensures w.guards[i].base.Some? && Entry(w.guards[i].base.value, |w.guards[i].held|) in w.sh.elastic
    {
      AdmittedIsFull(w, i);
      assert WeightOk(w.sh, w.guards[i]);
      assert BaseOk(w.sh.elastic, w.guards[i]) && AccountedFor(w.guards[i]);
    }
  }
}
