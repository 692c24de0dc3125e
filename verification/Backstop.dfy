/**
 The backstop over every interleaving: which workload is stopped when memory runs low, and how far two such stops
 are apart.
 */
module Backstop {
  import opened Wrappers
  import opened Registries
  import opened Machine
  import opened Worlds
  import opened LockBooks
  import opened Bounds
  import opened Phases
  import opened Safety
  import opened Turns

  /** Registered as overcommitted later than every other workload that is. */
  ghost predicate IsYoungest(w: World, id: Id) {
    && id in w.guards && w.guards[id].registered.Some?
    && forall j :: j in w.guards && j != id && w.guards[j].registered.Some? ==>
         Before(w.guards[j].registered.value, w.guards[id].registered.value)
  }

  lemma LastIsYoungest(w: World, id: Id)
    requires LocksOk(w) && EntriesOk(w) && id in w.guards && w.guards[id].registered.Some?
    ensures w.sh.running != []
    ensures w.sh.running[|w.sh.running| - 1].name == w.guards[id].registered.value <==> IsYoungest(w, id)
  {
    hide EntriesOk, LocksOk;
    var r, n := w.sh.running, w.guards[id].registered.value;
    OwnEntryAt(w, id);
    var k :| 0 <= k < |r| && r[k].name == n;
    LastIsRegistered(w, r[|r| - 1]);
    forall j | j in w.guards && j != id && w.guards[j].registered.Some?
      ensures exists i :: 0 <= i < |r| && r[i].name == w.guards[j].registered.value && i != k
    {
      OwnEntryAt(w, j);
    }
    if k < |r| - 1 {
      assert Before(r[k].name, r[|r| - 1].name);
    }
  }

  lemma LastIsRegistered(w: World, last: Entry<nat>)
    requires LocksOk(w) && EntriesOk(w) && last in w.sh.running
    ensures last.name.pid in w.guards && w.guards[last.name.pid].registered == Some(last.name)
  {
    var g := w.guards[last.name.pid];
    assert OwnEntriesOk(w.sh, g) && g.id == last.name.pid;
  }

  lemma OwnEntryAt(w: World, j: Id)
    requires LocksOk(w) && EntriesOk(w) && j in w.guards && w.guards[j].registered.Some?
    ensures w.guards[j].registered.value.pid == j && Sorted(w.sh.running)
    ensures exists i :: 0 <= i < |w.sh.running| && w.sh.running[i].name == w.guards[j].registered.value
  {
    var g := w.guards[j];
    assert OwnEntriesOk(w.sh, g) && g.id == j;
    assert Entry(g.registered.value, Excess(g)) in w.sh.running;
  }

  /**
   A workload may be stopped exactly if it runs, is overcommitted, all other overcommitted ones were admitted before
   it, and the last stop is a hold-off ago.
   */
  lemma StopsTheYoungest(w: World, id: Id)
    requires Reachable(w)
    ensures CanMove(w, Act(id, Preempting)) <==>
              && IsYoungest(w, id) && w.guards[id].phase == Running
              && w.sh.clock - w.sh.lastPreemption >= 5_000_000_000
  {
    hide Reachable, LocksOk, EntriesOk;
    ReachableIsSound(w);
    if id in w.guards && w.guards[id].registered.Some? {
      LastIsYoungest(w, id);
    }
  }

  // --- How far apart ---

  lemma InsideKeepsLast(sh: Shared, g: Guard)
    requires g.naming.None? && Inside(g.phase)
    ensures Advance(sh, g).sh.lastPreemption == sh.lastPreemption
  {
    hide MyTurn, NewName, Withdraw, Reserve, Goal, GiveBack, HoldsLock, LetCollect, ElasticRoom, WithinBound, Excess;
  }

  lemma AdvanceKeepsLast(sh: Shared, g: Guard)
    ensures Advance(sh, g).sh.lastPreemption == sh.lastPreemption
  {
    if g.naming.None? && Inside(g.phase) {
      InsideKeepsLast(sh, g);
    } else {
      hide MyTurn, FirstInLine, NewName, Withdraw, WorkspaceOf, CloseLocks, ElasticRoom;
    }
  }

  lemma PerformKeepsLast(sh: Shared, g: Guard, a: Action)
    requires Enabled(sh, g, a)
    ensures Perform(sh, g, a).sh.lastPreemption == if a.Preempting? then sh.clock else sh.lastPreemption
  {
    hide Advance, MyTurn, NewName, Withdraw, CloseLocks, Unmet, LargestNeed;
    if a.Advancing? {
      AdvanceKeepsLast(sh, g);
    }
  }

  /** Stopped at this instant or later. */
  predicate StoppedSince(w: World, since: nat) {
    since <= w.sh.lastPreemption && since <= w.sh.clock
  }

  lemma MoveKeepsLast(v: World, w: World, since: nat)
    requires Moves(v, w) && StoppedSince(v, since)
    ensures StoppedSince(w, since)
  {
    var m :| CanMove(v, m) && w == After(v, m);
    if m.Act? {
      PerformKeepsLast(v.sh, v.guards[m.id], m.action);
      SameClock(v.sh, v.guards[m.id], m.action);
    }
    hide Perform, Enabled;
  }

  lemma {:induction false} RunKeepsLast(v: World, w: World, k: nat, since: nat)
    requires LeadsTo(v, w, k) && StoppedSince(v, since)
    ensures StoppedSince(w, since)
    decreases k
  {
    hide Moves;
    if k > 0 {
      var u :| LeadsTo(v, u, k - 1) && Moves(u, w);
      RunKeepsLast(v, u, k - 1, since);
      MoveKeepsLast(u, w, since);
    }
  }

  /** Whatever happens in between, two stops are at least a hold-off apart. */
  lemma StopsAreApart(v: World, w: World, k: nat, i: Id, j: Id)
    requires CanMove(v, Act(i, Preempting)) && LeadsTo(After(v, Act(i, Preempting)), w, k)
    requires CanMove(w, Act(j, Preempting))
    ensures w.sh.clock - v.sh.clock >= 5_000_000_000
  {
    RunKeepsLast(After(v, Act(i, Preempting)), w, k, v.sh.clock);
  }
}
