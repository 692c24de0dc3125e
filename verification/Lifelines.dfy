/**
 Lifelines over every interleaving: of each elastic workload at most one part queues with a lifeline ticket, and none
 takes it while a part of that workload runs.
 */
module Lifelines {
  import opened Wrappers
  import opened Registries
  import opened Charge
  import opened Machine
  import opened Worlds
  import opened LockBooks
  import opened Phases
  import opened Decisions

  /** It has its workload's lifeline. */
  predicate HasLifeline(g: Guard) {
    g.lane == Leaf && g.phase != Gone
  }

  ghost predicate LeafOk(leaves: seq<Entry<nat>>, g: Guard) {
    && (g.leaf.Some? ==>
          && g.leaf.value.pid == g.id && Entry(g.leaf.value, g.job.workload) in leaves
          && g.job.sub && (g.phase.Admitted? || g.phase.Running?))
    && (g.job.sub && g.phase.Running? ==> g.leaf.Some?)
    && (forall e :: e in leaves && e.name.pid == g.id ==> g.leaf == Some(e.name) && e.value == g.job.workload)
  }

  ghost predicate LifelineOk(lifelines: map<nat, Id>, g: Guard) {
    && (HasLifeline(g) ==> g.job.sub && g.job.workload in lifelines && lifelines[g.job.workload] == g.id)
    && (forall x :: x in lifelines && lifelines[x] == g.id ==> HasLifeline(g) && g.job.workload == x)
  }

  /** Entries and lifelines are those of parts that exist, and say where those are. */
  ghost predicate PartsOk(w: World) {
    && Sorted(w.sh.leaves)
    && (forall e :: e in w.sh.leaves ==> e.name.pid in w.guards)
    && (forall x :: x in w.sh.locks.lifelines ==> w.sh.locks.lifelines[x] in w.guards)
    && (forall i :: i in w.guards ==>
          && w.guards[i].id == i && LeafOk(w.sh.leaves, w.guards[i])
          && LifelineOk(w.sh.locks.lifelines, w.guards[i]))
  }

  // --- One guard's step ---

  ghost predicate LeafFrame(r: seq<Entry<nat>>, r': seq<Entry<nat>>, id: Id) {
    && (forall e :: e in r && e.name.pid != id ==> e in r')
    && (forall e :: e in r' && e.name.pid != id ==> e in r)
  }

  ghost predicate LifelineFrame(t: map<nat, Id>, t': map<nat, Id>, id: Id) {
    && (forall x :: x in t && t[x] != id ==> x in t' && t'[x] == t[x])
    && (forall x :: x in t' && t'[x] != id ==> x in t && t[x] == t'[x])
  }

  ghost predicate KeepsParts(sh: Shared, g: Guard, b: Both) {
    && b.g.id == g.id && Sorted(b.sh.leaves)
    && LeafOk(b.sh.leaves, b.g) && LifelineOk(b.sh.locks.lifelines, b.g)
    && LeafFrame(sh.leaves, b.sh.leaves, g.id) && LifelineFrame(sh.locks.lifelines, b.sh.locks.lifelines, g.id)
  }

  ghost predicate PartReady(sh: Shared, g: Guard) {
    Sorted(sh.leaves) && LeafOk(sh.leaves, g) && LifelineOk(sh.locks.lifelines, g)
  }

  /** Steps that leave leaves and lifelines alone. */
  ghost predicate PartQuiet(sh: Shared, g: Guard, b: Both) {
    && b.sh.leaves == sh.leaves && b.sh.locks.lifelines == sh.locks.lifelines
    && b.g.id == g.id && b.g.job == g.job && b.g.lane == g.lane && b.g.leaf == g.leaf
    && (b.g.phase.Gone? <==> g.phase.Gone?)
    && (b.g.phase.Running? && g.job.sub ==> g.leaf.Some?)
    && (g.leaf.Some? ==> b.g.phase.Admitted? || b.g.phase.Running?)
  }

  lemma QuietKeepsParts(sh: Shared, g: Guard, b: Both)
    requires PartReady(sh, g) && PartQuiet(sh, g, b)
    ensures KeepsParts(sh, g, b)
  {
    hide Sorted;
  }

  lemma InsideKeepsLeaves(sh: Shared, g: Guard)
    requires g.naming.None? && Inside(g.phase) && !g.phase.Admitted?
    ensures Advance(sh, g).sh.leaves == sh.leaves && Advance(sh, g).g.leaf == g.leaf
  {
    hide MyTurn, NewName, Withdraw, Reserve, Goal, GiveBack, HoldsLock, ElasticRoom, WithinBound, Excess;
  }

  lemma InsideKeepsLifelines(sh: Shared, g: Guard)
    requires g.naming.None? && Inside(g.phase) && !g.phase.Admitted?
    ensures Advance(sh, g).sh.locks.lifelines == sh.locks.lifelines
  {
    hide MyTurn, NewName, Withdraw, Reserve, Goal, HoldsLock, ElasticRoom, WithinBound, Excess;
  }

  lemma InsideIsPartQuiet(sh: Shared, g: Guard)
    requires g.naming.None? && Inside(g.phase) && !g.phase.Admitted? && g.leaf.None?
    ensures PartQuiet(sh, g, Advance(sh, g))
  {
    InsideKeepsLeaves(sh, g);
    InsideKeepsLifelines(sh, g);
    InsideIsSameLane(sh, g);
    AdvanceKeepsJob(sh, g);
    AdvanceGoes(sh, g);
    hide Advance;
  }

  lemma ApproachKeepsLeaves(sh: Shared, g: Guard)
    requires g.naming.None? && Approaching(g.phase)
    ensures var b := Advance(sh, g);
            && b.sh.leaves == sh.leaves && b.sh.locks.lifelines == sh.locks.lifelines
            && b.g.leaf == g.leaf && b.g.lane == g.lane
  {
    hide MyTurn, FirstInLine, NewName, Withdraw, WorkspaceOf, ElasticRoom, Publish, Unlink;
  }

  lemma ApproachIsPartQuiet(sh: Shared, g: Guard)
    requires g.naming.None? && Approaching(g.phase) && g.leaf.None?
    ensures PartQuiet(sh, g, Advance(sh, g))
  {
    ApproachKeepsLeaves(sh, g);
    AdvanceKeepsJob(sh, g);
    AdvanceGoes(sh, g);
    hide Advance;
  }

  lemma RestKeepsLeaves(sh: Shared, g: Guard)
    requires g.naming.Some? || (!Approaching(g.phase) && !Inside(g.phase) && !g.phase.Closing?)
    ensures var b := Advance(sh, g);
            && b.sh.leaves == sh.leaves && b.sh.locks.lifelines == sh.locks.lifelines
            && b.g.leaf == g.leaf && b.g.lane == g.lane
  {
    hide NewName, Withdraw;
  }

  lemma RestIsPartQuiet(sh: Shared, g: Guard)
    requires g.naming.Some? || (!Approaching(g.phase) && !Inside(g.phase) && !g.phase.Closing?)
    requires g.leaf.Some? ==> g.phase.Admitted? || g.phase.Running?
    requires g.job.sub && g.phase.Running? ==> g.leaf.Some?
    ensures PartQuiet(sh, g, Advance(sh, g))
  {
    RestKeepsLeaves(sh, g);
    AdvanceKeepsJob(sh, g);
    AdvanceGoes(sh, g);
    hide Advance;
  }

  lemma SettleIsPartQuiet(sh: Shared, g: Guard, path: Path)
    requires g.phase == Admitted(path)
    requires sh.locks.register == Some(g.id) || sh.locks.queue == Some(g.id) || g.ticket.Some? || g.waiting.Some?
          || g.inLine.Some? || !g.job.sub || g.leaf.Some?
    ensures PartQuiet(sh, g, Settle(sh, g, path))
  {
    hide NewName, Withdraw;
  }

  /** An admitted part says so before its workload starts. */
  lemma SayingSoKeepsParts(sh: Shared, g: Guard, path: Path)
    requires PartReady(sh, g) && g.phase == Admitted(path) && g.job.sub && g.leaf.None?
    requires Settle(sh, g, path) == Both(sh.(leaves := Publish(sh.leaves, Entry(NewName(sh, g), g.job.workload))),
                                         g.(leaf := Some(NewName(sh, g)), serial := g.serial + 1))
    ensures KeepsParts(sh, g, Settle(sh, g, path))
  {
    hide Settle, Sorted;
    PublishAdds(sh.leaves, Entry(NewName(sh, g), g.job.workload));
  }

  lemma SettleKeepsParts(sh: Shared, g: Guard, path: Path)
    requires PartReady(sh, g) && g.phase == Admitted(path)
    ensures KeepsParts(sh, g, Settle(sh, g, path))
  {
    hide PartReady, KeepsParts, PartQuiet, Withdraw, LetCollect;
    if sh.locks.register == Some(g.id) || sh.locks.queue == Some(g.id) || g.ticket.Some? || g.waiting.Some?
       || g.inLine.Some? || !g.job.sub || g.leaf.Some? {
      SettleIsPartQuiet(sh, g, path);
      QuietKeepsParts(sh, g, Settle(sh, g, path));
    } else {
      SayingSoKeepsParts(sh, g, path);
    }
  }

  lemma ClosingKeepsParts(sh: Shared, g: Guard)
    requires PartReady(sh, g) && g.leaf.None?
    ensures KeepsParts(sh, g, Both(sh.(locks := CloseLocks(sh.locks, g.id)), g.(held := [], phase := Gone)))
  {
  }

  lemma LeafFacts(sh: Shared, g: Guard)
    requires PartReady(sh, g)
    ensures g.leaf.Some? ==> g.phase.Admitted? || g.phase.Running?
    ensures g.job.sub && g.phase.Running? ==> g.leaf.Some?
  {
  }

  lemma AdvanceKeepsParts(sh: Shared, g: Guard)
    requires PartReady(sh, g)
    ensures KeepsParts(sh, g, Advance(sh, g))
  {
    hide PartReady, KeepsParts, PartQuiet, Settle, CloseLocks, StepScanning, StepDropping, StepQueueing, StepOutside,
        StepMain, StepJudging, StepPublishing, Undo, StepWorkspace, StepDeciding, StepDraining, StepAnnounced,
        StepSurplus, StepRegistering, StepSawTurn;
    LeafFacts(sh, g);
    if g.naming.None? && g.phase.Admitted? {
      SettleKeepsParts(sh, g, g.phase.path);
    } else if g.naming.None? && g.phase.Closing? {
      ClosingKeepsParts(sh, g);
    } else {
      if g.naming.None? && Inside(g.phase) {
        InsideIsPartQuiet(sh, g);
      } else if g.naming.None? && Approaching(g.phase) {
        ApproachIsPartQuiet(sh, g);
      } else {
        RestIsPartQuiet(sh, g);
      }
      QuietKeepsParts(sh, g, Advance(sh, g));
    }
  }

  lemma WithdrawAllKeepsParts(sh: Shared, g: Guard)
    requires PartReady(sh, g)
    ensures var b := WithdrawAll(sh, g);
            && Sorted(b.sh.leaves) && LeafFrame(sh.leaves, b.sh.leaves, g.id) && b.g.leaf.None?
            && b.sh.locks == sh.locks && b.g.id == g.id && b.g.job == g.job && b.g.lane == g.lane
            && forall e :: e in b.sh.leaves ==> e.name.pid != g.id
  {
    hide Sorted;
    if g.leaf.Some? {
      UnlinkRemoves(sh.leaves, g.leaf.value);
    }
  }

  lemma ReleaseKeepsParts(sh: Shared, g: Guard)
    requires PartReady(sh, g) && g.phase != Gone
    ensures KeepsParts(sh, g, Release(sh, g)) && KeepsParts(sh, g, Die(sh, g))
  {
    hide Sorted;
    WithdrawAllKeepsParts(sh, g);
    hide WithdrawAll;
  }

  lemma TakingLifelineKeepsParts(sh: Shared, g: Guard)
    requires PartReady(sh, g) && CanTakeLifeline(sh, g)
    ensures KeepsParts(sh, g, TakeLifeline(sh, g))
  {
    hide Sorted, Withdraw, NewName;
  }

  lemma OtherActionsArePartQuiet(sh: Shared, g: Guard, a: Action)
    requires PartReady(sh, g) && Enabled(sh, g, a) && (a.Waiting? || a.Backfilling? || a.Trying? || a.Preempting?)
    requires a.Preempting? ==> !g.job.sub
    ensures PartQuiet(sh, g, Perform(sh, g, a))
  {
    hide Advance, MyTurn, NewName, Withdraw, Sorted, Unmet, LargestNeed;
  }

  lemma PerformKeepsParts(sh: Shared, g: Guard, a: Action)
    requires PartReady(sh, g) && Enabled(sh, g, a) && (a.Preempting? ==> !g.job.sub)
    ensures KeepsParts(sh, g, Perform(sh, g, a))
  {
    hide PartReady, KeepsParts, PartQuiet, Advance, Release, Die, TakeLifeline;
    match a
    case Advancing => AdvanceKeepsParts(sh, g);
    case Lifeline => TakingLifelineKeepsParts(sh, g);
    case Releasing => ReleaseKeepsParts(sh, g);
    case Dying => ReleaseKeepsParts(sh, g);
    case _ =>
      OtherActionsArePartQuiet(sh, g, a);
      QuietKeepsParts(sh, g, Perform(sh, g, a));
  }

  // --- Every move ---

  lemma OthersKeepParts(sh: Shared, sh': Shared, id: Id, g: Guard)
    requires LeafOk(sh.leaves, g) && LifelineOk(sh.locks.lifelines, g) && g.id != id
    requires LeafFrame(sh.leaves, sh'.leaves, id) && LifelineFrame(sh.locks.lifelines, sh'.locks.lifelines, id)
    ensures LeafOk(sh'.leaves, g) && LifelineOk(sh'.locks.lifelines, g)
  {
  }

  lemma PartsStayApart(w: World, id: Id, b: Both)
    requires PartsOk(w) && id in w.guards && KeepsParts(w.sh, w.guards[id], b)
    ensures PartsOk(World(b.sh, w.guards[id := b.g]))
  {
    hide Sorted, LeafOk, LifelineOk;
    forall j | j in w.guards && j != id
      ensures LeafOk(b.sh.leaves, w.guards[j]) && LifelineOk(b.sh.locks.lifelines, w.guards[j])
    {
      OthersKeepParts(w.sh, b.sh, id, w.guards[j]);
    }
    forall e | e in b.sh.leaves
      ensures e.name.pid in w.guards[id := b.g]
    {
      assert e.name.pid != id ==> e in w.sh.leaves;
    }
    forall x | x in b.sh.locks.lifelines
      ensures b.sh.locks.lifelines[x] in w.guards[id := b.g]
    {
      assert b.sh.locks.lifelines[x] != id ==> x in w.sh.locks.lifelines;
    }
  }

  lemma NewcomerIsNoPart(w: World, id: Id, a: Args)
    requires PartsOk(w) && id !in w.guards && Parsed(a)
    ensures PartsOk(World(w.sh, w.guards[id := Newcomer(w.sh.capacity, id, a)]))
  {
    hide Sorted, Declared, Planned;
    forall e | e in w.sh.leaves
      ensures e.name.pid != id
    {
    }
    forall x | x in w.sh.locks.lifelines
      ensures w.sh.locks.lifelines[x] != id
    {
    }
  }

  lemma ActKeepsParts(w: World, id: Id, a: Action)
    requires PartsOk(w) && RegistrantsOk(w) && CanMove(w, Act(id, a))
    ensures PartsOk(After(w, Act(id, a)))
  {
    hide Sorted, LeafOk, LifelineOk, Perform, KeepsParts;
    var g := w.guards[id];
    StoppedIsNoPart(w.sh, g, a);
    PerformKeepsParts(w.sh, g, a);
    PartsStayApart(w, id, Perform(w.sh, g, a));
  }

  lemma StoppedIsNoPart(sh: Shared, g: Guard, a: Action)
    requires Enabled(sh, g, a) && (g.registered.Some? ==> !g.job.sub)
    ensures a.Preempting? ==> !g.job.sub
  {
  }

  lemma MoveKeepsParts(w: World, m: Move)
    requires PartsOk(w) && RegistrantsOk(w) && CanMove(w, m)
    ensures PartsOk(After(w, m))
  {
    match m
    case Tick(_) =>
    case Arrive(id, a) => NewcomerIsNoPart(w, id, a);
    case Act(id, a) => ActKeepsParts(w, id, a);
  }

  lemma {:induction false} ReachablePartsIn(capacity: nat, clock: nat, w: World, n: nat)
    requires 1 <= capacity && ReachableIn(capacity, clock, w, n)
    ensures PartsOk(w)
    decreases n
  {
    hide CanMove, After, PartsOk, RegistrantsOk;
    if n > 0 {
      var v :| ReachableIn(capacity, clock, v, n - 1) && Moves(v, w);
      ReachablePartsIn(capacity, clock, v, n - 1);
      ReachableRegistrants(capacity, clock, v, n - 1);
      var m :| CanMove(v, m) && w == After(v, m);
      MoveKeepsParts(v, m);
    } else {
      StartHasNoParts(capacity, clock);
    }
  }

  lemma StartHasNoParts(capacity: nat, clock: nat)
    ensures PartsOk(Start(capacity, clock))
  {
  }

  lemma ReachableParts(w: World)
    requires Reachable(w)
    ensures PartsOk(w)
  {
    var capacity: nat, clock: nat, n: nat :| 1 <= capacity && ReachableIn(capacity, clock, w, n);
    ReachablePartsIn(capacity, clock, w, n);
  }

  // --- What follows ---

  ghost predicate IsPartOf(w: World, j: Id, workload: nat) {
    j in w.guards && w.guards[j].job.sub && w.guards[j].job.workload == workload
  }

  /** At most one part of a workload queues with a lifeline ticket. */
  lemma OneLifelineEach(w: World, i: Id, j: Id)
    requires Reachable(w) && i in w.guards && j in w.guards && HasLifeline(w.guards[i]) && HasLifeline(w.guards[j])
    requires w.guards[i].job.workload == w.guards[j].job.workload
    ensures i == j
  {
    hide Reachable;
    ReachableParts(w);
    assert LifelineOk(w.sh.locks.lifelines, w.guards[i]) && LifelineOk(w.sh.locks.lifelines, w.guards[j]);
  }

  /**
   A waiting part may take its workload's lifeline exactly if none of its parts has it and none has said that it is
   admitted; a part that runs has said so.
   */
  lemma LifelineWhileNoPartRuns(w: World, id: Id)
    requires Reachable(w) && id in w.guards
    ensures var x := w.guards[id].job.workload;
            && (CanMove(w, Act(id, Lifeline)) <==>
                  && w.guards[id].job.sub && AtWait(w.guards[id])
                  && forall j :: IsPartOf(w, j, x) ==> !HasLifeline(w.guards[j]) && w.guards[j].leaf.None?)
            && forall j :: IsPartOf(w, j, x) && w.guards[j].phase == Running ==> w.guards[j].leaf.Some?
  {
    hide Reachable, AtWait;
    ReachableParts(w);
    var x := w.guards[id].job.workload;
    forall j | IsPartOf(w, j, x)
      ensures w.guards[j].leaf.Some? ==> exists e :: e in w.sh.leaves && e.value == x
      ensures HasLifeline(w.guards[j]) ==> x in w.sh.locks.lifelines
      ensures w.guards[j].phase == Running ==> w.guards[j].leaf.Some?
    {
      PartSaysSo(w.sh, w.guards[j]);
    }
    forall e | e in w.sh.leaves && e.value == x
      ensures exists j :: IsPartOf(w, j, x) && w.guards[j].leaf.Some?
    {
      assert LeafOk(w.sh.leaves, w.guards[e.name.pid]);
      assert IsPartOf(w, e.name.pid, x);
    }
    if x in w.sh.locks.lifelines {
      assert LifelineOk(w.sh.locks.lifelines, w.guards[w.sh.locks.lifelines[x]]);
      assert IsPartOf(w, w.sh.locks.lifelines[x], x);
    }
    WaitingIsNotGone(w.guards[id]);
  }

  lemma WaitingIsNotGone(g: Guard)
    ensures AtWait(g) ==> g.phase != Gone
  {
  }

  lemma PartSaysSo(sh: Shared, g: Guard)
    requires LeafOk(sh.leaves, g) && LifelineOk(sh.locks.lifelines, g)
    ensures g.leaf.Some? ==> exists e :: e in sh.leaves && e.value == g.job.workload
    ensures HasLifeline(g) ==> g.job.workload in sh.locks.lifelines
    ensures g.job.sub && g.phase == Running ==> g.leaf.Some?
  {
  }
}
