/**
 Workspace locks over every interleaving: a guard holds none but its own, and that only from where it has taken
 it to where it gives it back.
 */
module Workspaces {
  import opened Charge
  import opened Machine
  import opened Worlds
  import opened LockBooks
  import opened Phases

  /** The phases in which a guard's workspace may be locked. */
  predicate MayHoldWorkspace(p: Phase) {
    HasWorkspace(p) || p == Undoing(AsBackground) || p.Closing?
  }

  /** Workspace x may be locked by this guard. */
  ghost predicate IsOwn(g: Guard, x: nat) {
    x == g.job.workspace && !g.job.sub && MayHoldWorkspace(g.phase)
  }

  ghost predicate HoldsOnlyItsOwn(t: Locks, g: Guard) {
    forall x: nat :: WorkspaceOf(t, x).HeldBy(g.id) ==> IsOwn(g, x)
  }

  /** Every workspace that is locked is locked by a guard that exists, and by each for itself. */
  ghost predicate WorkspacesOk(w: World) {
    forall x: nat, id :: WorkspaceOf(w.sh.locks, x).HeldBy(id) ==> id in w.guards && IsOwn(w.guards[id], x)
  }

  /** Steps that leave the workspaces alone and stay where one may be held. */
  ghost predicate WorkspaceQuiet(sh: Shared, g: Guard, b: Both) {
    && b.sh.locks.workspaces == sh.locks.workspaces && b.g.id == g.id && b.g.job == g.job
    && (MayHoldWorkspace(g.phase) ==> MayHoldWorkspace(b.g.phase))
  }

  /** The phases whose steps lock or unlock workspaces. */
  predicate LocksWorkspaces(p: Phase) {
    p.Arrived? || p.TakingWorkspace? || p.Undoing? || p.Closing?
  }

  lemma ScanIsWorkspaceQuiet(sh: Shared, g: Guard)
    requires g.naming.None? && (g.phase.Scanning? || g.phase.Dropping? || g.phase.Surplus?)
    ensures WorkspaceQuiet(sh, g, Advance(sh, g))
  {
    hide NewName, Reserve, Goal, MayHoldWorkspace;
    EndsWithWorkspace(sh, g);
  }

  /** Every way out of a scan may still hold the workspace. */
  lemma EndsWithWorkspace(sh: Shared, g: Guard)
    requires g.naming.None? && (g.phase.Scanning? || g.phase.Dropping? || g.phase.Surplus?)
    ensures MayHoldWorkspace(Advance(sh, g).g.phase)
  {
    hide NewName, Reserve, Goal;
  }

  lemma InsideIsWorkspaceQuiet(sh: Shared, g: Guard)
    requires g.naming.None? && Inside(g.phase) && !g.phase.Undoing?
    requires !g.phase.Scanning? && !g.phase.Dropping? && !g.phase.Surplus?
    ensures WorkspaceQuiet(sh, g, Advance(sh, g))
  {
    hide MyTurn, NewName, Withdraw, ElasticRoom, WithinBound, Excess;
  }

  /** It leaves the workspaces alone and stays the guard it is. */
  ghost predicate LeavesWorkspaces(sh: Shared, g: Guard, b: Both) {
    b.sh.locks.workspaces == sh.locks.workspaces && b.g.id == g.id && b.g.job == g.job
  }

  lemma QueueingLeavesWorkspaces(sh: Shared, g: Guard)
    requires g.naming.None? && (g.phase.Queueing? || g.phase.Outside?)
    ensures LeavesWorkspaces(sh, g, Advance(sh, g))
  {
    hide MyTurn, FirstInLine, NewName, Withdraw, ElasticRoom;
  }

  lemma OutsideLeavesWorkspaces(sh: Shared, g: Guard)
    requires g.naming.Some? || (!Inside(g.phase) && !LocksWorkspaces(g.phase))
    ensures LeavesWorkspaces(sh, g, Advance(sh, g))
  {
    if g.naming.None? && (g.phase.Queueing? || g.phase.Outside?) {
      hide Advance;
      QueueingLeavesWorkspaces(sh, g);
    } else {
      hide StepQueueing, StepOutside, CloseLocks, WorkspaceOf, NewName;
    }
  }

  lemma OutsideIsWorkspaceQuiet(sh: Shared, g: Guard)
    requires g.naming.Some? || (!Inside(g.phase) && !LocksWorkspaces(g.phase))
    ensures WorkspaceQuiet(sh, g, Advance(sh, g))
  {
    hide Advance;
    OutsideLeavesWorkspaces(sh, g);
    AdvanceGoes(sh, g);
  }

  lemma AdvanceIsWorkspaceQuiet(sh: Shared, g: Guard)
    requires g.naming.Some? || !LocksWorkspaces(g.phase)
    ensures WorkspaceQuiet(sh, g, Advance(sh, g))
  {
    hide Advance, WorkspaceQuiet;
    if g.naming.Some? || !Inside(g.phase) {
      OutsideIsWorkspaceQuiet(sh, g);
    } else if g.phase.Scanning? || g.phase.Dropping? || g.phase.Surplus? {
      ScanIsWorkspaceQuiet(sh, g);
    } else {
      InsideIsWorkspaceQuiet(sh, g);
    }
  }

  lemma QuietHoldsOnlyItsOwn(sh: Shared, g: Guard, b: Both)
    requires HoldsOnlyItsOwn(sh.locks, g) && WorkspaceQuiet(sh, g, b)
    ensures HoldsOnlyItsOwn(b.sh.locks, b.g)
  {
    forall x: nat | WorkspaceOf(b.sh.locks, x).HeldBy(g.id)
      ensures IsOwn(b.g, x)
    {
      assert WorkspaceOf(sh.locks, x).HeldBy(g.id);
    }
  }

  lemma OnlyOneIsTaken(t: Locks, w: nat, lock: RwLock, id: Id, x: nat)
    requires WorkspaceOf(t.(workspaces := t.workspaces[w := lock]), x).HeldBy(id) && !WorkspaceOf(t, x).HeldBy(id)
    ensures x == w
  {
  }

  lemma TakingKeepsOwn(sh: Shared, g: Guard, then_: Phase, else_: Phase)
    requires HoldsOnlyItsOwn(sh.locks, g) && !g.job.sub && !MayHoldWorkspace(g.phase) && MayHoldWorkspace(then_)
    ensures var b := StepWorkspace(sh, g, then_, else_); HoldsOnlyItsOwn(b.sh.locks, b.g)
  {
    hide MayHoldWorkspace;
    var b := StepWorkspace(sh, g, then_, else_);
    forall x: nat
      ensures !WorkspaceOf(sh.locks, x).HeldBy(g.id)
    {
    }
    if b.sh.locks != sh.locks {
      var lock := WorkspaceOf(sh.locks, g.job.workspace);
      var lock' := if g.job.sharedWorkspace then lock.Share(g.id) else lock.Own(g.id);
      TakenKeepsOwn(sh.locks, g.(phase := then_), lock');
    }
  }

  lemma TakenKeepsOwn(t: Locks, g: Guard, lock: RwLock)
    requires !g.job.sub && MayHoldWorkspace(g.phase) && forall x: nat :: !WorkspaceOf(t, x).HeldBy(g.id)
    ensures HoldsOnlyItsOwn(t.(workspaces := t.workspaces[g.job.workspace := lock]), g)
  {
    hide MayHoldWorkspace;
    forall x: nat | WorkspaceOf(t.(workspaces := t.workspaces[g.job.workspace := lock]), x).HeldBy(g.id)
      ensures IsOwn(g, x)
    {
      OnlyOneIsTaken(t, g.job.workspace, lock, g.id, x);
    }
  }

  lemma UndoKeepsOwn(sh: Shared, g: Guard, path: Path)
    requires HoldsOnlyItsOwn(sh.locks, g) && g.phase == Undoing(path)
    ensures var b := Undo(sh, g, path); HoldsOnlyItsOwn(b.sh.locks, b.g)
  {
    var b := Undo(sh, g, path);
    forall x: nat | WorkspaceOf(b.sh.locks, x).HeldBy(g.id)
      ensures IsOwn(b.g, x)
    {
      assert WorkspaceOf(sh.locks, x).HeldBy(g.id);
      assert IsOwn(g, x);
    }
  }

  lemma CloseKeepsOwn(t: Locks, id: Id)
    ensures forall x: nat :: !WorkspaceOf(CloseLocks(t, id), x).HeldBy(id)
  {
    var t' := CloseLocks(t, id);
    forall x: nat
      ensures !WorkspaceOf(t', x).HeldBy(id)
    {
      if x in t.workspaces {
        assert t'.workspaces[x] == t.workspaces[x].Leave(id);
      }
    }
  }

  lemma AdvanceKeepsOwn(sh: Shared, g: Guard)
    requires HoldsOnlyItsOwn(sh.locks, g)
    requires g.phase.TakingWorkspace? ==> !g.job.sub
    ensures HoldsOnlyItsOwn(Advance(sh, g).sh.locks, Advance(sh, g).g)
  {
    if g.naming.Some? || !LocksWorkspaces(g.phase) {
      AdvanceIsWorkspaceQuiet(sh, g);
      QuietHoldsOnlyItsOwn(sh, g, Advance(sh, g));
    } else {
      match g.phase
      case Arrived =>
        if g.lane != Background && !g.job.sub {
          TakingKeepsOwn(sh, g, Outside, Arrived);
        } else {
          QuietHoldsOnlyItsOwn(sh, g, Advance(sh, g));
        }
      case TakingWorkspace => TakingKeepsOwn(sh, g, TakingQueue, Undoing(AsBackground));
      case Undoing(path) => UndoKeepsOwn(sh, g, path);
      case Closing => CloseKeepsOwn(sh.locks, g.id);
    }
  }

  lemma PerformKeepsOwn(sh: Shared, g: Guard, a: Action)
    requires HoldsOnlyItsOwn(sh.locks, g) && Enabled(sh, g, a)
    requires g.phase.TakingWorkspace? ==> !g.job.sub
    ensures HoldsOnlyItsOwn(Perform(sh, g, a).sh.locks, Perform(sh, g, a).g)
  {
    var b := Perform(sh, g, a);
    match a
    case Advancing => AdvanceKeepsOwn(sh, g);
    case Dying => CloseKeepsOwn(WithdrawAll(sh, g).sh.locks, g.id);
    case _ => QuietHoldsOnlyItsOwn(sh, g, b);
  }

  lemma OthersWorkspacesStay(t: Locks, t': Locks, id: Id, other: Id, x: nat)
    requires LockFrame(t, t', id) && other != id
    ensures WorkspaceOf(t, x).HeldBy(other) <==> WorkspaceOf(t', x).HeldBy(other)
  {
    assert RwFrame(WorkspaceOf(t, x), WorkspaceOf(t', x), id);
    RwFrameMembers(WorkspaceOf(t, x), WorkspaceOf(t', x), id, other);
  }

  lemma OwnOnly(w: World, id: Id)
    requires LocksOk(w) && WorkspacesOk(w) && id in w.guards
    ensures HoldsOnlyItsOwn(w.sh.locks, w.guards[id])
  {
  }

  lemma ActKeepsWorkspaces(w: World, id: Id, a: Action)
    requires LocksOk(w) && LanesOk(w) && WorkspacesOk(w) && CanMove(w, Act(id, a))
    ensures WorkspacesOk(After(w, Act(id, a)))
  {
    hide Perform, Enabled;
    var g := w.guards[id];
    var b := Perform(w.sh, g, a);
    assert GuardOk(w.sh, g) && LaneOk(g) && g.id == id;
    PerformKeeps(w.sh, g, a);
    OwnOnly(w, id);
    PerformKeepsOwn(w.sh, g, a);
    forall x: nat, j | WorkspaceOf(b.sh.locks, x).HeldBy(j)
      ensures j in w.guards[id := b.g] && IsOwn(w.guards[id := b.g][j], x)
    {
      if j != id {
        OthersWorkspacesStay(w.sh.locks, b.sh.locks, id, j, x);
      }
    }
  }

  lemma MoveKeepsWorkspaces(w: World, m: Move)
    requires LocksOk(w) && LanesOk(w) && WorkspacesOk(w) && CanMove(w, m)
    ensures WorkspacesOk(After(w, m))
  {
    if m.Act? {
      ActKeepsWorkspaces(w, m.id, m.action);
    }
  }
}
