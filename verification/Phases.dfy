/**
 How a guard's program goes from phase to phase, and which guards are where: a waiting lane holds its ticket or has
 named it, only a normal guard backfills, only a background guard makes a background attempt.
 */
module Phases {
  import opened Charge
  import opened Machine
  import opened Worlds
  import opened LockBooks

  /** One step of a guard's program leads from p to q. */
  predicate GoesTo(p: Phase, q: Phase) {
    match p
    case Arrived => q.Arrived? || q.Outside?
    case Outside => q.Outside? || q.Queueing?
    case Queueing => q.Queueing? || q.SawTurn?
    case SawTurn => q.Queueing? || q.Deciding? || q == TakingMain(AsHead)
    case Offering(want, need) => q.Queueing? || q == TakingMain(AsBackfill(want, need))
    case TakingWorkspace => q.TakingQueue? || q == Undoing(AsBackground)
    case TakingQueue => q == TakingMain(AsBackground) || q == Undoing(AsBackground)
    case TakingMain(path) =>
      if path.AsHead? then q == p || q.Deciding? else q == Scanning(path, 0) || q == Undoing(path)
    case Deciding => q == Undoing(AsHead) || q.Draining? || q == Scanning(AsHead, 0)
    case Draining => q == Admitted(AsHead) || q.Deciding?
    case Scanning(path, next) =>
      || q == Scanning(path, next + 1)
      || (if path.AsHead? then q == Registering(path) || q.Dropping?
          else q == Undoing(path) || q == if path.AsBackfill? then Surplus(path) else Registering(path))
    case Dropping(keep) => q == p || q.Deciding? || q.Announced?
    case Announced => q.Deciding?
    case Surplus(path) => q == p || q == Judging(path)
    case Registering(path) => q == Judging(path) || q == if path.AsHead? then p else Undoing(path)
    case Judging(path) => q == Publishing(path) || q == Admitted(path) || q == Undoing(path)
        || (path.AsHead? && q.Regrouping?)
    case Publishing(path) => q == Admitted(path)
    case Regrouping => q.Deciding?
    case Undoing(path) => q == p || (if path.AsHead? then q.Outside? else if path.AsBackfill? then q.Queueing?
        else q.Arrived?)
    case Admitted(path) => q == p || q.Running?
    case Running | Stopping | Gone => q == p
    case Closing => q.Gone?
  }

  lemma InsideGoes(sh: Shared, g: Guard)
    requires g.naming.None? && Inside(g.phase) && !IsLast(g.phase)
    ensures GoesTo(g.phase, Advance(sh, g).g.phase)
  {
    hide MyTurn, NewName, Reserve, Goal;
  }

  /** The phases after a check, or on the way back. */
  predicate IsLast(p: Phase) {
    p.Undoing? || p.Admitted? || p.Publishing? || p.Judging?
  }

  lemma LastGoes(sh: Shared, g: Guard)
    requires g.naming.None? && IsLast(g.phase)
    ensures GoesTo(g.phase, Advance(sh, g).g.phase)
  {
    hide NewName, Withdraw, ElasticRoom, WithinBound, GiveBack, LetCollect, HoldsLock;
  }

  lemma ApproachGoes(sh: Shared, g: Guard)
    requires g.naming.None? && Approaching(g.phase)
    ensures GoesTo(g.phase, Advance(sh, g).g.phase)
  {
    hide MyTurn, FirstInLine, NewName, Withdraw, ElasticRoom, WorkspaceOf;
  }

  lemma AttemptGoes(sh: Shared, g: Guard)
    requires g.naming.None? && !Inside(g.phase) && !Approaching(g.phase)
    ensures GoesTo(g.phase, Advance(sh, g).g.phase)
  {
  }

  /** A guard with a ticket to publish does that first, and stays where it is. */
  lemma AdvanceGoes(sh: Shared, g: Guard)
    ensures if g.naming.Some? then Advance(sh, g).g.phase == g.phase else GoesTo(g.phase, Advance(sh, g).g.phase)
  {
    if g.naming.None? {
      hide Advance;
      if Approaching(g.phase) {
        ApproachGoes(sh, g);
      } else if IsLast(g.phase) {
        LastGoes(sh, g);
      } else if Inside(g.phase) {
        InsideGoes(sh, g);
      } else {
        AttemptGoes(sh, g);
      }
    }
  }

  /** Only time itself moves on. */
  lemma SameClock(sh: Shared, g: Guard, a: Action)
    ensures Perform(sh, g, a).sh.clock == sh.clock
  {
    hide MyTurn, FirstInLine, NewName, Withdraw, Reserve, GiveBack, HoldsLock, LetCollect, CloseLocks;
  }

  /** In the queue loop or past it: every lane but the normal one is there with a ticket, or about to have it. */
  ghost predicate InLane(g: Guard) {
    g.lane != Background && (g.lane != Normal ==> g.ticket.Some? || g.naming.Some?)
  }

  ghost predicate OnPath(g: Guard, path: Path) {
    match path
    case AsHead => InLane(g)
    case AsBackfill(_, _) => g.lane == Normal
    case AsBackground => g.lane == Background
  }

  ghost predicate PhaseLaneOk(g: Guard) {
    match g.phase
    case Outside => g.lane != Background
    case Queueing | SawTurn | Deciding | Draining | Dropping(_) | Announced | Regrouping => InLane(g)
    case Offering(_, _) => g.lane == Normal
    case TakingWorkspace => g.lane == Background && !g.job.sub
    case TakingQueue => g.lane == Background
    case TakingMain(path) => OnPath(g, path)
    case Scanning(path, _) => OnPath(g, path)
    case Surplus(path) => OnPath(g, path)
    case Registering(path) => OnPath(g, path)
    case Judging(path) => OnPath(g, path)
    case Publishing(path) => OnPath(g, path)
    case Undoing(path) => OnPath(g, path)
    case Running | Stopping | Closing | Gone => g.ticket.None?
    case _ => true
  }

  /** A guard with a ticket to publish stands outside the queue or waits with a lifeline. */
  ghost predicate NamingOk(g: Guard) {
    g.naming.Some? ==>
      || g.phase.Outside?
      || (g.lane == Leaf && g.phase in {Arrived, Queueing, Deciding, TakingMain(AsHead), Registering(AsHead)})
  }

  ghost predicate LaneOk(g: Guard) {
    PhaseLaneOk(g) && NamingOk(g)
  }

  ghost predicate LanesOk(w: World) {
    forall id :: id in w.guards ==> LaneOk(w.guards[id])
  }

  /** It stays what it is, with the ticket it has. */
  ghost predicate SameLane(g: Guard, g': Guard) {
    g'.job == g.job && g'.lane == g.lane && g'.ticket == g.ticket && g'.naming == g.naming
  }

  lemma InsideIsSameLane(sh: Shared, g: Guard)
    requires g.naming.None? && Inside(g.phase) && !g.phase.Admitted?
    ensures SameLane(g, Advance(sh, g).g)
  {
    hide MyTurn, NewName, Withdraw, ElasticRoom, WithinBound, Reserve, Excess, GiveBack, HoldsLock, Goal;
  }

  lemma QueueingIsSameLane(sh: Shared, g: Guard)
    requires g.naming.None? && g.phase.Queueing?
    ensures SameLane(g, Advance(sh, g).g)
  {
    hide MyTurn, FirstInLine, NewName, Withdraw;
  }

  lemma OtherIsSameLane(sh: Shared, g: Guard)
    requires g.naming.None? && !Inside(g.phase) && !g.phase.Outside?
    ensures SameLane(g, Advance(sh, g).g)
  {
    if g.phase.Queueing? {
      hide Advance;
      QueueingIsSameLane(sh, g);
    } else {
      hide StepQueueing, WorkspaceOf, CloseLocks, NewName;
    }
  }

  /** Past its admission, or outside the queue, a guard may give its ticket up or name one. */
  lemma LooseKeepsLane(sh: Shared, g: Guard)
    requires LaneOk(g) && g.naming.None? && (g.phase.Admitted? || g.phase.Outside?)
    ensures LaneOk(Advance(sh, g).g)
  {
    hide NewName, Withdraw, ElasticRoom, LetCollect;
  }

  lemma LaneFollows(g: Guard, g': Guard)
    requires LaneOk(g) && SameLane(g, g') && GoesTo(g.phase, g'.phase) && g.naming.None?
    requires !g.phase.Admitted? && !g.phase.Outside? && (g'.phase.Outside? ==> g.lane != Background)
    ensures LaneOk(g')
  {
  }

  lemma StrictKeepsLane(sh: Shared, g: Guard)
    requires LaneOk(g) && g.naming.None? && !g.phase.Admitted? && !g.phase.Outside?
    ensures LaneOk(Advance(sh, g).g)
  {
    hide Advance;
    AdvanceGoes(sh, g);
    if Inside(g.phase) {
      InsideIsSameLane(sh, g);
    } else {
      OtherIsSameLane(sh, g);
    }
    if g.phase.Arrived? {
      ArrivedGoes(sh, g);
    }
    LaneFollows(g, Advance(sh, g).g);
  }

  lemma ArrivedGoes(sh: Shared, g: Guard)
    requires g.naming.None? && g.phase.Arrived?
    ensures Advance(sh, g).g.phase.Outside? ==> g.lane != Background
  {
  }

  lemma OtherActionsKeepLane(sh: Shared, g: Guard, a: Action)
    requires LaneOk(g) && Enabled(sh, g, a) && !a.Advancing?
    ensures LaneOk(Perform(sh, g, a).g)
  {
    hide Advance, MyTurn, NewName, Withdraw, CloseLocks, Unmet, LargestNeed;
  }

  lemma PerformKeepsLane(sh: Shared, g: Guard, a: Action)
    requires LaneOk(g) && Enabled(sh, g, a)
    ensures LaneOk(Perform(sh, g, a).g)
  {
    hide Advance, LaneOk, Enabled;
    if !a.Advancing? {
      OtherActionsKeepLane(sh, g, a);
    } else if g.naming.Some? {
      PublishKeepsLane(sh, g);
    } else if g.phase.Admitted? || g.phase.Outside? {
      LooseKeepsLane(sh, g);
    } else {
      StrictKeepsLane(sh, g);
    }
  }

  lemma PublishKeepsLane(sh: Shared, g: Guard)
    requires LaneOk(g) && g.naming.Some?
    ensures LaneOk(Advance(sh, g).g)
  {
  }

  lemma MoveKeepsLanes(w: World, m: Move)
    requires LanesOk(w) && CanMove(w, m)
    ensures LanesOk(After(w, m))
  {
    if m.Act? {
      PerformKeepsLane(w.sh, w.guards[m.id], m.action);
    }
  }
}
