/**
 Since when a head's reservation grows, over every interleaving.
 */
module Ramps {
  import opened Wrappers
  import opened Machine
  import opened Worlds
  import opened LockBooks
  import opened Phases
  import opened Heads

  lemma InsideKeepsSince(sh: Shared, g: Guard)
    requires g.naming.None? && Inside(g.phase)
    ensures Advance(sh, g).g.since == g.since
  {
    hide MyTurn, NewName, Withdraw, Reserve, Goal, GiveBack, HoldsLock, LetCollect, ElasticRoom, WithinBound, Excess;
  }

  lemma HeadKeepsSince(sh: Shared, g: Guard, a: Action)
    requires Enabled(sh, g, a) && IsHeadPhase(g.phase)
    ensures Perform(sh, g, a).g.since == g.since
  {
    hide MyTurn, FirstInLine, NewName, Withdraw, CloseLocks, Unmet, LargestNeed;
    if a.Advancing? && g.naming.None? && Inside(g.phase) {
      InsideKeepsSince(sh, g);
      hide Advance;
    }
  }

  /** From state k to state m guard i is the head without a break. */
  ghost predicate IsHeadThroughout(t: seq<World>, i: Id, k: nat, m: nat)
    requires k <= m < |t|
  {
    forall x :: k <= x <= m ==> i in t[x].guards && IsHeadPhase(t[x].guards[i].phase)
  }

  lemma MoveKeepsSince(v: World, w: World, i: Id)
    requires Moves(v, w) && i in v.guards && IsHeadPhase(v.guards[i].phase) && i in w.guards
    ensures w.guards[i].since == v.guards[i].since
  {
    var m :| CanMove(v, m) && w == After(v, m);
    if m.Act? && m.id == i {
      HeadKeepsSince(v.sh, v.guards[i], m.action);
    }
    hide Perform, Enabled;
  }

  lemma {:induction false} SinceStays(t: seq<World>, i: Id, k: nat, m: nat)
    requires IsRun(t) && k <= m < |t| && IsHeadThroughout(t, i, k, m)
    ensures t[m].guards[i].since == t[k].guards[i].since
    decreases m - k
  {
    hide Moves, IsHeadPhase;
    if k < m {
      assert Moves(t[k], t[k + 1]);
      MoveKeepsSince(t[k], t[k + 1], i);
      SinceStays(t, i, k + 1, m);
    }
  }

  lemma {:induction false} TimePasses(t: seq<World>, k: nat, m: nat)
    requires IsRun(t) && k <= m < |t|
    ensures t[k].sh.clock <= t[m].sh.clock
    decreases m - k
  {
    hide Moves;
    if k < m {
      assert Moves(t[k], t[k + 1]);
      MoveTakesTime(t[k], t[k + 1]);
      TimePasses(t, k + 1, m);
    }
  }

  lemma MoveTakesTime(v: World, w: World)
    requires Moves(v, w)
    ensures v.sh.clock <= w.sh.clock
  {
    var m :| CanMove(v, m) && w == After(v, m);
    if m.Act? {
      SameClock(v.sh, v.guards[m.id], m.action);
    }
    hide Perform, Enabled;
  }

  /**
   A head that finds too few slots keeps the share of its weight that its wait as the head has earned, counted from
   the step in which it took the queue.
   */
  lemma KeepsItsShare(t: seq<World>, i: Id, k: nat, m: nat)
    requires IsRun(t) && k < m < |t|
    requires i in t[k].guards && t[k].guards[i].phase == SawTurn && t[k].guards[i].naming.None?
    requires t[k + 1] == After(t[k], Act(i, Advancing)) && IsHeadThroughout(t, i, k + 1, m)
    requires t[m].guards[i].phase == Scanning(AsHead, t[m].sh.capacity) && t[m].guards[i].naming.None?
    requires |t[m].guards[i].held| < t[m].guards[i].weight
    ensures t[k].sh.clock <= t[m].sh.clock
    ensures var g := t[m].guards[i];
            After(t[m], Act(i, Advancing)).guards[i].phase
              == Dropping(Reserve(g.weight, g.job.ramp, t[m].sh.clock - t[k].sh.clock))
  {
    TakesQueueNow(t[k], i);
    SinceStays(t, i, k + 1, m);
    TimePasses(t, k, m);
    hide Reserve, IsHeadThroughout, IsRun;
  }

  lemma TakesQueueNow(w: World, i: Id)
    requires i in w.guards && w.guards[i].phase == SawTurn && w.guards[i].naming.None?
    requires IsHeadPhase(After(w, Act(i, Advancing)).guards[i].phase)
    ensures After(w, Act(i, Advancing)).guards[i].since == w.sh.clock
  {
  }
}
