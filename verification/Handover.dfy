/**
 Why lifelines always get on: whoever holds the queue or `register` beside the elastic bases is admitted or lets go by
 its own steps, from wherever it stands, and then the first lifeline is admitted by its own.
 */
module Handover {
  import opened Wrappers
  import opened Registries
  import opened Charge
  import opened Machine
  import opened Worlds
  import opened LockBooks
  import opened Bounds
  import opened Phases
  import opened Safety
  import opened Turns
  import opened Scans
  import opened Progress

  /** No exclusive workload runs, and this guard has no ticket to publish. */
  ghost predicate IsCalm(w: World, h: Id) {
    Reachable(w) && h in w.guards && w.guards[h].naming.None? && w.sh.locks.main.writer.None?
  }

  /** By steps of h alone: it runs, or it has left and kept nothing. */
  ghost predicate MovesOn(w: World, h: Id, v: World) {
    Reachable(v) && ComesTo(w, h, v) && (v.guards[h].phase == Running || HasLeft(w, h, v))
  }

  /** The same from a later state of its way. */
  lemma OnTheWay(w: World, h: Id, u: World, v: World)
    requires ComesTo(w, h, u) && MovesOn(u, h, v)
    requires u.sh.drains == w.sh.drains && u.sh.lifelines == w.sh.lifelines
    ensures MovesOn(w, h, v)
  {
    ComesOn(w, h, u, v);
    hide ComesTo, Reachable, TurnedBack;
  }

  /** Steps of h that leave tickets and the writer of `<lock>` alone. */
  lemma GoesOn(w: World, h: Id, b: Both) returns (v: World)
    requires IsCalm(w, h) && Leads(Both(w.sh, w.guards[h]), b) && Calm(Both(w.sh, w.guards[h]), b)
    ensures IsCalm(v, h) && ComesTo(w, h, v) && v == World(b.sh, w.guards[h := b.g])
    ensures v.sh.drains == w.sh.drains && v.sh.lifelines == w.sh.lifelines
    ensures IsAmidBases(w, h) ==> IsAmidBases(v, h)
  {
    hide Leads, ComesTo, Reachable, IsAmidBases;
    if IsAmidBases(w, h) {
      v := StaysAmidBases(w, h, b);
      AmidBasesIsCalm(v, h);
    } else {
      v := WhereItLeads(w, h, b);
    }
  }

  lemma OneStepOn(w: World, h: Id) returns (v: World)
    requires IsCalm(w, h) && Calm(Both(w.sh, w.guards[h]), Advance(w.sh, w.guards[h]))
    ensures IsCalm(v, h) && ComesTo(w, h, v) && v == After(w, Act(h, Advancing))
    ensures v.sh.drains == w.sh.drains && v.sh.lifelines == w.sh.lifelines
    ensures IsAmidBases(w, h) ==> IsAmidBases(v, h)
  {
    LeadsByOne(Both(w.sh, w.guards[h]));
    hide Advance, Leads, ComesTo, Reachable, IsAmidBases, IsCalm, Calm;
    v := GoesOn(w, h, Advance(w.sh, w.guards[h]));
  }

  lemma AmidBasesIsCalm(w: World, h: Id)
    requires IsAmidBases(w, h)
    ensures IsCalm(w, h)
  {
  }

  /** Inside, only draining takes `<lock>` and only an admission touches tickets. */
  lemma InsideIsCalm(sh: Shared, g: Guard)
    requires g.naming.None? && (Inside(g.phase) || g.phase.Announced? || g.phase.Registering? || g.phase.Regrouping?)
    requires !g.phase.Admitted? && !g.phase.Draining? && sh.locks.main.writer.None?
    ensures Calm(Both(sh, g), Advance(sh, g))
  {
    hide MyTurn, NewName, Reserve, ElasticRoom, WithinBound, Excess, HoldsLock;
  }

  // --- The ends of a way ---

  lemma FromAdmitted(w: World, h: Id) returns (v: World)
    requires IsCalm(w, h) && w.guards[h].phase.Admitted?
    ensures MovesOn(w, h, v)
  {
    var b := Settles(Both(w.sh, w.guards[h]), w.guards[h].phase.path);
    v := WhereItLeads(w, h, b);
    hide Reachable, ComesTo;
  }

  /** A lost turn or a failed attempt, and a guard that is released, end with nothing kept. */
  lemma {:induction false} GivesBack(a: Both, path: Path) returns (b: Both)
    requires a.g.phase == Undoing(path) && a.g.naming.None?
    requires a.sh.locks.main.writer.None?
    ensures Leads(a, b) && TurnedBack(b.g.phase) && Calm(a, b)
    decreases |a.g.held|, HoldsLock(a.sh.locks, a.g.id, a.g.job, path)
  {
    var c := Advance(a.sh, a.g);
    LeadsByOne(a);
    UndoGoesOn(a, path, c);
    hide Advance, HoldsLock, Leads;
    if TurnedBack(c.g.phase) {
      b := c;
    } else {
      b := GivesBack(c, path);
      LeadsOn(a, c, b);
    }
  }

  lemma UndoGoesOn(a: Both, path: Path, c: Both)
    requires a.g.phase == Undoing(path) && a.g.naming.None? && c == Advance(a.sh, a.g) && a.sh.locks.main.writer.None?
    ensures Calm(a, c) && (TurnedBack(c.g.phase) || c.g.phase == a.g.phase)
    ensures c.g.phase == a.g.phase ==>
              || |c.g.held| < |a.g.held|
              || (|c.g.held| == |a.g.held| && HoldsLock(a.sh.locks, a.g.id, a.g.job, path)
                  && !HoldsLock(c.sh.locks, c.g.id, c.g.job, path))
  {
    assert c == Undo(a.sh, a.g, path);
    hide Withdraw;
  }

  lemma FromUndoing(w: World, h: Id) returns (v: World)
    requires IsCalm(w, h) && w.guards[h].phase.Undoing?
    ensures MovesOn(w, h, v)
  {
    var b := GivesBack(Both(w.sh, w.guards[h]), w.guards[h].phase.path);
    hide HasLeft, ComesTo, Reachable, Leads;
    v := LeavesNothing(w, h, b);
    HasLeftMovesOn(w, h, v);
  }

  lemma HasLeftMovesOn(w: World, h: Id, v: World)
    requires HasLeft(w, h, v)
    ensures MovesOn(w, h, v)
  {
    hide ComesTo, LifelineFirst, OnlyElasticBeside;
  }

  lemma Closes(a: Both) returns (b: Both)
    requires a.g.phase.Closing? && a.g.naming.None? && a.sh.locks.main.writer.None?
    ensures Leads(a, b) && Calm(a, b) && TurnedBack(b.g.phase)
  {
    b := Advance(a.sh, a.g);
    LeadsByOne(a);
    assert b == Both(a.sh.(locks := CloseLocks(a.sh.locks, a.g.id)), a.g.(held := [], phase := Gone));
    hide Advance, Leads;
  }

  lemma FromClosing(w: World, h: Id) returns (v: World)
    requires IsCalm(w, h) && w.guards[h].phase.Closing?
    ensures MovesOn(w, h, v)
  {
    var b := Closes(Both(w.sh, w.guards[h]));
    hide HasLeft, ComesTo, Reachable, Leads, Calm;
    v := LeavesNothing(w, h, b);
    HasLeftMovesOn(w, h, v);
  }

  // --- Under `register` ---

  /** One step inside, to where the program goes. */
  lemma OneStepInside(w: World, h: Id) returns (v: World)
    requires IsCalm(w, h)
    requires var p := w.guards[h].phase;
             && (Inside(p) || p.Announced? || p.Registering? || p.Regrouping?) && !p.Admitted? && !p.Draining?
    ensures IsCalm(v, h) && ComesTo(w, h, v) && GoesTo(w.guards[h].phase, v.guards[h].phase)
    ensures v.sh.drains == w.sh.drains && v.sh.lifelines == w.sh.lifelines
    ensures IsAmidBases(w, h) ==> IsAmidBases(v, h)
    ensures v == After(w, Act(h, Advancing))
  {
    InsideIsCalm(w.sh, w.guards[h]);
    AdvanceGoes(w.sh, w.guards[h]);
    hide Advance, IsAmidBases, ComesTo, Reachable, GoesTo, Calm;
    v := OneStepOn(w, h);
  }

  lemma FromPublishing(w: World, h: Id) returns (v: World)
    requires IsCalm(w, h) && w.guards[h].phase.Publishing?
    ensures MovesOn(w, h, v)
  {
    hide HasLeft, ComesTo, MovesOn, Advance, IsCalm;
    var u := OneStepInside(w, h);
    v := FromAdmitted(u, h);
    OnTheWay(w, h, u, v);
  }

  /** A head is judged amid the bases, other guards anywhere. */
  lemma FromJudging(w: World, h: Id) returns (v: World)
    requires IsCalm(w, h) && w.guards[h].phase.Judging? && (w.guards[h].phase.path.AsHead? ==> IsHeadAmid(w, h))
    ensures MovesOn(w, h, v)
  {
    KeepsJob(w, h);
    hide HasLeft, ComesTo, MovesOn, Advance, IsCalm, IsAmidBases;
    var u := OneStepInside(w, h);
    match u.guards[h].phase {
      case Publishing(_) => v := FromPublishing(u, h);
      case Admitted(_) => v := FromAdmitted(u, h);
      case Undoing(_) => v := FromUndoing(u, h);
      case _ => v := FromRegrouping(u, h);
    }
    OnTheWay(w, h, u, v);
  }

  // --- A head's round ---

  /** A head that is not exclusive, amid the bases. */
  ghost predicate IsHeadAmid(w: World, h: Id) {
    IsAmidBases(w, h) && !w.guards[h].job.exclusive
  }

  lemma KeepsJob(w: World, h: Id)
    requires h in w.guards
    ensures Advance(w.sh, w.guards[h]).g.job == w.guards[h].job
  {
    hide Advance;
    AdvanceKeepsJob(w.sh, w.guards[h]);
  }

  lemma FromDeciding(w: World, h: Id) returns (v: World)
    requires IsHeadAmid(w, h) && w.guards[h].phase.Deciding?
    ensures MovesOn(w, h, v)
  {
    AmidBasesIsCalm(w, h);
    hide HasLeft, ComesTo, IsAmidBases;
    if MyTurn(w.sh, w.guards[h]) && Admissible(w.sh, w.guards[h]) {
      v := HeadIsAdmitted(w, h);
    } else {
      v := HeadStepsAside(w, h);
      HasLeftMovesOn(w, h, v);
    }
  }

  lemma FromRegrouping(w: World, h: Id) returns (v: World)
    requires IsHeadAmid(w, h) && w.guards[h].phase.Regrouping?
    ensures MovesOn(w, h, v)
  {
    AmidBasesIsCalm(w, h);
    KeepsJob(w, h);
    hide HasLeft, ComesTo, MovesOn, Advance, IsCalm, IsAmidBases;
    var u := OneStepInside(w, h);
    v := FromDeciding(u, h);
    OnTheWay(w, h, u, v);
  }

  lemma FromRegistering(w: World, h: Id) returns (v: World)
    requires IsCalm(w, h) && w.guards[h].phase.Registering?
    requires w.guards[h].phase.path.AsHead? ==> IsHeadAmid(w, h) && w.sh.locks.register.None?
    ensures MovesOn(w, h, v)
  {
    KeepsJob(w, h);
    RegisterIsFree(w.sh, w.guards[h]);
    hide HasLeft, ComesTo, MovesOn, Advance, IsCalm, IsAmidBases;
    var u := OneStepInside(w, h);
    if u.guards[h].phase.Judging? {
      v := FromJudging(u, h);
    } else {
      v := FromUndoing(u, h);
    }
    OnTheWay(w, h, u, v);
  }

  lemma RegisterIsFree(sh: Shared, g: Guard)
    requires g.naming.None? && g.phase.Registering? && (g.phase.path.AsHead? ==> sh.locks.register.None?)
    ensures Advance(sh, g).g.phase in {Judging(g.phase.path), Undoing(g.phase.path)}
    ensures g.phase.path.AsHead? ==> Advance(sh, g).g.phase.Judging?
  {
  }

  lemma FromAnnounced(w: World, h: Id) returns (v: World)
    requires IsHeadAmid(w, h) && w.guards[h].phase.Announced?
    ensures MovesOn(w, h, v)
  {
    AmidBasesIsCalm(w, h);
    KeepsJob(w, h);
    hide HasLeft, ComesTo, MovesOn, Advance, IsCalm, IsAmidBases;
    var u := OneStepInside(w, h);
    v := FromDeciding(u, h);
    OnTheWay(w, h, u, v);
  }

  /** A head gives slots back down to its reservation, says what it lacks and decides again. */
  lemma {:induction false} Trims(a: Both, keep: nat) returns (b: Both)
    requires a.g.phase == Dropping(keep) && a.g.naming.None?
    ensures Leads(a, b) && Calm(a, b) && (b.g.phase.Deciding? || b.g.phase.Announced?) && b.g.job == a.g.job
    decreases |a.g.held|
  {
    var c := Advance(a.sh, a.g);
    LeadsByOne(a);
    TrimGoesOn(a, keep, c);
    hide Advance, Leads;
    if c.g.phase.Dropping? {
      b := Trims(c, keep);
      LeadsOn(a, c, b);
    } else {
      b := c;
    }
  }

  lemma TrimGoesOn(a: Both, keep: nat, c: Both)
    requires a.g.phase == Dropping(keep) && a.g.naming.None? && c == Advance(a.sh, a.g)
    ensures Calm(a, c) && c.g.job == a.g.job && (c.g.phase.Deciding? || c.g.phase.Announced? || c.g.phase == a.g.phase)
    ensures c.g.phase == a.g.phase ==> |c.g.held| < |a.g.held|
  {
    hide NewName;
  }

  lemma FromDropping(w: World, h: Id) returns (v: World)
    requires IsHeadAmid(w, h) && w.guards[h].phase.Dropping?
    ensures MovesOn(w, h, v)
  {
    AmidBasesIsCalm(w, h);
    var b := Trims(Both(w.sh, w.guards[h]), w.guards[h].phase.keep);
    hide HasLeft, ComesTo, MovesOn, IsCalm, IsAmidBases, Leads, Calm;
    var u := GoesOn(w, h, b);
    if u.guards[h].phase.Deciding? {
      v := FromDeciding(u, h);
    } else {
      v := FromAnnounced(u, h);
    }
    OnTheWay(w, h, u, v);
  }

  // --- Scans ---

  /** A scan, from wherever it stands, to its end and the decision on what it found. */
  lemma ScansOut(a: Both, path: Path, next: nat) returns (b: Both)
    requires a.g.phase == Scanning(path, next) && a.g.naming.None?
    ensures Leads(a, b) && Calm(a, b) && b.g.job == a.g.job && b.sh.locks.register == a.sh.locks.register
    ensures GoesTo(a.g.phase, b.g.phase) && !b.g.phase.Scanning?
  {
    var c := a;
    if next <= a.sh.capacity {
      SoloScan(a.sh, a.g, path, next);
      c := Solo(a.sh, a.g, a.sh.capacity - next);
      assert Leads(a, c);
    } else {
      assert Solo(a.sh, a.g, 0) == a;
      assert Leads(a, a);
    }
    b := ScanEnds(c, path);
    hide Advance, Leads;
    LeadsOn(a, c, b);
  }

  lemma ScanEnds(c: Both, path: Path) returns (b: Both)
    requires c.g.phase.Scanning? && c.g.phase.path == path && c.g.phase.next >= c.sh.capacity && c.g.naming.None?
    ensures Leads(c, b) && b.sh == c.sh && b.g.naming == c.g.naming && b.g.job == c.g.job
    ensures !b.g.phase.Scanning? && forall next :: GoesTo(Scanning(path, next), b.g.phase)
  {
    b := Advance(c.sh, c.g);
    LeadsByOne(c);
    hide Reserve, Goal, Leads;
  }

  lemma FromHeadScan(w: World, h: Id) returns (v: World)
    requires IsHeadAmid(w, h) && w.guards[h].phase.Scanning? && w.guards[h].phase.path.AsHead?
        && w.sh.locks.register.None?
    ensures MovesOn(w, h, v)
  {
    AmidBasesIsCalm(w, h);
    var b := ScansOut(Both(w.sh, w.guards[h]), AsHead, w.guards[h].phase.next);
    hide HasLeft, ComesTo, MovesOn, IsCalm, IsAmidBases, Leads, Calm;
    var u := GoesOn(w, h, b);
    if u.guards[h].phase.Registering? {
      v := FromRegistering(u, h);
    } else {
      v := FromDropping(u, h);
    }
    OnTheWay(w, h, u, v);
  }

  /** A backfill gives back all but its weight. */
  lemma {:induction false} KeepsItsWeight(a: Both, path: Path) returns (b: Both)
    requires a.g.phase == Surplus(path) && a.g.naming.None?
    ensures Leads(a, b) && Calm(a, b) && b.g.phase == Judging(path)
    decreases |a.g.held|
  {
    var c := Advance(a.sh, a.g);
    LeadsByOne(a);
    assert c == StepSurplus(a.sh, a.g, path);
    hide Advance, Leads;
    if c.g.phase.Surplus? {
      b := KeepsItsWeight(c, path);
      LeadsOn(a, c, b);
    } else {
      b := c;
    }
  }

  lemma FromSurplus(w: World, h: Id) returns (v: World)
    requires IsCalm(w, h) && w.guards[h].phase.Surplus? && !w.guards[h].phase.path.AsHead?
    ensures MovesOn(w, h, v)
  {
    var b := KeepsItsWeight(Both(w.sh, w.guards[h]), w.guards[h].phase.path);
    hide HasLeft, ComesTo, MovesOn, IsCalm, IsAmidBases, Leads, Calm;
    var u := GoesOn(w, h, b);
    v := FromJudging(u, h);
    OnTheWay(w, h, u, v);
  }

  lemma FromOtherScan(w: World, h: Id) returns (v: World)
    requires IsCalm(w, h) && w.guards[h].phase.Scanning? && !w.guards[h].phase.path.AsHead?
    ensures MovesOn(w, h, v)
  {
    var b := ScansOut(Both(w.sh, w.guards[h]), w.guards[h].phase.path, w.guards[h].phase.next);
    hide HasLeft, ComesTo, MovesOn, IsCalm, IsAmidBases, Leads, Calm;
    var u := GoesOn(w, h, b);
    v := AfterOtherScan(u, h);
    OnTheWay(w, h, u, v);
  }

  lemma AfterOtherScan(u: World, h: Id) returns (v: World)
    requires IsCalm(u, h)
    requires var p := u.guards[h].phase; (p.Registering? || p.Surplus? || p.Undoing?) && !p.path.AsHead?
    ensures MovesOn(u, h, v)
  {
    assert h in u.guards;
    hide HasLeft, ComesTo, MovesOn, IsCalm, IsAmidBases;
    if u.guards[h].phase.Registering? {
      v := FromRegistering(u, h);
    } else if u.guards[h].phase.Surplus? {
      v := FromSurplus(u, h);
    } else {
      v := FromUndoing(u, h);
    }
  }

  lemma TakesMain(sh: Shared, g: Guard)
    requires g.naming.None? && g.phase == TakingMain(AsHead) && sh.locks.main.writer.None?
    ensures Advance(sh, g).g.phase == Deciding
  {
  }

  lemma FromTakingMain(w: World, h: Id) returns (v: World)
    requires IsCalm(w, h) && w.guards[h].phase.TakingMain? && (w.guards[h].phase.path.AsHead? ==> IsHeadAmid(w, h))
    ensures MovesOn(w, h, v)
  {
    KeepsJob(w, h);
    if w.guards[h].phase.path.AsHead? {
      TakesMain(w.sh, w.guards[h]);
    }
    hide HasLeft, ComesTo, MovesOn, Advance, IsCalm, IsAmidBases;
    var u := OneStepInside(w, h);
    match u.guards[h].phase {
      case Deciding => v := FromDeciding(u, h);
      case Scanning(_, _) => v := FromOtherScan(u, h);
      case _ => v := FromUndoing(u, h);
    }
    OnTheWay(w, h, u, v);
  }

  // --- An exclusive head beside a lifeline ---

  lemma ExclusiveHasNoTurn(w: World, h: Id)
    requires IsAmidBases(w, h) && w.guards[h].job.exclusive && w.guards[h].phase.Deciding?
    ensures !MyTurn(w.sh, w.guards[h])
  {
    EveryReachableIsSound(w);
    assert LaneOk(w.guards[h]) && WeightOk(w.sh, w.guards[h]);
    hide LocksOk, EntriesOk, LanesOk, Reachable;
    if MyTurn(w.sh, w.guards[h]) {
      TurnFits(w, h);
    }
  }

  lemma FromExclusiveDeciding(w: World, h: Id) returns (v: World)
    requires IsAmidBases(w, h) && w.guards[h].job.exclusive && w.guards[h].phase.Deciding?
    ensures MovesOn(w, h, v)
  {
    AmidBasesIsCalm(w, h);
    ExclusiveHasNoTurn(w, h);
    var b := DecidesAgainst(Both(w.sh, w.guards[h]));
    hide HasLeft, ComesTo, MovesOn, IsCalm, IsAmidBases, Leads, MyTurn;
    var u := GoesOn(w, h, b);
    v := FromUndoing(u, h);
    OnTheWay(w, h, u, v);
  }

  /** It may find `<lock>` free at last; if not it decides again. */
  lemma FromDraining(w: World, h: Id) returns (v: World)
    requires IsAmidBases(w, h) && w.guards[h].job.exclusive && w.guards[h].phase.Draining?
    ensures MovesOn(w, h, v)
  {
    AmidBasesIsCalm(w, h);
    var a := Both(w.sh, w.guards[h]);
    var c := Advance(a.sh, a.g);
    LeadsByOne(a);
    assert c == StepDraining(a.sh, a.g);
    hide HasLeft, ComesTo, Leads, Advance;
    if c.g.phase.Admitted? {
      var b := Settles(c, AsHead);
      LeadsOn(a, c, b);
      v := WhereItLeads(w, h, b);
    } else {
      hide IsCalm, IsAmidBases;
      var u := GoesOn(w, h, c);
      v := FromExclusiveDeciding(u, h);
      OnTheWay(w, h, u, v);
    }
  }

  // --- Whoever holds the queue, whoever holds `register` ---

  lemma HolderFacts(w: World, h: Id)
    requires Reachable(w) && h in w.guards
    ensures HoldsOk(w.sh.locks, w.guards[h]) && LaneOk(w.guards[h]) && w.guards[h].id == h
        && WeightOk(w.sh, w.guards[h])
  {
    EveryReachableIsSound(w);
    hide Reachable;
    assert GuardOk(w.sh, w.guards[h]);
  }

  /** Where the holder of the queue can stand. */
  lemma QueueHolderIs(t: Locks, g: Guard)
    requires HoldsOk(t, g) && t.queue == Some(g.id)
    ensures match g.phase
            case TakingMain(path) => !path.AsBackfill? && (path.AsHead? ==> !g.job.exclusive)
            case Deciding => true
            case Draining => g.job.exclusive
            case Scanning(path, _) => !path.AsBackfill? && !g.job.exclusive && t.register != Some(g.id)
            case Registering(path) => !path.AsBackfill? && !g.job.exclusive && t.register != Some(g.id)
            case Dropping(_) | Announced | Regrouping => !g.job.exclusive
            case Judging(path) => !g.job.exclusive
            case Publishing(_) | Undoing(_) | Admitted(_) | Closing => true
            case _ => false
  {
  }

  /** From wherever the queue holder stands amid the bases. */
  lemma FromQueue(w: World, h: Id) returns (v: World)
    requires IsAmidBases(w, h) && w.sh.locks.queue == Some(h)
    ensures MovesOn(w, h, v)
  {
    AmidBasesIsCalm(w, h);
    HolderFacts(w, h);
    QueueHolderIs(w.sh.locks, w.guards[h]);
    assert w.sh.locks.register != Some(h) ==> w.sh.locks.register.None?;
    hide HasLeft, ComesTo, MovesOn, IsCalm, IsAmidBases, HoldsOk, LaneOk, WeightOk;
    match w.guards[h].phase {
      case TakingMain(_) => v := FromTakingMain(w, h);
      case Deciding =>
        if w.guards[h].job.exclusive {
          v := FromExclusiveDeciding(w, h);
        } else {
          v := FromDeciding(w, h);
        }
      case Draining => v := FromDraining(w, h);
      case Scanning(path, _) =>
        if path.AsHead? {
          v := FromHeadScan(w, h);
        } else {
          v := FromOtherScan(w, h);
        }
      case Registering(_) => v := FromRegistering(w, h);
      case Dropping(_) => v := FromDropping(w, h);
      case Announced => v := FromAnnounced(w, h);
      case Regrouping => v := FromRegrouping(w, h);
      case Judging(_) => v := FromJudging(w, h);
      case Publishing(_) => v := FromPublishing(w, h);
      case Undoing(_) => v := FromUndoing(w, h);
      case Admitted(_) => v := FromAdmitted(w, h);
      case Closing => v := FromClosing(w, h);
    }
  }

  /** Where the holder of `register` can stand that does not hold the queue. */
  lemma RegisterHolderIs(t: Locks, g: Guard)
    requires HoldsOk(t, g) && t.register == Some(g.id) && t.queue != Some(g.id)
    ensures match g.phase
            case TakingMain(path) => path.AsBackfill?
            case Scanning(path, _) => path.AsBackfill?
            case Surplus(path) => path.AsBackfill?
            case Judging(path) => path.AsBackfill?
            case Publishing(_) | Undoing(_) | Admitted(_) | Closing => true
            case _ => false
  {
  }

  lemma FromRegister(w: World, r: Id) returns (v: World)
    requires IsCalm(w, r) && w.sh.locks.register == Some(r) && w.sh.locks.queue != Some(r)
    ensures MovesOn(w, r, v)
  {
    HolderFacts(w, r);
    RegisterHolderIs(w.sh.locks, w.guards[r]);
    hide HasLeft, ComesTo, MovesOn, IsCalm, IsAmidBases, HoldsOk, LaneOk, WeightOk;
    match w.guards[r].phase {
      case TakingMain(_) => v := FromTakingMain(w, r);
      case Scanning(_, _) => v := FromOtherScan(w, r);
      case Surplus(_) => v := FromSurplus(w, r);
      case Judging(_) => v := FromJudging(w, r);
      case Publishing(_) => v := FromPublishing(w, r);
      case Undoing(_) => v := FromUndoing(w, r);
      case Admitted(_) => v := FromAdmitted(w, r);
      case Closing => v := FromClosing(w, r);
    }
  }

  // --- The first lifeline itself ---

  lemma FromSawTurn(w: World, f: Id) returns (v: World)
    requires IsAmidBases(w, f) && w.guards[f].phase.SawTurn? && !w.guards[f].job.exclusive
    requires w.sh.locks.queue.None? && w.sh.locks.register.None?
    requires MyTurn(w.sh, w.guards[f]) && Admissible(w.sh, w.guards[f])
    ensures Reachable(v) && ComesTo(w, f, v) && v.guards[f].phase == Running
  {
    var a := Both(w.sh, w.guards[f]);
    HolderFacts(w, f);
    var b := TakesQueue(a);
    TurnStays(a, b);
    AdmissibleStays(a, b);
    hide Reachable, ComesTo, MyTurn, Admissible, LifelineFirst, Leads;
    var u := StaysAmidBases(w, f, b);
    v := HeadIsAdmitted(u, f);
    ComesOn(w, f, u, v);
  }

  /** Back in the queue loop with the first ticket: its next steps take the queue. */
  lemma FromQueueing(w: World, f: Id) returns (v: World)
    requires IsAmidBases(w, f) && w.guards[f].phase.Queueing? && !w.guards[f].job.exclusive
    requires w.sh.locks.queue.None? && w.sh.locks.register.None? && w.guards[f].ticket.Some?
    requires MyTurn(w.sh, w.guards[f]) && Admissible(w.sh, w.guards[f])
    ensures Reachable(v) && ComesTo(w, f, v) && v.guards[f].phase == Running
  {
    v := LeaderIsAdmitted(w, f);
    hide Reachable, ComesTo;
  }

  lemma RejoinsQueue(a: Both) returns (b: Both)
    requires a.g.naming.None? && a.g.ticket.Some? && a.g.job.sub && !a.g.job.elastic && a.g.lane == Leaf
    requires a.g.phase.Arrived? || a.g.phase.Outside?
    ensures Leads(a, b) && Along(a, b) && b.g.phase.Queueing? && b.sh == a.sh
  {
    var c := a;
    assert Solo(a.sh, a.g, 0) == a;
    if a.g.phase.Arrived? {
      c := Advance(a.sh, a.g);
      LeadsByOne(a);
    }
    b := Advance(c.sh, c.g);
    LeadsByOne(c);
    LeadsOn(a, c, b);
  }

  lemma FromOutside(w: World, f: Id) returns (v: World)
    requires IsAmidBases(w, f) && (w.guards[f].phase.Arrived? || w.guards[f].phase.Outside?)
    requires w.sh.locks.queue.None? && w.sh.locks.register.None?
    requires w.guards[f].ticket.Some? && w.guards[f].job.sub && !w.guards[f].job.elastic && w.guards[f].lane == Leaf
    requires !w.guards[f].job.exclusive && MyTurn(w.sh, w.guards[f]) && Admissible(w.sh, w.guards[f])
    ensures Reachable(v) && ComesTo(w, f, v) && v.guards[f].phase == Running
  {
    var a := Both(w.sh, w.guards[f]);
    var b := RejoinsQueue(a);
    TurnStays(a, b);
    AdmissibleStays(a, b);
    hide Reachable, ComesTo, MyTurn, Admissible, LifelineFirst, Leads;
    var u := StaysAmidBases(w, f, b);
    v := FromQueueing(u, f);
    ComesOn(w, f, u, v);
  }

  lemma FromLostTurn(w: World, f: Id) returns (v: World)
    requires IsAmidBases(w, f) && w.guards[f].phase == Undoing(AsHead)
    requires w.sh.locks.queue.None? && w.sh.locks.register.None?
    requires w.guards[f].ticket.Some? && w.guards[f].job.sub && !w.guards[f].job.elastic && w.guards[f].lane == Leaf
    requires !w.guards[f].job.exclusive && MyTurn(w.sh, w.guards[f]) && Admissible(w.sh, w.guards[f])
    ensures Reachable(v) && ComesTo(w, f, v) && v.guards[f].phase == Running
  {
    var a := Both(w.sh, w.guards[f]);
    var b := GivesUp(a);
    TurnStays(a, b);
    AdmissibleStays(a, b);
    hide Reachable, ComesTo, MyTurn, Admissible, LifelineFirst, Leads, IsAmidBases;
    var u := LeavesNothing(w, f, b);
    LeftAmidBases(w, f, u);
    v := FromOutside(u, f);
    ComesOn(w, f, u, v);
  }

  lemma LeftAmidBases(w: World, h: Id, v: World)
    requires IsAmidBases(w, h) && HasLeft(w, h, v)
    ensures IsAmidBases(v, h) && v.sh.locks.queue.None? && v.sh.locks.register.None?
  {
    hide Reachable, Leads, TurnedBack;
    assert QueuedTickets(v.sh) == QueuedTickets(w.sh);
  }

  lemma FirstIn<T>(s: seq<T>)
    ensures s != [] ==> s[0] in s
  {
  }

  /** Where the owner of a lifeline ticket can stand while it holds no slot and no admission lock. */
  lemma LifelineIs(w: World, f: Id)
    requires Reachable(w) && f in w.guards && w.guards[f].ticket.Some? && w.guards[f].lane == Leaf
    requires w.sh.locks.queue.None? && w.sh.locks.register.None?
        && (forall k :: k in w.sh.locks.slots ==> w.sh.locks.slots[k] != f)
    ensures var g := w.guards[f];
            && (g.phase.Arrived? || g.phase.Outside? || g.phase.Queueing? || g.phase.SawTurn?
                || g.phase == Undoing(AsHead))
            && g.job.sub && !g.job.elastic && !g.job.exclusive
  {
    HolderFacts(w, f);
    var g := w.guards[f];
    FirstIn(g.held);
    hide Reachable;
  }

  lemma FirstOwner(w: World) returns (f: Id)
    requires Reachable(w) && LifelineFirst(w.sh)
    ensures f == QueuedTickets(w.sh)[0].name.pid && f in w.guards && w.guards[f].lane == Leaf
        && w.guards[f].naming.None?
    ensures w.guards[f].ticket.Some? && MyTurn(w.sh, w.guards[f]) && Admissible(w.sh, w.guards[f])
    ensures exists e :: e in w.sh.lifelines && e.name.pid == f
  {
    FirstLifelineLeads(w);
    f := QueuedTickets(w.sh)[0].name.pid;
    var capacity: nat, clock: nat, n: nat :| 1 <= capacity && ReachableIn(capacity, clock, w, n);
    ReachableTickets(capacity, clock, w, n);
    FirstIsQueued(w.sh);
    assert TicketOk(w.sh, w.guards[f]) && w.guards[f].id == f;
  }

  /** With the admission locks free, the owner of the first lifeline is admitted by its own steps. */
  lemma FirstLifelineRuns(w: World, f: Id) returns (v: World)
    requires IsAmidBases(w, f) && f == QueuedTickets(w.sh)[0].name.pid
    requires w.sh.locks.queue.None? && w.sh.locks.register.None?
        && (forall k :: k in w.sh.locks.slots ==> w.sh.locks.slots[k] != f)
    ensures Reachable(v) && ComesTo(w, f, v) && v.guards[f].phase == Running && !IsAdmitted(w.guards[f].phase)
  {
    var owner := FirstOwner(w);
    LifelineIs(w, f);
    hide Reachable, ComesTo, MyTurn, Admissible, IsAmidBases;
    match w.guards[f].phase {
      case Arrived => v := FromOutside(w, f);
      case Outside => v := FromOutside(w, f);
      case Queueing => v := FromQueueing(w, f);
      case SawTurn => v := FromSawTurn(w, f);
      case Undoing(_) => v := FromLostTurn(w, f);
    }
  }

  // --- All together ---

  ghost predicate SlotIsFine(w: World, k: nat)
    requires k in w.sh.locks.slots
  {
    var i := w.sh.locks.slots[k];
    && i in w.guards
    && ((Standing(w.guards[i].phase) && w.guards[i].job.elastic)
        || (w.sh.locks.queue == Some(i) && !IsAdmitted(w.guards[i].phase)))
  }

  /**
   Elastic workloads wait for their parts: a lifeline is the first ticket, no exclusive workload runs, and slots
   are held by elastic bases and by the queue holder's reservation only.
   */
  ghost predicate BasesWait(w: World) {
    && Reachable(w) && LifelineFirst(w.sh) && w.sh.locks.main.writer.None?
    && forall k :: k in w.sh.locks.slots ==> SlotIsFine(w, k)
  }

  /** It holds the queue or `register`, or queues with a lifeline. */
  ghost predicate IsEngaged(w: World, i: Id) {
    w.sh.locks.queue == Some(i) || w.sh.locks.register == Some(i) || exists e :: e in w.sh.lifelines && e.name.pid == i
  }

  /** w is reached from `base` by n steps of the programs of guards that were engaged there. */
  ghost predicate EngagedSteps(base: World, w: World, n: nat)
    decreases n
  {
    if n == 0 then w == base
    else exists u, i :: && EngagedSteps(base, u, n - 1) && IsEngaged(base, i)
                        && i in u.guards && w == After(u, Act(i, Advancing))
  }

  ghost predicate GetsTo(base: World, w: World) {
    exists n: nat :: EngagedSteps(base, w, n)
  }

  lemma OneEngagedStep(base: World, u: World, i: Id, k: nat)
    requires EngagedSteps(base, u, k) && IsEngaged(base, i) && i in u.guards
    ensures i in After(u, Act(i, Advancing)).guards && EngagedSteps(base, After(u, Act(i, Advancing)), k + 1)
  {
    hide Advance, IsEngaged;
  }

  lemma {:induction false} EngagedAlone(base: World, u: World, i: Id, k: nat, n: nat)
    requires EngagedSteps(base, u, k) && IsEngaged(base, i) && i in u.guards
    ensures EngagedSteps(base, Alone(u, i, n), k + n)
    decreases n
  {
    hide Alone, After, IsEngaged, EngagedSteps;
    if n == 0 {
      NoStepAlone(u, i);
    } else {
      var v := After(u, Act(i, Advancing));
      OneEngagedStep(base, u, i, k);
      EngagedAlone(base, v, i, k + 1, n - 1);
      AloneGoesOn(u, i, n, v);
    }
  }

  lemma GetsOn(base: World, u: World, i: Id, v: World)
    requires GetsTo(base, u) && IsEngaged(base, i) && ComesTo(u, i, v)
    ensures GetsTo(base, v)
  {
    var k: nat :| EngagedSteps(base, u, k);
    var n: nat :| Solo(u.sh, u.guards[i], n) == Both(v.sh, v.guards[i]);
    assert Alone(u, i, n) == v;
    hide Alone, EngagedSteps, IsEngaged;
    EngagedAlone(base, u, i, k, n);
  }

  /** A guard that was not admitted runs. */
  ghost predicate IsNewlyRunning(w: World, v: World, id: Id) {
    id in w.guards && id in v.guards && !IsAdmitted(w.guards[id].phase) && v.guards[id].phase == Running
  }

  /** On the way nobody came or went, and who was admitted still is. */
  ghost predicate Keeping(w: World, u: World) {
    u.guards.Keys == w.guards.Keys && forall i :: i in w.guards && IsAdmitted(w.guards[i].phase) ==>
        IsAdmitted(u.guards[i].phase)
  }

  lemma NotAdmittedBefore(w: World, u: World, v: World, id: Id)
    requires Keeping(w, u) && IsNewlyRunning(u, v, id)
    ensures IsNewlyRunning(w, v, id)
  {
  }

  // --- An admitted guard lets go of the admission locks ---

  lemma LetsGo(w: World, r: Id) returns (u: World)
    requires BasesWait(w) && r in w.guards && w.guards[r].phase.Admitted?
    requires w.sh.locks.queue == Some(r) || w.sh.locks.register == Some(r)
    ensures BasesWait(u) && ComesTo(w, r, u) && Keeping(w, u) && u.sh.lifelines == w.sh.lifelines
    ensures u.sh.locks.queue == if w.sh.locks.queue == Some(r) then None else w.sh.locks.queue
    ensures u.sh.locks.register == if w.sh.locks.register == Some(r) then None else w.sh.locks.register
  {
    hide OwnFrame, ElasticRoom;
    HolderFacts(w, r);
    var a := Both(w.sh, w.guards[r]);
    var b := Advance(a.sh, a.g);
    LeadsByOne(a);
    assert b == Both(a.sh.(locks := LetCollect(a.sh.locks, r), heads := Withdraw(a.sh.heads, a.g.head)),
        a.g.(head := None));
    hide Advance, Reachable, Leads, HoldsOk, WeightOk;
    u := WhereItLeads(w, r, b);
    assert QueuedTickets(u.sh) == QueuedTickets(w.sh);
    forall k | k in u.sh.locks.slots
      ensures SlotIsFine(u, k)
    {
      assert SlotIsFine(w, k);
    }
  }

  // --- First whoever holds `register` alone ---

  lemma RegisterLeaves(w: World, r: Id, u: World)
    requires BasesWait(w) && HasLeft(w, r, u) && w.sh.locks.register == Some(r) && w.sh.locks.queue != Some(r)
    requires !IsAdmitted(w.guards[r].phase)
    ensures BasesWait(u) && Keeping(w, u) && u.sh.locks.register.None? && u.sh.locks.queue == w.sh.locks.queue
  {
    hide Reachable, Leads, TurnedBack;
    assert QueuedTickets(u.sh) == QueuedTickets(w.sh);
    forall k | k in u.sh.locks.slots
      ensures SlotIsFine(u, k)
    {
      assert SlotIsFine(w, k);
    }
  }

  lemma RegisterHolderExists(w: World)
    requires Reachable(w)
    ensures w.sh.locks.register.Some? ==> w.sh.locks.register.value in w.guards
    ensures w.sh.locks.queue.Some? ==> w.sh.locks.queue.value in w.guards
  {
    ReachableIsSound(w);
    hide Reachable;
  }

  lemma RegisterComesFree(w: World) returns (u: World, id: Id)
    requires BasesWait(w)
    ensures Reachable(u) && GetsTo(w, u)
    ensures || (IsNewlyRunning(w, u, id) && IsEngaged(w, id))
            || (BasesWait(u) && Keeping(w, u) && u.sh.locks.register in {None, u.sh.locks.queue}
                && u.sh.locks.queue in {None, w.sh.locks.queue} && u.sh.lifelines == w.sh.lifelines)
  {
    RegisterHolderExists(w);
    assert EngagedSteps(w, w, 0);
    hide EngagedSteps, ComesTo, Reachable, HasLeft;
    u, id := w, 0;
    if w.sh.locks.register.Some? && w.sh.locks.register != w.sh.locks.queue {
      id := w.sh.locks.register.value;
      if w.guards[id].phase.Admitted? {
        u := LetsGo(w, id);
      } else {
        u := RegisterHolderMovesOn(w, id);
      }
      GetsOn(w, w, id, u);
    }
  }

  lemma RegisterHolderMovesOn(w: World, r: Id) returns (u: World)
    requires BasesWait(w) && r in w.guards && w.sh.locks.register == Some(r) && w.sh.locks.queue != Some(r)
    requires !w.guards[r].phase.Admitted?
    ensures Reachable(u) && ComesTo(w, r, u)
    ensures || IsNewlyRunning(w, u, r)
            || (BasesWait(u) && Keeping(w, u) && u.sh.locks.register.None? && u.sh.locks.queue == w.sh.locks.queue
                && u.sh.lifelines == w.sh.lifelines)
  {
    HolderFacts(w, r);
    RegisterHolderIs(w.sh.locks, w.guards[r]);
    u := FromRegister(w, r);
    if HasLeft(w, r, u) {
      RegisterLeaves(w, r, u);
    }
    hide ComesTo, Reachable, BasesWait;
  }

  // --- Then whoever holds the queue ---

  lemma WaitingIsAmidBases(w: World, h: Id)
    requires BasesWait(w) && h in w.guards && w.guards[h].naming.None?
    requires w.sh.locks.queue in {None, Some(h)} && w.sh.locks.register in {None, w.sh.locks.queue}
    ensures IsAmidBases(w, h)
  {
    hide Reachable;
    forall k | k in w.sh.locks.slots && w.sh.locks.slots[k] != h
      ensures Standing(w.guards[w.sh.locks.slots[k]].phase) && w.guards[w.sh.locks.slots[k]].job.elastic
    {
      assert SlotIsFine(w, k);
    }
  }

  lemma QueueLeaves(w: World, h: Id, u: World)
    requires BasesWait(w) && IsAmidBases(w, h) && HasLeft(w, h, u) && !IsAdmitted(w.guards[h].phase)
    ensures BasesWait(u) && Keeping(w, u) && u.sh.locks.queue.None? && u.sh.locks.register.None?
    ensures u.sh.lifelines == w.sh.lifelines && forall k :: k in u.sh.locks.slots ==> u.sh.locks.slots[k] != h
  {
    LeftAmidBases(w, h, u);
    hide Reachable, Leads, TurnedBack, LifelineFirst;
    forall k | k in u.sh.locks.slots
      ensures SlotIsFine(u, k)
    {
    }
  }

  lemma AddsToLifelines(sh: Shared, e: Entry<Lane>)
    requires LifelineFirst(sh) && Lanes(sh.drains, sh.lifelines) && IsLifeline(e)
    ensures LifelineFirst(sh.(lifelines := Publish(sh.lifelines, e)))
    ensures Publish(sh.lifelines, e) != []
  {
    var cut := FirstExclusive(sh.drains);
    QueuedAt(sh.drains, sh.lifelines, cut, 0);
    FirstIn(sh.drains);
    var l := Publish(sh.lifelines, e);
    QueuedAt(sh.drains, l, cut, 0);
    assert l[0] == e || l[0] == sh.lifelines[0];
    FirstIn(sh.lifelines);
  }

  /** A head that has just taken its workload's lifeline publishes the ticket first. */
  lemma NamesALifeline(w: World, h: Id)
    requires Reachable(w) && w.sh.locks.queue == Some(h) && h in w.guards && w.guards[h].naming.Some?
    ensures w.guards[h].lane == Leaf && w.guards[h].naming.value.pid == h && Lanes(w.sh.drains, w.sh.lifelines)
  {
    HolderFacts(w, h);
    QueueHolderIs(w.sh.locks, w.guards[h]);
    var capacity: nat, clock: nat, n: nat :| 1 <= capacity && ReachableIn(capacity, clock, w, n);
    ReachableTickets(capacity, clock, w, n);
    assert TicketOk(w.sh, w.guards[h]);
    hide Reachable, ReachableIn, HoldsOk;
  }

  lemma PublishesIt(a: Both) returns (b: Both)
    requires a.g.naming.Some? && a.g.lane == Leaf
    ensures Leads(a, b)
    ensures b == Both(a.sh.(lifelines := Publish(a.sh.lifelines, Entry(a.g.naming.value, Leaf))),
                      a.g.(ticket := a.g.naming, naming := None))
  {
    b := Advance(a.sh, a.g);
    LeadsByOne(a);
    hide Leads, Publish;
  }

  lemma PublishesLifeline(w: World, h: Id) returns (u: World)
    requires BasesWait(w) && w.sh.locks.queue == Some(h) && h in w.guards && w.guards[h].naming.Some?
    ensures BasesWait(u) && ComesTo(w, h, u) && Keeping(w, u) && u.guards[h].naming.None?
    ensures u.sh.locks == w.sh.locks && u.guards[h].phase == w.guards[h].phase
    ensures forall e :: e in u.sh.lifelines ==> e in w.sh.lifelines || e.name.pid == h
  {
    NamesALifeline(w, h);
    var e := Entry(w.guards[h].naming.value, Leaf);
    AddsToLifelines(w.sh, e);
    PublishSuperset(w.sh.lifelines, e);
    var b := PublishesIt(Both(w.sh, w.guards[h]));
    hide Reachable, Leads, LifelineFirst, Publish;
    u := WhereItLeads(w, h, b);
    forall k | k in u.sh.locks.slots
      ensures SlotIsFine(u, k)
    {
      assert SlotIsFine(w, k);
    }
  }

  lemma {:induction false} PublishSuperset<T>(r: seq<Entry<T>>, x: Entry<T>)
    ensures forall e :: e in Publish(r, x) ==> e in r || e == x
  {
    if r != [] && !Before(x.name, r[0].name) {
      PublishSuperset(r[1..], x);
    }
  }

  lemma QueueHolderMovesOn(w: World, h: Id) returns (u: World)
    requires BasesWait(w) && w.sh.locks.queue == Some(h) && w.sh.locks.register in {None, w.sh.locks.queue}
    requires h in w.guards && w.guards[h].naming.None? && !w.guards[h].phase.Admitted?
    ensures Reachable(u) && ComesTo(w, h, u)
    ensures || IsNewlyRunning(w, u, h)
            || (BasesWait(u) && Keeping(w, u) && u.sh.locks.queue.None? && u.sh.locks.register.None?
                && u.sh.lifelines == w.sh.lifelines)
  {
    WaitingIsAmidBases(w, h);
    HolderFacts(w, h);
    QueueHolderIs(w.sh.locks, w.guards[h]);
    u := FromQueue(w, h);
    if HasLeft(w, h, u) {
      QueueLeaves(w, h, u);
    }
    hide ComesTo, Reachable, BasesWait, IsAmidBases;
  }

  /** The queue comes free too: of a world seen from `base`, where its holder was engaged. */
  lemma QueueComesFree(base: World, w: World) returns (u: World, id: Id)
    requires BasesWait(w) && GetsTo(base, w) && Keeping(base, w) && w.sh.locks.register in {None, w.sh.locks.queue}
    requires w.sh.locks.queue.Some? ==> IsEngaged(base, w.sh.locks.queue.value)
    requires forall e :: e in w.sh.lifelines ==> IsEngaged(base, e.name.pid)
    ensures Reachable(u) && GetsTo(base, u)
    ensures || (IsNewlyRunning(base, u, id) && IsEngaged(base, id))
            || (BasesWait(u) && Keeping(base, u) && u.sh.locks.queue.None? && u.sh.locks.register.None?
                && forall e :: e in u.sh.lifelines ==> IsEngaged(base, e.name.pid))
  {
    RegisterHolderExists(w);
    hide EngagedSteps, ComesTo, Reachable, HasLeft, GetsTo, IsEngaged, IsNewlyRunning;
    u, id := w, 0;
    if w.sh.locks.queue.Some? {
      id := w.sh.locks.queue.value;
      if w.guards[id].phase.Admitted? {
        u := LetsGo(w, id);
        GetsOn(base, w, id, u);
      } else {
        var v := w;
        if w.guards[id].naming.Some? {
          v := PublishesLifeline(w, id);
          GetsOn(base, w, id, v);
        }
        u := QueueHolderMovesOn(v, id);
        GetsOn(base, v, id, u);
        if IsNewlyRunning(v, u, id) {
          NotAdmittedBefore(base, v, u, id);
        }
      }
    }
  }

  // --- Lifelines get on ---

  /**
   From every state in which elastic workloads wait for their parts, steps of the programs of guards that hold the
   queue or `register` or queue with a lifeline, and of no others, lead to the admission of one of them.
   */
  lemma LifelinesGetOn(w: World) returns (v: World, id: Id)
    requires BasesWait(w)
    ensures Reachable(v) && GetsTo(w, v) && IsEngaged(w, id) && IsNewlyRunning(w, v, id)
  {
    hide EngagedSteps, ComesTo, Reachable, HasLeft, GetsTo, IsNewlyRunning;
    var u, i := RegisterComesFree(w);
    if IsNewlyRunning(w, u, i) && IsEngaged(w, i) {
      v, id := u, i;
    } else {
      var x, j := QueueComesFree(w, u);
      if IsNewlyRunning(w, x, j) && IsEngaged(w, j) {
        v, id := x, j;
      } else {
        v, id := LastStage(w, x);
      }
    }
  }

  lemma LastStage(base: World, w: World) returns (v: World, id: Id)
    requires BasesWait(w) && GetsTo(base, w) && Keeping(base, w) && w.sh.locks.queue.None? && w.sh.locks.register.None?
    requires forall e :: e in w.sh.lifelines ==> IsEngaged(base, e.name.pid)
    ensures Reachable(v) && GetsTo(base, v) && IsEngaged(base, id) && IsNewlyRunning(base, v, id)
  {
    id := FirstOwner(w);
    WaitingIsAmidBases(w, id);
    LifelineHoldsNone(w, id);
    hide Reachable, GetsTo, IsEngaged, LifelineFirst, MyTurn, Admissible, IsAmidBases;
    v := FirstLifelineRuns(w, id);
    NewlyRuns(w, v, id);
    GetsOn(base, w, id, v);
    NotAdmittedBefore(base, w, v, id);
  }

  lemma NewlyRuns(w: World, v: World, id: Id)
    requires ComesTo(w, id, v) && v.guards[id].phase == Running && !IsAdmitted(w.guards[id].phase)
    ensures IsNewlyRunning(w, v, id)
  {
    hide Leads;
  }

  lemma LifelineHoldsNone(w: World, f: Id)
    requires BasesWait(w) && f in w.guards && w.guards[f].lane == Leaf && w.sh.locks.queue.None?
    ensures forall k :: k in w.sh.locks.slots ==> w.sh.locks.slots[k] != f
  {
    HolderFacts(w, f);
    forall k | k in w.sh.locks.slots
      ensures w.sh.locks.slots[k] != f
    {
      assert SlotIsFine(w, k);
    }
    hide Reachable;
  }
}
