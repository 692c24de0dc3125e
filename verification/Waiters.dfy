/**
 Who leads beside waiting lifelines: of the guards without a ticket only those that began to wait before the
 lifelines, and a lifeline that comes later does not take the turn from them.
 */
module Waiters {
  import opened Wrappers
  import opened Registries
  import opened Charge
  import opened Machine
  import opened Worlds
  import opened LockBooks
  import opened Turns
  import opened Decisions

  lemma ReachableHasTickets(w: World)
    requires Reachable(w)
    ensures TicketsOk(w)
  {
    var capacity: nat, clock: nat, n: nat :| 1 <= capacity && ReachableIn(capacity, clock, w, n);
    ReachableTickets(capacity, clock, w, n);
  }

  lemma {:induction false} RunKeepsTickets(v: World, w: World, k: nat)
    requires TicketsOk(v) && LeadsTo(v, w, k)
    ensures TicketsOk(w) && v.sh.clock <= w.sh.clock
    decreases k
  {
    hide TicketsOk, Moves;
    if k > 0 {
      var u :| LeadsTo(v, u, k - 1) && Moves(u, w);
      RunKeepsTickets(v, u, k - 1);
      MoveKeepsTickets(u, w);
      ClockKeepsUp(u, w);
    }
  }

  lemma {:induction false} RunGoesOn(capacity: nat, clock: nat, v: World, n: nat, w: World, k: nat)
    requires ReachableIn(capacity, clock, v, n) && LeadsTo(v, w, k)
    ensures ReachableIn(capacity, clock, w, n + k)
    decreases k
  {
    hide Moves;
    if k > 0 {
      var u :| LeadsTo(v, u, k - 1) && Moves(u, w);
      RunGoesOn(capacity, clock, v, n, u, k - 1);
    }
  }

  lemma RunIsReachable(v: World, w: World, k: nat)
    requires Reachable(v) && LeadsTo(v, w, k)
    ensures Reachable(w)
  {
    var capacity: nat, clock: nat, n: nat :| 1 <= capacity && ReachableIn(capacity, clock, v, n);
    RunGoesOn(capacity, clock, v, n, w, k);
  }

  // --- Since when a guard waits ---

  lemma InsideKeepsWaiting(sh: Shared, g: Guard)
    requires g.naming.None? && Inside(g.phase)
    ensures Advance(sh, g).g.waiting in {g.waiting, None}
  {
    hide MyTurn, NewName, Withdraw, Reserve, Goal, GiveBack, HoldsLock, LetCollect, ElasticRoom, WithinBound, Excess;
  }

  lemma AdvanceKeepsWaiting(sh: Shared, g: Guard)
    ensures Advance(sh, g).g.waiting in {g.waiting, None}
  {
    if g.naming.None? && Inside(g.phase) {
      InsideKeepsWaiting(sh, g);
    } else {
      hide MyTurn, FirstInLine, Withdraw, WorkspaceOf, CloseLocks, ElasticRoom, Publish, Unlink;
    }
  }

  /** A guard begins to wait at the instant it says so. */
  lemma WaitsFromNow(sh: Shared, g: Guard, a: Action)
    requires Enabled(sh, g, a)
    ensures Perform(sh, g, a).g.waiting in {g.waiting, None, Some(NewName(sh, g))}
  {
    AdvanceKeepsWaiting(sh, g);
    hide Advance;
  }

  lemma WaitedBefore(v: World, w: World, id: Id, n: Name)
    requires Moves(v, w) && id in w.guards && w.guards[id].waiting == Some(n) && n.time < v.sh.clock
    ensures id in v.guards && v.guards[id].waiting == Some(n)
  {
    var m :| CanMove(v, m) && w == After(v, m);
    if m.Act? && m.id == id {
      WaitsFromNow(v.sh, v.guards[id], m.action);
    }
    hide Perform;
  }

  lemma {:induction false} WaitedAllAlong(v: World, w: World, k: nat, id: Id, n: Name)
    requires TicketsOk(v) && LeadsTo(v, w, k)
    requires id in w.guards && w.guards[id].waiting == Some(n) && n.time < v.sh.clock
    ensures id in v.guards && v.guards[id].waiting == Some(n)
    decreases k
  {
    hide TicketsOk, Moves;
    if k > 0 {
      var u :| LeadsTo(v, u, k - 1) && Moves(u, w);
      RunKeepsTickets(v, u, k - 1);
      WaitedBefore(u, w, id, n);
      WaitedAllAlong(v, u, k - 1, id, n);
    }
  }

  lemma LeadsBeside(sh: Shared, g: Guard, e: Entry<Lane>)
    requires MyTurn(sh, g) && g.ticket.None? && e in sh.lifelines
    ensures g.waiting.Some? && Before(g.waiting.value, e.name)
  {
    var cut := FirstExclusive(sh.drains);
    assert e in QueuedTickets(sh);
  }

  /**
   Only finitely many heads go before a lifeline: once time has passed its name, a guard without a ticket that
   leads beside it was waiting then already, and since before the lifeline was named.
   */
  lemma OnlyEarlierWaitersLead(v: World, w: World, k: nat, e: Entry<Lane>, id: Id)
    requires Reachable(v) && LeadsTo(v, w, k) && e.name.time < v.sh.clock && e in w.sh.lifelines
    requires id in w.guards && w.guards[id].ticket.None? && MyTurn(w.sh, w.guards[id])
    ensures id in v.guards && v.guards[id].waiting.Some? && v.guards[id].waiting == w.guards[id].waiting
    ensures Before(v.guards[id].waiting.value, e.name)
  {
    hide Reachable, LeadsTo, MyTurn;
    ReachableHasTickets(v);
    LeadsBeside(w.sh, w.guards[id], e);
    WaitedAllAlong(v, w, k, id, w.guards[id].waiting.value);
  }

  // --- Which lifelines can come ahead of a waiting guard ---

  /** A lifeline's ticket is queued, or its name is taken and its file not there yet. */
  ghost predicate IsNamed(w: World, n: Name) {
    || (exists e :: e in w.sh.lifelines && e.name == n)
    || (n.pid in w.guards && w.guards[n.pid].naming == Some(n) && w.guards[n.pid].lane == Leaf)
  }

  /** The lifeline names a guard answers for, before and after one of its steps. */
  ghost predicate LifelinesOnly(sh: Shared, g: Guard, b: Both) {
    && (b.g.naming.Some? && b.g.lane == Leaf ==>
          (b.g.naming == g.naming && g.lane == Leaf) || b.g.naming.value == NewName(sh, g))
    && (b.g.ticket.Some? && b.g.lane == Leaf ==>
          g.lane == Leaf && (b.g.ticket == g.ticket || b.g.ticket == g.naming))
  }

  lemma AdvanceNamesLifelines(sh: Shared, g: Guard)
    ensures LifelinesOnly(sh, g, Advance(sh, g))
  {
    if g.naming.Some? {
      assert Advance(sh, g) == PublishTicket(sh, g);
    } else if g.phase.Outside? {
      assert Advance(sh, g) == StepOutside(sh, g);
    } else if g.phase.Admitted? {
      assert Advance(sh, g) == Settle(sh, g, g.phase.path);
    } else if Inside(g.phase) {
      InsideTickets(sh, g);
      hide Advance;
    } else {
      ApproachTickets(sh, g);
      hide Advance;
    }
  }

  lemma PerformNamesLifelines(sh: Shared, g: Guard, a: Action)
    requires Enabled(sh, g, a)
    ensures LifelinesOnly(sh, g, Perform(sh, g, a))
  {
    hide Advance, MyTurn;
    if a.Advancing? {
      AdvanceNamesLifelines(sh, g);
    }
  }

  lemma NewLifelinesAreNow(v: World, w: World, n: Name)
    requires TicketsOk(v) && Moves(v, w) && IsNamed(w, n) && n.time < v.sh.clock
    ensures IsNamed(v, n)
  {
    var m :| CanMove(v, m) && w == After(v, m);
    match m
    case Tick(_) =>
    case Arrive(_, _) =>
    case Act(id, a) =>
      var g, b := v.guards[id], Perform(v.sh, v.guards[id], a);
      PerformNamesLifelines(v.sh, g, a);
      PerformKeepsTickets(v.sh, g, a);
      assert TicketOk(v.sh, g);
      hide Perform, Enabled;
      OneGuardNames(v, id, b, n);
  }

  lemma OneGuardNames(v: World, id: Id, b: Both, n: Name)
    requires TicketsOk(v) && id in v.guards && n.time < v.sh.clock
    requires LifelinesOnly(v.sh, v.guards[id], b) && KeepsTickets(v.sh, v.guards[id], b)
    requires IsNamed(World(b.sh, v.guards[id := b.g]), n)
    ensures IsNamed(v, n)
  {
    hide Lanes;
    var g := v.guards[id];
    assert TicketOk(v.sh, g) && g.id == id;
    if e :| e in b.sh.lifelines && e.name == n {
      if n.pid == id {
        assert b.g.lane == Leaf && b.g.ticket == Some(n);
        assert g.ticket == Some(n) ==> Entry(n, Leaf) in v.sh.lifelines;
      } else {
        assert e in v.sh.lifelines;
      }
    }
  }

  lemma {:induction false} NamedAllAlong(v: World, w: World, k: nat, n: Name)
    requires TicketsOk(v) && LeadsTo(v, w, k) && IsNamed(w, n) && n.time < v.sh.clock
    ensures IsNamed(v, n)
    decreases k
  {
    hide TicketsOk, Moves, IsNamed;
    if k > 0 {
      var u :| LeadsTo(v, u, k - 1) && Moves(u, w);
      RunKeepsTickets(v, u, k - 1);
      NewLifelinesAreNow(u, w, n);
      NamedAllAlong(v, u, k - 1, n);
    }
  }

  /** Its slots fit beside those of the running elastic workloads. */
  ghost predicate FitsBesideBases(w: World, id: Id)
    requires id in w.guards
  {
    w.guards[id].weight + Sum(Bases(w)) <= w.sh.capacity
  }

  /**
   A waiting guard without a ticket, once time has passed the start of its wait: whatever comes later, it has its
   turn exactly if no ticket is queued, or only lifelines are, it fits beside the elastic workloads, and no lifeline
   named by now is queued ahead of it. So no later lifeline takes its turn.
   */
  lemma LaterLifelinesTakeNoTurn(v: World, w: World, k: nat, id: Id, n: Name)
    requires Reachable(v) && LeadsTo(v, w, k) && n.time < v.sh.clock
    requires id in w.guards && w.guards[id].ticket.None? && w.guards[id].waiting == Some(n)
    ensures id in v.guards && v.guards[id].waiting == Some(n)
    ensures MyTurn(w.sh, w.guards[id]) <==>
              || (w.sh.drains == [] && w.sh.lifelines == [])
              || (&& w.sh.drains == [] && FitsBesideBases(w, id)
                  && forall e :: e in w.sh.lifelines && IsNamed(v, e.name) ==> Before(n, e.name))
  {
    hide Reachable, LeadsTo, MyTurn;
    ReachableHasTickets(v);
    RunKeepsTickets(v, w, k);
    RunIsReachable(v, w, k);
    ElasticIsBases(w);
    WaitedAllAlong(v, w, k, id, n);
    forall e | e in w.sh.lifelines && !Before(n, e.name)
      ensures IsNamed(v, e.name)
    {
      NotBefore(w, id, n, e);
      NamedAllAlong(v, w, k, e.name);
    }
    TurnBeside(w.sh, w.guards[id], n);
  }

  /** A name that does not come after an earlier one is as old. */
  lemma NotBefore(w: World, id: Id, n: Name, e: Entry<Lane>)
    requires e in w.sh.lifelines && !Before(n, e.name)
    ensures e.name.time <= n.time && IsNamed(w, e.name)
  {
  }

  /** The turn of a waiting guard without a ticket. */
  lemma TurnBeside(sh: Shared, g: Guard, n: Name)
    requires Lanes(sh.drains, sh.lifelines) && g.ticket.None? && g.waiting == Some(n)
    ensures MyTurn(sh, g) <==>
              || (sh.drains == [] && sh.lifelines == [])
              || (&& sh.drains == [] && g.weight + Total(sh.elastic) <= sh.capacity
                  && forall e :: e in sh.lifelines ==> Before(n, e.name))
  {
    if sh.drains == [] {
      assert QueuedTickets(sh) == sh.lifelines;
    } else {
      FirstInQueue(sh);
    }
  }
}
