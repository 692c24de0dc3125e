/**
 Whose turn it is: the order of tickets, the one guard that may lead while a drain ticket is
 queued, and what can come ahead of a ticket that waits.
 */
module Turns {
  import opened Wrappers
  import opened Registries
  import opened Charge
  import opened Machine
  import opened Worlds
  import opened LockBooks

  // --- The order of tickets ---

  lemma {:induction false} CutProperties(drains: seq<Entry<Lane>>)
    ensures forall i :: 0 <= i < FirstExclusive(drains) ==> drains[i].value != Exclusive
    ensures FirstExclusive(drains) < |drains| ==> drains[FirstExclusive(drains)].value == Exclusive
  {
    if drains != [] && drains[0].value != Exclusive {
      CutProperties(drains[1..]);
      var cut := FirstExclusive(drains[1..]);
      forall i | 0 <= i < cut + 1
        ensures drains[i].value != Exclusive
      {
        if i > 0 {
          assert drains[1..][i - 1].value != Exclusive;
        }
      }
    }
  }

  lemma QueuedAt(d: seq<Entry<Lane>>, l: seq<Entry<Lane>>, cut: nat, i: nat)
    requires cut <= |d| && i < |d| + |l|
    ensures (d[..cut] + l + d[cut..])[i] == if i < cut then d[i] else if i < cut + |l| then l[i - cut] else d[i - |l|]
  {
  }

  ghost predicate Lanes(d: seq<Entry<Lane>>, l: seq<Entry<Lane>>) {
    && Sorted(d) && Sorted(l)
    && (forall e :: e in d ==> !IsLifeline(e))
    && (forall e :: e in l ==> IsLifeline(e))
  }

  /** Two places of the queue, the earlier one first. */
  lemma QueuePair(d: seq<Entry<Lane>>, l: seq<Entry<Lane>>, i: nat, j: nat)
    requires Lanes(d, l) && i < j < |d| + |l|
    ensures var cut := FirstExclusive(d);
            var q := d[..cut] + l + d[cut..];
            && (IsLifeline(q[i]) == IsLifeline(q[j]) ==> Before(q[i].name, q[j].name))
            && (IsLifeline(q[j]) && !IsLifeline(q[i]) ==> q[i].value != Exclusive)
            && (IsLifeline(q[i]) && !IsLifeline(q[j]) ==>
                  cut < |d| && i < cut + |l| <= j && q[cut + |l|].value == Exclusive)
  {
    var cut := FirstExclusive(d);
    CutProperties(d);
    QueuedAt(d, l, cut, i);
    QueuedAt(d, l, cut, j);
    if cut < |d| {
      QueuedAt(d, l, cut, cut + |l|);
    }
  }

  /**
   The queue holds every drain and lifeline ticket once; each kind keeps its arrival order, no
   exclusive ticket precedes a lifeline, and a drain ticket follows a lifeline only behind or as
   an exclusive one.
   */
  lemma QueueOrder(sh: Shared)
    requires Lanes(sh.drains, sh.lifelines)
    ensures multiset(QueuedTickets(sh)) == multiset(sh.drains) + multiset(sh.lifelines)
    ensures var q := QueuedTickets(sh);
            && (forall i, j :: 0 <= i < j < |q| && IsLifeline(q[i]) == IsLifeline(q[j]) ==>
                Before(q[i].name, q[j].name))
            && (forall i, j :: 0 <= i < j < |q| && IsLifeline(q[j]) && !IsLifeline(q[i]) ==> q[i].value != Exclusive)
            && (forall i, j :: 0 <= i < j < |q| && IsLifeline(q[i]) && !IsLifeline(q[j]) ==>
                  exists k :: i < k <= j && q[k].value == Exclusive)
  {
    var d, l, q := sh.drains, sh.lifelines, QueuedTickets(sh);
    assert d == d[..FirstExclusive(d)] + d[FirstExclusive(d)..];
    forall i, j | 0 <= i < j < |q|
      ensures IsLifeline(q[i]) == IsLifeline(q[j]) ==> Before(q[i].name, q[j].name)
      ensures IsLifeline(q[j]) && !IsLifeline(q[i]) ==> q[i].value != Exclusive
      ensures IsLifeline(q[i]) && !IsLifeline(q[j]) ==> exists k :: i < k <= j && q[k].value == Exclusive
    {
      QueuePair(d, l, i, j);
    }
  }

  // --- Who owns which ticket ---

  ghost predicate Stamped(sh: Shared, g: Guard, n: Name) {
    n.pid == g.id && n.serial < g.serial && n.time <= sh.clock
  }

  ghost predicate TicketOk(sh: Shared, g: Guard) {
    && (g.ticket.Some? ==>
          && Stamped(sh, g, g.ticket.value) && g.naming.None?
          && (if g.lane == Leaf then Entry(g.ticket.value, Leaf) in sh.lifelines
              else Entry(g.ticket.value, g.lane) in sh.drains))
    && (g.naming.Some? ==> Stamped(sh, g, g.naming.value))
    && (forall e :: e in sh.drains && e.name.pid == g.id ==> g.lane != Leaf && g.ticket == Some(e.name))
    && (forall e :: e in sh.lifelines && e.name.pid == g.id ==> g.lane == Leaf && g.ticket == Some(e.name))
  }

  ghost predicate TicketsOk(w: World) {
    && Lanes(w.sh.drains, w.sh.lifelines)
    && (forall e :: e in w.sh.drains || e in w.sh.lifelines ==> e.name.pid in w.guards)
    && (forall id :: id in w.guards ==> w.guards[id].id == id && TicketOk(w.sh, w.guards[id]))
  }

  ghost predicate TicketFrame(r: seq<Entry<Lane>>, r': seq<Entry<Lane>>, id: Id) {
    && (forall e :: e in r && e.name.pid != id ==> e in r')
    && (forall e :: e in r' && e.name.pid != id ==> e in r)
  }

  ghost predicate KeepsTickets(sh: Shared, g: Guard, b: Both) {
    && b.g.id == g.id && b.sh.clock == sh.clock && TicketOk(b.sh, b.g)
    && TicketFrame(sh.drains, b.sh.drains, g.id) && TicketFrame(sh.lifelines, b.sh.lifelines, g.id)
    && Lanes(b.sh.drains, b.sh.lifelines)
  }

  ghost predicate TicketsReady(sh: Shared, g: Guard) {
    TicketOk(sh, g) && Lanes(sh.drains, sh.lifelines)
  }

  /** Steps that neither publish nor withdraw a ticket. */
  ghost predicate TicketQuiet(sh: Shared, g: Guard, b: Both) {
    && b.sh.clock == sh.clock && b.sh.drains == sh.drains && b.sh.lifelines == sh.lifelines
    && b.g.id == g.id && b.g.lane == g.lane && b.g.ticket == g.ticket && b.g.naming == g.naming
    && b.g.serial >= g.serial
  }

  lemma InsideTickets(sh: Shared, g: Guard)
    requires g.naming.None? && Inside(g.phase) && !g.phase.Admitted?
    ensures TicketQuiet(sh, g, Advance(sh, g))
  {
    hide MyTurn, Withdraw, Reserve, Goal, GiveBack, HoldsLock, ElasticRoom, WithinBound, Excess;
  }

  lemma ApproachTickets(sh: Shared, g: Guard)
    requires g.naming.None? && !Inside(g.phase) && !g.phase.Outside?
    ensures TicketQuiet(sh, g, Advance(sh, g))
  {
    hide Advance, TicketQuiet;
    if g.phase.Queueing? {
      QueueingTickets(sh, g);
    } else if Approaching(g.phase) {
      ArrivingTickets(sh, g);
    } else {
      AttemptTickets(sh, g);
    }
  }

  lemma ArrivingTickets(sh: Shared, g: Guard)
    requires g.naming.None? && Approaching(g.phase) && !g.phase.Outside? && !g.phase.Queueing?
    ensures TicketQuiet(sh, g, Advance(sh, g))
  {
    hide WorkspaceOf;
  }

  lemma AttemptTickets(sh: Shared, g: Guard)
    requires g.naming.None? && !Inside(g.phase) && !Approaching(g.phase)
    ensures TicketQuiet(sh, g, Advance(sh, g))
  {
    hide CloseLocks, Withdraw;
  }

  lemma QueueingTickets(sh: Shared, g: Guard)
    requires g.naming.None? && g.phase.Queueing?
    ensures TicketQuiet(sh, g, Advance(sh, g))
  {
    hide MyTurn, FirstInLine, Withdraw, Unlink, Publish;
  }

  lemma LeaveQueueKeeps(sh: Shared, g: Guard)
    requires TicketsReady(sh, g)
    ensures KeepsTickets(sh, g, LeaveQueue(sh, g))
    ensures forall e :: e in LeaveQueue(sh, g).sh.drains || e in LeaveQueue(sh, g).sh.lifelines ==> e.name.pid != g.id
  {
    if g.ticket.Some? {
      UnlinkRemoves(sh.drains, g.ticket.value);
      UnlinkRemoves(sh.lifelines, g.ticket.value);
    }
  }

  lemma PublishTicketKeeps(sh: Shared, g: Guard)
    requires TicketsReady(sh, g) && g.naming.Some?
    ensures KeepsTickets(sh, g, PublishTicket(sh, g))
  {
    var e := Entry(g.naming.value, g.lane);
    if g.lane == Leaf {
      PublishAdds(sh.lifelines, e);
    } else {
      PublishAdds(sh.drains, e);
    }
  }

  lemma OutsideTickets(sh: Shared, g: Guard)
    requires TicketsReady(sh, g) && g.naming.None?
    ensures KeepsTickets(sh, g, StepOutside(sh, g))
  {
    hide ElasticRoom, Withdraw, Lanes;
    LeaveQueueKeeps(sh, g);
  }

  lemma SettleTickets(sh: Shared, g: Guard, path: Path)
    requires TicketsReady(sh, g) && g.naming.None?
    ensures KeepsTickets(sh, g, Settle(sh, g, path))
  {
    hide LetCollect, NewName;
    LeaveQueueKeeps(sh, g);
  }

  lemma AdvanceKeepsTickets(sh: Shared, g: Guard)
    requires TicketsReady(sh, g)
    ensures KeepsTickets(sh, g, Advance(sh, g))
  {
    if g.naming.Some? {
      PublishTicketKeeps(sh, g);
    } else if g.phase.Outside? {
      OutsideTickets(sh, g);
    } else if g.phase.Admitted? {
      SettleTickets(sh, g, g.phase.path);
    } else if Inside(g.phase) {
      InsideTickets(sh, g);
    } else {
      ApproachTickets(sh, g);
    }
  }

  lemma PerformKeepsTickets(sh: Shared, g: Guard, a: Action)
    requires TicketsReady(sh, g) && Enabled(sh, g, a)
    ensures KeepsTickets(sh, g, Perform(sh, g, a))
  {
    match a
    case Advancing => AdvanceKeepsTickets(sh, g);
    case Lifeline => LeaveQueueKeeps(sh, g);
    case Releasing => WithdrawTickets(sh, g);
    case Dying => WithdrawTickets(sh, g);
    case _ =>
  }

  lemma WithdrawTickets(sh: Shared, g: Guard)
    requires TicketsReady(sh, g)
    ensures KeepsTickets(sh, g, WithdrawAll(sh, g))
  {
    if g.ticket.Some? {
      UnlinkRemoves(sh.drains, g.ticket.value);
      UnlinkRemoves(sh.lifelines, g.ticket.value);
    }
  }

  lemma OthersKeepTickets(w: World, id: Id, b: Both)
    requires TicketsOk(w) && id in w.guards && KeepsTickets(w.sh, w.guards[id], b)
    ensures TicketsOk(World(b.sh, w.guards[id := b.g]))
  {
    forall j | j in w.guards && j != id
      ensures TicketOk(b.sh, w.guards[j])
    {
      assert TicketOk(w.sh, w.guards[j]);
    }
    forall e | e in b.sh.drains || e in b.sh.lifelines
      ensures e.name.pid in w.guards[id := b.g]
    {
      assert e.name.pid != id ==> e in w.sh.drains || e in w.sh.lifelines;
    }
  }

  lemma NewcomerHasNoTicket(w: World, id: Id, a: Args)
    requires TicketsOk(w) && id !in w.guards
    ensures TicketsOk(World(w.sh, w.guards[id := Newcomer(w.sh.capacity, id, a)]))
  {
    forall e | e in w.sh.drains || e in w.sh.lifelines
      ensures e.name.pid != id
    {
    }
  }

  lemma MoveKeepsTickets(v: World, w: World)
    requires TicketsOk(v) && Moves(v, w)
    ensures TicketsOk(w)
  {
    var m :| CanMove(v, m) && w == After(v, m);
    match m
    case Tick(_) =>
      forall id | id in w.guards
        ensures TicketOk(w.sh, w.guards[id])
      {
        assert TicketOk(v.sh, v.guards[id]);
      }
    case Arrive(id, a) => NewcomerHasNoTicket(v, id, a);
    case Act(id, a) =>
      PerformKeepsTickets(v.sh, v.guards[id], a);
      OthersKeepTickets(v, id, Perform(v.sh, v.guards[id], a));
  }

  lemma {:induction false} ReachableTickets(capacity: nat, clock: nat, w: World, n: nat)
    requires ReachableIn(capacity, clock, w, n)
    ensures TicketsOk(w)
    decreases n
  {
    if n > 0 {
      var v :| ReachableIn(capacity, clock, v, n - 1) && Moves(v, w);
      ReachableTickets(capacity, clock, v, n - 1);
      MoveKeepsTickets(v, w);
    }
  }

  // --- One guard leads while a drain ticket is queued ---

  /**
   While a drain ticket is queued, exactly the owner of the first queued ticket has its turn,
   and that owner exists.
   */
  lemma OneTurnWhileDraining(w: World, id: Id)
    requires Reachable(w) && w.sh.drains != [] && id in w.guards
    ensures var first := QueuedTickets(w.sh)[0].name;
            && first.pid in w.guards && w.guards[first.pid].ticket == Some(first)
            && (MyTurn(w.sh, w.guards[id]) <==> id == first.pid)
  {
    var capacity: nat, clock: nat, n: nat :| 1 <= capacity && ReachableIn(capacity, clock, w, n);
    ReachableTickets(capacity, clock, w, n);
    var q := QueuedTickets(w.sh);
    FirstInQueue(w.sh);
    assert TicketOk(w.sh, w.guards[q[0].name.pid]) && TicketOk(w.sh, w.guards[id]);
  }

  lemma FirstInQueue(sh: Shared)
    requires sh.drains != [] && Lanes(sh.drains, sh.lifelines)
    ensures QueuedTickets(sh) != []
    ensures QueuedTickets(sh)[0] in sh.drains || QueuedTickets(sh)[0] in sh.lifelines
    ensures exists e :: e in QueuedTickets(sh) && !IsLifeline(e)
  {
    var cut := FirstExclusive(sh.drains);
    QueuedAt(sh.drains, sh.lifelines, cut, 0);
    var k := if cut > 0 then 0 else |sh.lifelines|;
    QueuedAt(sh.drains, sh.lifelines, cut, k);
    assert QueuedTickets(sh)[k] in QueuedTickets(sh);
  }

  // --- What can come ahead of a waiting ticket ---

  ghost predicate Published(sh: Shared, n: Name) {
    exists e :: e in sh.drains && e.name == n
  }

  /** Its name is taken, its file is not there yet. */
  ghost predicate InTheMaking(w: World, n: Name) {
    n.pid in w.guards && w.guards[n.pid].naming == Some(n) && w.guards[n.pid].lane != Leaf
  }

  ghost predicate Named(w: World, n: Name) {
    Published(w.sh, n) || InTheMaking(w, n)
  }

  /** The drain names a guard answers for, before and after one of its steps. */
  ghost predicate NamesOnly(sh: Shared, g: Guard, b: Both) {
    && (b.g.naming.Some? && b.g.lane != Leaf ==>
          (b.g.naming == g.naming && g.lane != Leaf) || b.g.naming.value == NewName(sh, g))
    && (b.g.ticket.Some? && b.g.lane != Leaf ==>
          g.lane != Leaf && (b.g.ticket == g.ticket || b.g.ticket == g.naming))
  }

  lemma InsideNames(sh: Shared, g: Guard)
    requires g.naming.None? && Inside(g.phase) && !g.phase.Admitted?
    ensures NamesOnly(sh, g, Advance(sh, g))
  {
    InsideTickets(sh, g);
  }

  lemma AdvanceNames(sh: Shared, g: Guard)
    ensures NamesOnly(sh, g, Advance(sh, g))
  {
    if g.naming.Some? {
      assert Advance(sh, g) == PublishTicket(sh, g);
    } else if g.phase.Outside? {
      assert Advance(sh, g) == StepOutside(sh, g);
    } else if g.phase.Admitted? {
      assert Advance(sh, g) == Settle(sh, g, g.phase.path);
    } else if Inside(g.phase) {
      InsideNames(sh, g);
    } else {
      ApproachTickets(sh, g);
    }
  }

  lemma PerformNames(sh: Shared, g: Guard, a: Action)
    requires Enabled(sh, g, a)
    ensures NamesOnly(sh, g, Perform(sh, g, a))
  {
    if a.Advancing? {
      AdvanceNames(sh, g);
    }
  }

  /** A drain ticket that is newly named carries the instant it is named at. */
  lemma NewNamesAreNow(v: World, m: Move, n: Name)
    requires TicketsOk(v) && CanMove(v, m) && Named(After(v, m), n) && !Named(v, n)
    ensures n.time == v.sh.clock
  {
    match m
    case Tick(_) =>
    case Arrive(_, _) =>
    case Act(id, a) =>
      var b := Perform(v.sh, v.guards[id], a);
      PerformNames(v.sh, v.guards[id], a);
      PerformKeepsTickets(v.sh, v.guards[id], a);
      assert TicketOk(v.sh, v.guards[id]);
  }

  /**
   Nothing gets ahead of a ticket once time has moved on: whatever is named ahead of it later
   (published, or about to be) was named already.
   */
  lemma AheadOnlyShrinks(v: World, w: World, t: Name, n: Name)
    requires TicketsOk(v) && Moves(v, w) && t.time < v.sh.clock
    requires Before(n, t) && Named(w, n)
    ensures Named(v, n) && t.time < w.sh.clock
  {
    var m :| CanMove(v, m) && w == After(v, m);
    if !Named(v, n) {
      NewNamesAreNow(v, m, n);
    }
    if m.Act? {
      PerformKeepsTickets(v.sh, v.guards[m.id], m.action);
    }
  }

  /** `w` is reached from `v` in n moves. */
  ghost predicate LeadsTo(v: World, w: World, n: nat)
    decreases n
  {
    if n == 0 then v == w else exists u :: LeadsTo(v, u, n - 1) && Moves(u, w)
  }

  /** The same over whole runs. */
  lemma {:induction false} AheadOnlyShrinksForever(v: World, w: World, k: nat, t: Name, n: Name)
    requires TicketsOk(v) && LeadsTo(v, w, k) && t.time < v.sh.clock
    ensures TicketsOk(w) && t.time < w.sh.clock
    ensures Before(n, t) && Named(w, n) ==> Named(v, n)
    decreases k
  {
    if k > 0 {
      var u :| LeadsTo(v, u, k - 1) && Moves(u, w);
      AheadOnlyShrinksForever(v, u, k - 1, t, n);
      MoveKeepsTickets(u, w);
      ClockKeepsUp(u, w);
      if Before(n, t) && Named(w, n) {
        AheadOnlyShrinks(u, w, t, n);
      }
    }
  }

  lemma ClockKeepsUp(v: World, w: World)
    requires TicketsOk(v) && Moves(v, w)
    ensures v.sh.clock <= w.sh.clock
  {
    var m :| CanMove(v, m) && w == After(v, m);
    if m.Act? {
      PerformKeepsTickets(v.sh, v.guards[m.id], m.action);
    }
  }

  /**
   The published tickets alone can grow ahead of a waiting one, because a name is taken before
   its file appears: a drain ticket appears exactly when the guard that named it publishes it.
   */
  lemma PublishedExactlyWhenMade(v: World, m: Move, n: Name)
    requires TicketsOk(v) && CanMove(v, m)
    ensures Published(After(v, m).sh, n) && !Published(v.sh, n) <==> m == Act(n.pid, Advancing) && InTheMaking(v, n)
  {
    var w := After(v, m);
    if m == Act(n.pid, Advancing) && InTheMaking(v, n) {
      var g := v.guards[n.pid];
      assert TicketOk(v.sh, g);
      PublishAdds(v.sh.drains, Entry(n, g.lane));
      assert Entry(n, g.lane) in w.sh.drains;
    }
    if Published(w.sh, n) && !Published(v.sh, n) {
      var e :| e in w.sh.drains && e.name == n;
      assert m.Act?;
      PerformKeepsTickets(v.sh, v.guards[m.id], m.action);
      var g := v.guards[m.id];
      assert TicketOk(v.sh, g);
      if m.action.Advancing? && g.naming.Some? {
        PublishAdds(v.sh.drains, Entry(g.naming.value, g.lane));
        assert e in v.sh.drains || e.name == g.naming.value;
      } else {
        OnlyAdvancingPublishes(v.sh, g, m.action);
      }
    }
  }

  lemma OnlyAdvancingPublishes(sh: Shared, g: Guard, a: Action)
    requires TicketsReady(sh, g) && Enabled(sh, g, a) && !(a.Advancing? && g.naming.Some?)
    ensures forall e :: e in Perform(sh, g, a).sh.drains ==> e in sh.drains
  {
    if g.ticket.Some? {
      UnlinkRemoves(sh.drains, g.ticket.value);
    }
    if a.Advancing? {
      if Inside(g.phase) && !g.phase.Admitted? {
        InsideTickets(sh, g);
      } else if !Inside(g.phase) && !g.phase.Outside? {
        ApproachTickets(sh, g);
      }
    }
  }

  lemma OneMoreMove(capacity: nat, clock: nat, v: World, n: nat, m: Move)
    requires ReachableIn(capacity, clock, v, n) && CanMove(v, m)
    ensures ReachableIn(capacity, clock, After(v, m), n + 1)
  {
    assert Moves(v, After(v, m));
  }

  /** A merge guard that asks for one slot in a workspace of its own. */
  function SmallMerge(workspace: nat): Args {
    Args(false, false, false, true, Merge, 1.0, 0.0, [], workspace, false, 0, 0)
  }

  lemma SmallMergeFits(workspace: nat)
    ensures Acceptable(1, SmallMerge(workspace)) && Planned(1, SmallMerge(workspace)) == 1
        && Declared(1, SmallMerge(workspace)) == 1
  {
    PlanWithinDeclared(1, SmallMerge(workspace));
  }

  lemma EntersWorkspace(w: World, i: Id)
    requires i in w.guards && w.guards[i].phase == Arrived && w.guards[i].lane == Merge && w.guards[i].naming.None?
    requires !w.guards[i].job.sub && !w.guards[i].job.sharedWorkspace
        && WorkspaceOf(w.sh.locks, w.guards[i].job.workspace).CanOwn()
    ensures var x := w.guards[i].job.workspace;
            After(w, Act(i, Advancing))
            == World(w.sh.(locks := w.sh.locks.(workspaces := w.sh.locks.workspaces[x := WorkspaceOf(w.sh.locks,
                x).Own(w.guards[i].id)])),
                     w.guards[i := w.guards[i].(phase := Outside)])
  {
  }

  lemma TakesName(w: World, i: Id)
    requires i in w.guards && w.guards[i].phase == Outside && w.guards[i].lane == Merge && w.guards[i].naming.None?
    requires w.guards[i].ticket.None? && !w.guards[i].job.elastic
    ensures After(w, Act(i, Advancing)) == World(w.sh, w.guards[i := TakeName(w.sh, w.guards[i])])
  {
  }

  lemma PublishesName(w: World, i: Id)
    requires i in w.guards && w.guards[i].lane == Merge && w.guards[i].naming.Some?
    ensures var b := PublishTicket(w.sh, w.guards[i]); After(w, Act(i, Advancing)) == World(b.sh, w.guards[i := b.g])
  {
  }

  /** Guard 1 has taken its name, not published its ticket. */
  ghost predicate HasNamed(w: World) {
    1 in w.guards && w.guards[1].naming == Some(Name(0, 1, 0)) && w.guards[1].lane == Merge
  }

  lemma FirstArrives() returns (w: World)
    ensures ReachableIn(1, 0, w, 1) && w == World(Start(1, 0).sh, map[1 := Newcomer(1, 1, SmallMerge(1))])
  {
    SmallMergeFits(1);
    var w0 := Start(1, 0);
    OneMoreMove(1, 0, w0, 0, Arrive(1, SmallMerge(1)));
    w := After(w0, Arrive(1, SmallMerge(1)));
    assert w.guards == map[1 := Newcomer(1, 1, SmallMerge(1))];
  }

  lemma FirstEnters() returns (w: World)
    ensures ReachableIn(1, 0, w, 2) && w.guards == map[1 := Newcomer(1, 1, SmallMerge(1)).(phase := Outside)]
    ensures w.sh == Start(1, 0).sh.(locks := w.sh.locks) && WorkspaceOf(w.sh.locks, 2) == UNLOCKED
  {
    hide ReachableIn;
    SmallMergeFits(1);
    var w1 := FirstArrives();
    OneMoreMove(1, 0, w1, 1, Act(1, Advancing));
    EntersWorkspace(w1, 1);
    w := After(w1, Act(1, Advancing));
  }

  lemma FirstNames() returns (w: World)
    ensures ReachableIn(1, 0, w, 3) && HasNamed(w) && w.guards.Keys == {1}
    ensures w.sh == Start(1, 0).sh.(locks := w.sh.locks) && WorkspaceOf(w.sh.locks, 2) == UNLOCKED
  {
    var w2 := FirstEnters();
    OneMoreMove(1, 0, w2, 2, Act(1, Advancing));
    TakesName(w2, 1);
    w := After(w2, Act(1, Advancing));
  }

  lemma SecondNames() returns (w: World)
    ensures ReachableIn(1, 0, w, 7) && HasNamed(w) && w.sh.clock == 5 && w.sh.drains == []
    ensures 2 in w.guards && w.guards[2].naming == Some(Name(5, 2, 0)) && w.guards[2].lane == Merge
  {
    SmallMergeFits(2);
    var w3 := FirstNames();
    OneMoreMove(1, 0, w3, 3, Arrive(2, SmallMerge(2)));
    var w4 := After(w3, Arrive(2, SmallMerge(2)));
    OneMoreMove(1, 0, w4, 4, Act(2, Advancing));
    EntersWorkspace(w4, 2);
    var w5 := After(w4, Act(2, Advancing));
    OneMoreMove(1, 0, w5, 5, Tick(5));
    var w6 := After(w5, Tick(5));
    OneMoreMove(1, 0, w6, 6, Act(2, Advancing));
    TakesName(w6, 2);
    w := After(w6, Act(2, Advancing));
  }

  lemma SecondPublishes() returns (w: World)
    ensures ReachableIn(1, 0, w, 8) && HasNamed(w) && w.sh.clock == 5 && w.sh.drains == [Entry(Name(5, 2, 0), Merge)]
  {
    var w7 := SecondNames();
    OneMoreMove(1, 0, w7, 7, Act(2, Advancing));
    PublishesName(w7, 2);
    w := After(w7, Act(2, Advancing));
  }

  /**
   A run in which a merge ticket that waits gets another one published ahead of it although
   time has moved on since it took its own name.
   */
  lemma LatePublicationHappens() returns (v: World, m: Move, n: Name, t: Name)
    ensures Reachable(v) && CanMove(v, m) && t.time < v.sh.clock && Before(n, t)
    ensures Published(v.sh, t) && !Published(v.sh, n) && Published(After(v, m).sh, n)
  {
    hide ReachableIn;
    n, t, m := Name(0, 1, 0), Name(5, 2, 0), Act(1, Advancing);
    var w8 := SecondPublishes();
    OneMoreMove(1, 0, w8, 8, Tick(9));
    v := After(w8, Tick(9));
    PublishesName(v, 1);
    assert v.sh.drains[0] == Entry(t, Merge);
    assert After(v, m).sh.drains[0] == Entry(n, Merge);
  }
}
