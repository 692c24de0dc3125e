/**
 Who says that it waits, over every interleaving: a background guard tries only while nobody does, and an elastic
 guard without room says nothing.
 */
module WaitEntries {
  import opened Wrappers
  import opened Registries
  import opened Charge
  import opened Machine
  import opened Worlds
  import opened LockBooks
  import opened Bounds
  import opened Phases
  import opened Safety
  import opened Turns
  import opened Waiters
  import opened Decisions

  /** Its workload runs, or is done. */
  predicate IsPast(p: Phase) {
    p.Running? || p.Stopping? || p.Closing? || p.Gone?
  }

  ghost predicate WaitOk(waiting: seq<Entry<bool>>, g: Guard) {
    && (g.waiting.Some? ==>
          && g.waiting.value.pid == g.id && Entry(g.waiting.value, true) in waiting
          && g.lane != Background && !IsPast(g.phase))
    && (forall e :: e in waiting && e.name.pid == g.id ==> g.waiting == Some(e.name))
    && (g.ticket.Some? ==> g.lane != Background)
  }

  /** Every waiting entry is that of a guard that still waits, and a guard that says so has one. */
  ghost predicate WaitsOk(w: World) {
    && Sorted(w.sh.waiting)
    && (forall e :: e in w.sh.waiting ==> e.name.pid in w.guards)
    && (forall i :: i in w.guards ==> w.guards[i].id == i && WaitOk(w.sh.waiting, w.guards[i]))
  }

  ghost predicate WaitFrame(r: seq<Entry<bool>>, r': seq<Entry<bool>>, id: Id) {
    && (forall e :: e in r && e.name.pid != id ==> e in r')
    && (forall e :: e in r' && e.name.pid != id ==> e in r)
  }

  ghost predicate KeepsWait(sh: Shared, g: Guard, b: Both) {
    && b.g.id == g.id && Sorted(b.sh.waiting) && WaitOk(b.sh.waiting, b.g)
    && WaitFrame(sh.waiting, b.sh.waiting, g.id)
  }

  ghost predicate SameWait(sh: Shared, g: Guard, b: Both) {
    b.sh.waiting == sh.waiting && b.g.waiting == g.waiting
  }

  ghost predicate StopsWaiting(sh: Shared, g: Guard, b: Both) {
    b.sh.waiting == Withdraw(sh.waiting, g.waiting) && b.g.waiting.None?
  }

  // --- One guard's step ---

  lemma InsideAndWait(sh: Shared, g: Guard)
    requires g.naming.None? && Inside(g.phase)
    ensures SameWait(sh, g, Advance(sh, g)) || StopsWaiting(sh, g, Advance(sh, g))
  {
    hide MyTurn, NewName, Withdraw, Reserve, Goal, GiveBack, HoldsLock, LetCollect, ElasticRoom, WithinBound, Excess;
  }

  /** Before it starts its workload it says no longer that it waits. */
  lemma InsideEndsWait(sh: Shared, g: Guard)
    requires g.naming.None? && Inside(g.phase)
    ensures IsPast(Advance(sh, g).g.phase) ==> Advance(sh, g).g.waiting.None?
  {
    hide Advance;
    if g.phase.Admitted? {
      SettleEndsWait(sh, g, g.phase.path);
      AdmittedSettles(sh, g);
    } else {
      AdvanceGoes(sh, g);
    }
  }

  lemma AdmittedSettles(sh: Shared, g: Guard)
    requires g.naming.None? && g.phase.Admitted?
    ensures Advance(sh, g) == Settle(sh, g, g.phase.path)
  {
  }

  lemma SettleEndsWait(sh: Shared, g: Guard, path: Path)
    requires g.phase == Admitted(path)
    ensures IsPast(Settle(sh, g, path).g.phase) ==> Settle(sh, g, path).g.waiting.None?
  {
    hide NewName, Withdraw, LetCollect;
  }

  lemma RestAndWait(sh: Shared, g: Guard)
    requires g.naming.Some? || !Inside(g.phase)
    ensures SameWait(sh, g, Advance(sh, g)) || StopsWaiting(sh, g, Advance(sh, g))
  {
    hide MyTurn, FirstInLine, NewName, Withdraw, WorkspaceOf, CloseLocks, ElasticRoom, Publish, Unlink;
  }

  lemma RestStartsNothing(sh: Shared, g: Guard)
    requires g.naming.Some? || !Inside(g.phase)
    ensures IsPast(Advance(sh, g).g.phase) ==> IsPast(g.phase)
  {
    hide Advance;
    AdvanceGoes(sh, g);
  }

  lemma OtherActionsAndWait(sh: Shared, g: Guard, a: Action)
    requires Enabled(sh, g, a) && !a.Advancing? && !a.Waiting?
    ensures SameWait(sh, g, Perform(sh, g, a)) || StopsWaiting(sh, g, Perform(sh, g, a))
    ensures IsPast(Perform(sh, g, a).g.phase) ==> IsPast(g.phase) || Perform(sh, g, a).g.waiting.None?
  {
    hide Advance, MyTurn, NewName, Withdraw, CloseLocks, Unmet, LargestNeed;
  }

  lemma StepKeepsWait(sh: Shared, g: Guard, b: Both)
    requires Sorted(sh.waiting) && WaitOk(sh.waiting, g) && b.g.id == g.id
    requires SameWait(sh, g, b) || StopsWaiting(sh, g, b)
    requires IsPast(b.g.phase) ==> IsPast(g.phase) || b.g.waiting.None?
    requires b.g.waiting.Some? || b.g.ticket.Some? ==> b.g.lane != Background
    ensures KeepsWait(sh, g, b)
  {
    hide Sorted;
    if g.waiting.Some? {
      UnlinkRemoves(sh.waiting, g.waiting.value);
    }
  }

  lemma SayingSoKeepsWait(sh: Shared, g: Guard)
    requires Sorted(sh.waiting) && WaitOk(sh.waiting, g) && CanPublishWaiting(g)
    requires g.ticket.Some? ==> g.lane != Background
    ensures KeepsWait(sh, g, PublishWaiting(sh, g))
  {
    hide Sorted;
    PublishAdds(sh.waiting, Entry(NewName(sh, g), true));
  }

  lemma NoLaneBecomesBackground(sh: Shared, g: Guard, a: Action)
    requires Enabled(sh, g, a) && (g.lane == Exclusive ==> !g.job.sub)
    ensures Perform(sh, g, a).g.id == g.id && Perform(sh, g, a).g.lane in {g.lane, Leaf}
  {
    PerformKeepsJob(sh, g, a);
    hide Perform;
  }

  lemma PerformKeepsWait(sh: Shared, g: Guard, a: Action)
    requires Sorted(sh.waiting) && WaitOk(sh.waiting, g) && Enabled(sh, g, a)
    requires LaneOk(g) && (g.lane == Exclusive ==> !g.job.sub)
    ensures KeepsWait(sh, g, Perform(sh, g, a))
  {
    hide Sorted, Advance, SameWait, StopsWaiting, KeepsWait, IsPast, Enabled, WaitOk, LaneOk;
    NoLaneBecomesBackground(sh, g, a);
    LaneOfWaiting(sh, g, a);
    if a.Waiting? {
      WaitingIsEnabled(sh, g);
      SayingSoKeepsWait(sh, g);
    } else {
      if a.Advancing? {
        if g.naming.None? && Inside(g.phase) {
          InsideAndWait(sh, g);
          InsideEndsWait(sh, g);
        } else {
          RestAndWait(sh, g);
          RestStartsNothing(sh, g);
        }
      } else {
        OtherActionsAndWait(sh, g, a);
      }
      hide Perform;
      StepKeepsWait(sh, g, Perform(sh, g, a));
    }
  }

  lemma WaitingIsEnabled(sh: Shared, g: Guard)
    requires Enabled(sh, g, Action.Waiting) && WaitOk(sh.waiting, g)
    ensures CanPublishWaiting(g) && (g.ticket.Some? ==> g.lane != Background)
  {
  }

  /** Neither a waiting entry nor a ticket is a background guard's. */
  lemma LaneOfWaiting(sh: Shared, g: Guard, a: Action)
    requires WaitOk(sh.waiting, g) && LaneOk(g) && Enabled(sh, g, a) && Perform(sh, g, a).g.lane in {g.lane, Leaf}
    ensures var g' := Perform(sh, g, a).g;
            (!a.Waiting? && g'.waiting.Some?) || g'.ticket.Some? ==> g'.lane != Background
  {
    AdvanceKeepsWaiting(sh, g);
    PerformNames(sh, g, a);
    hide Advance;
  }

  // --- Every move ---

  lemma OthersKeepWait(r: seq<Entry<bool>>, r': seq<Entry<bool>>, id: Id, g: Guard)
    requires WaitOk(r, g) && WaitFrame(r, r', id) && g.id != id
    ensures WaitOk(r', g)
  {
  }

  lemma WaitsStayApart(w: World, id: Id, b: Both)
    requires WaitsOk(w) && id in w.guards && KeepsWait(w.sh, w.guards[id], b)
    ensures WaitsOk(World(b.sh, w.guards[id := b.g]))
  {
    hide Sorted, WaitOk;
    forall j | j in w.guards && j != id
      ensures WaitOk(b.sh.waiting, w.guards[j])
    {
      OthersKeepWait(w.sh.waiting, b.sh.waiting, id, w.guards[j]);
    }
    forall e | e in b.sh.waiting
      ensures e.name.pid in w.guards[id := b.g]
    {
      assert e.name.pid != id ==> e in w.sh.waiting;
    }
  }

  lemma NewcomerSaysNothing(w: World, id: Id, a: Args)
    requires WaitsOk(w) && id !in w.guards
    ensures WaitsOk(World(w.sh, w.guards[id := Newcomer(w.sh.capacity, id, a)]))
  {
    hide Sorted, Declared, Planned, LaneOf;
    forall e | e in w.sh.waiting
      ensures e.name.pid != id
    {
    }
  }

  lemma ActKeepsWaits(w: World, id: Id, a: Action)
    requires LocksOk(w) && LanesOk(w) && WaitsOk(w) && CanMove(w, Act(id, a))
    ensures WaitsOk(After(w, Act(id, a)))
  {
    hide Sorted, WaitOk, LaneOk, Perform, KeepsWait, Enabled, HoldsOk;
    assert GuardOk(w.sh, w.guards[id]);
    PerformKeepsWait(w.sh, w.guards[id], a);
    WaitsStayApart(w, id, Perform(w.sh, w.guards[id], a));
  }

  lemma MoveKeepsWaits(w: World, m: Move)
    requires LocksOk(w) && LanesOk(w) && WaitsOk(w) && CanMove(w, m)
    ensures WaitsOk(After(w, m))
  {
    hide LocksOk, LanesOk;
    match m
    case Tick(_) =>
    case Arrive(id, a) => NewcomerSaysNothing(w, id, a);
    case Act(id, a) => ActKeepsWaits(w, id, a);
  }

  lemma {:induction false} ReachableWaitsIn(capacity: nat, clock: nat, w: World, n: nat)
    requires 1 <= capacity && ReachableIn(capacity, clock, w, n)
    ensures WaitsOk(w)
    decreases n
  {
    hide CanMove, After, WaitsOk, LocksOk, EntriesOk, LanesOk;
    if n > 0 {
      var v :| ReachableIn(capacity, clock, v, n - 1) && Moves(v, w);
      ReachableWaitsIn(capacity, clock, v, n - 1);
      ReachableInIsSound(capacity, clock, v, n - 1);
      var m :| CanMove(v, m) && w == After(v, m);
      MoveKeepsWaits(v, m);
    } else {
      StartHasNoWaits(capacity, clock);
    }
  }

  lemma StartHasNoWaits(capacity: nat, clock: nat)
    ensures WaitsOk(Start(capacity, clock))
  {
  }

  lemma ReachableWaits(w: World)
    requires Reachable(w)
    ensures WaitsOk(w)
  {
    var capacity: nat, clock: nat, n: nat :| 1 <= capacity && ReachableIn(capacity, clock, w, n);
    ReachableWaitsIn(capacity, clock, w, n);
  }

  // --- Background guards ---

  lemma NobodyWaits(w: World)
    requires WaitsOk(w)
    ensures w.sh.waiting == [] <==> forall j :: j in w.guards ==> w.guards[j].waiting.None?
  {
    if w.sh.waiting != [] {
      assert w.sh.waiting[0] in w.sh.waiting;
    }
  }

  lemma NobodyQueues(w: World)
    requires TicketsOk(w)
    ensures w.sh.drains == [] && w.sh.lifelines == [] <==> forall j :: j in w.guards ==> w.guards[j].ticket.None?
  {
    if w.sh.drains != [] {
      assert w.sh.drains[0] in w.sh.drains;
      assert TicketOk(w.sh, w.guards[w.sh.drains[0].name.pid]);
    }
    if w.sh.lifelines != [] {
      assert w.sh.lifelines[0] in w.sh.lifelines;
      assert TicketOk(w.sh, w.guards[w.sh.lifelines[0].name.pid]);
    }
    forall j | j in w.guards && w.guards[j].ticket.Some?
      ensures w.sh.drains != [] || w.sh.lifelines != []
    {
      assert TicketOk(w.sh, w.guards[j]);
    }
  }

  /**
   A background guard tries exactly while no other guard has a ticket or says that it waits, and no guard that runs
   still says so.
   */
  lemma BackgroundHoldsBack(w: World, id: Id)
    requires Reachable(w) && id in w.guards
    ensures CanMove(w, Act(id, Trying)) <==>
              && w.guards[id].lane == Background && w.guards[id].phase == Arrived && w.guards[id].naming.None?
              && forall j :: j in w.guards ==> w.guards[j].ticket.None? && w.guards[j].waiting.None?
    ensures forall j :: j in w.guards && IsPast(w.guards[j].phase) ==> w.guards[j].waiting.None?
  {
    hide Reachable, MyTurn, WaitsOk, TicketsOk;
    ReachableWaits(w);
    ReachableHasTickets(w);
    NobodyWaits(w);
    NobodyQueues(w);
    forall j | j in w.guards && IsPast(w.guards[j].phase)
      ensures w.guards[j].waiting.None?
    {
      PastSaysNothing(w, j);
    }
    if w.guards[id].lane == Background {
      BackgroundHasNone(w, id);
      BackgroundTurn(w, id);
    }
  }

  lemma PastSaysNothing(w: World, j: Id)
    requires WaitsOk(w) && j in w.guards && IsPast(w.guards[j].phase)
    ensures w.guards[j].waiting.None?
  {
  }

  lemma BackgroundHasNone(w: World, id: Id)
    requires WaitsOk(w) && id in w.guards && w.guards[id].lane == Background
    ensures w.guards[id].ticket.None? && w.guards[id].waiting.None?
  {
  }

  lemma BackgroundTurn(w: World, id: Id)
    requires TicketsOk(w) && WaitsOk(w) && id in w.guards && w.guards[id].ticket.None? && w.guards[id].waiting.None?
    ensures MyTurn(w.sh, w.guards[id]) <==> w.sh.drains == [] && w.sh.lifelines == []
  {
    if w.sh.drains == [] {
      assert QueuedTickets(w.sh) == w.sh.lifelines;
    } else {
      FirstInQueue(w.sh);
    }
  }

  // --- From the admission to the workload ---

  /**
   An admitted guard starts its workload exactly when the next acquirer may collect, nothing says any more that it
   waits, and, a part, it has said that it runs; its report says if it ran ahead.
   */
  lemma StartsWhenAllIsSaid(w: World, id: Id, path: Path)
    requires Reachable(w) && id in w.guards && w.guards[id].phase == Admitted(path)
    ensures var g, g' := w.guards[id], Next(w, id);
            && (g'.phase == Running <==>
                  && w.sh.locks.queue != Some(id) && w.sh.locks.register != Some(id)
                  && g.ticket.None? && g.waiting.None? && g.inLine.None? && (g.job.sub ==> g.leaf.Some?))
            && (g'.phase == Running ==> (g'.backfilled <==> path.AsBackfill?))
  {
    hide Reachable, LocksOk, EntriesOk, RegistrantsOk, NewName, Withdraw;
    ReachableBooks(w);
    assert LaneOk(w.guards[id]);
    HasItsId(w, id);
  }

  lemma HasItsId(w: World, id: Id)
    requires LocksOk(w) && id in w.guards
    ensures w.guards[id].id == id
  {
  }

  // --- Elastic guards without room ---

  /** Its base and those of the running elastic workloads leave the largest part free. */
  ghost predicate HasRoom(w: World, id: Id)
    requires id in w.guards
  {
    w.guards[id].weight + Sum(Bases(w)) + Slots(w.sh.capacity, PROCESS_MIB) <= w.sh.capacity
  }

  lemma RoomIs(w: World, id: Id)
    requires Reachable(w) && id in w.guards
    ensures HasRoom(w, id) <==> w.guards[id].weight <= ElasticRoom(w.sh)
  {
    hide Reachable, Bases, EntriesOk, RegistrantsOk, LanesOk;
    ElasticIsBases(w);
    ReachableBooks(w);
  }

  /**
   From outside a guard joins the queue exactly if it is not elastic or has room, and, in a lane with tickets, has one.
   */
  lemma JoinsQueueExactly(w: World, id: Id)
    requires Reachable(w) && id in w.guards && w.guards[id].phase == Outside && w.guards[id].naming.None?
    ensures Next(w, id).phase == Queueing <==>
              && (w.guards[id].job.elastic ==> HasRoom(w, id))
              && (w.guards[id].lane == Normal || w.guards[id].ticket.Some?)
  {
    hide Reachable, HasRoom, ElasticRoom, Withdraw, NewName;
    RoomIs(w, id);
  }

  /**
   An elastic guard without room gives up its ticket, then its waiting entry and its place in line, and stays
   outside: it holds up nobody.
   */
  lemma NoRoomHoldsUpNobody(w: World, id: Id)
    requires Reachable(w) && id in w.guards && w.guards[id].phase == Outside && w.guards[id].naming.None?
    requires w.guards[id].job.elastic && !HasRoom(w, id)
    ensures var g, g' := w.guards[id], Next(w, id);
            && g'.phase == Outside && g'.ticket.None? && g'.naming.None?
            && (g.ticket.None? ==> g'.waiting.None? && g'.inLine.None?)
  {
    hide Reachable, HasRoom, ElasticRoom, Withdraw;
    RoomIs(w, id);
  }
}
