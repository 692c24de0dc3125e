/**
 Which normal guard takes the free queue: the one whose place in line is the oldest among those that keep looking
 for their turn.
 */
module Lineup {
  import opened Wrappers
  import opened Registries
  import opened Charge
  import opened Machine
  import opened Worlds
  import opened LockBooks
  import opened Phases

  // --- Whose place is whose ---

  ghost predicate IsListed(line: seq<Entry<nat>>, n: Name) {
    exists e :: e in line && e.name == n
  }

  ghost predicate PlaceOk(line: seq<Entry<nat>>, g: Guard) {
    && (g.inLine.Some? ==> g.inLine.value.pid == g.id && IsListed(line, g.inLine.value))
    && (forall e :: e in line && e.name.pid == g.id ==> g.inLine == Some(e.name))
  }

  /** Every guard in line has one entry, under its own name, and every entry is such a guard's. */
  ghost predicate PlacesOk(w: World) {
    && Sorted(w.sh.line)
    && (forall e :: e in w.sh.line ==> e.name.pid in w.guards)
    && (forall i :: i in w.guards ==> w.guards[i].id == i && PlaceOk(w.sh.line, w.guards[i]))
  }

  // --- One guard's step ---

  ghost predicate LineFrame(r: seq<Entry<nat>>, r': seq<Entry<nat>>, id: Id) {
    && (forall e :: e in r && e.name.pid != id ==> e in r')
    && (forall e :: e in r' && e.name.pid != id ==> e in r)
  }

  /** Its place: the one it has, or the one it gets now. */
  function Place(sh: Shared, g: Guard): Name {
    if g.inLine.Some? then g.inLine.value else NewName(sh, g)
  }

  /** It looks whether it may take the queue. */
  predicate Looks(g: Guard) {
    g.phase == Queueing && g.naming.None? && g.ticket.None?
  }

  predicate IsUp(sh: Shared, g: Guard) {
    MyTurn(sh, g) || sh.drains != []
  }

  ghost predicate SameLine(sh: Shared, g: Guard, b: Both) {
    b.sh.line == sh.line && b.g.inLine == g.inLine
  }

  ghost predicate LeavesLine(sh: Shared, g: Guard, b: Both) {
    b.sh.line == Withdraw(sh.line, g.inLine) && b.g.inLine.None?
  }

  ghost predicate LinesUp(sh: Shared, g: Guard, b: Both) {
    && b.sh.line == Publish(Unlink(sh.line, Place(sh, g)), Entry(Place(sh, g), if IsUp(sh, g) then sh.clock else 0))
    && b.g.inLine == Some(Place(sh, g))
  }

  lemma InsideAndLine(sh: Shared, g: Guard)
    requires g.naming.None? && Inside(g.phase)
    ensures SameLine(sh, g, Advance(sh, g)) || LeavesLine(sh, g, Advance(sh, g))
  {
    hide MyTurn, NewName, Withdraw, Reserve, Goal, GiveBack, HoldsLock, LetCollect, ElasticRoom, WithinBound, Excess;
  }

  lemma LookingLinesUp(sh: Shared, g: Guard)
    requires Looks(g)
    ensures LinesUp(sh, g, Advance(sh, g))
  {
    hide MyTurn, FirstInLine, Publish, Unlink;
  }

  lemma RestAndLine(sh: Shared, g: Guard)
    requires g.naming.Some? || !Inside(g.phase)
    requires !Looks(g)
    ensures SameLine(sh, g, Advance(sh, g)) || LeavesLine(sh, g, Advance(sh, g))
  {
    hide MyTurn, FirstInLine, NewName, Withdraw, WorkspaceOf, CloseLocks, ElasticRoom;
  }

  lemma PerformAndLine(sh: Shared, g: Guard, a: Action)
    requires Enabled(sh, g, a)
    ensures var b := Perform(sh, g, a);
            if a.Advancing? && Looks(g) then LinesUp(sh, g, b) else SameLine(sh, g, b) || LeavesLine(sh, g, b)
    ensures Perform(sh, g, a).sh.clock == sh.clock
  {
    SameClock(sh, g, a);
    hide Advance, SameLine, LeavesLine, LinesUp;
    if a.Advancing? {
      if Looks(g) {
        LookingLinesUp(sh, g);
      } else if g.naming.None? && Inside(g.phase) {
        InsideAndLine(sh, g);
      } else {
        RestAndLine(sh, g);
      }
    } else {
      OtherActionsAndLine(sh, g, a);
    }
  }

  lemma OtherActionsAndLine(sh: Shared, g: Guard, a: Action)
    requires Enabled(sh, g, a) && !a.Advancing?
    ensures SameLine(sh, g, Perform(sh, g, a)) || LeavesLine(sh, g, Perform(sh, g, a))
  {
    hide Advance, MyTurn, NewName, Withdraw, CloseLocks, Unmet, LargestNeed;
  }

  lemma StepKeepsPlace(sh: Shared, g: Guard, b: Both)
    requires Sorted(sh.line) && PlaceOk(sh.line, g) && b.g.id == g.id
    requires SameLine(sh, g, b) || LeavesLine(sh, g, b) || LinesUp(sh, g, b)
    ensures Sorted(b.sh.line) && PlaceOk(b.sh.line, b.g) && LineFrame(sh.line, b.sh.line, g.id)
  {
    hide Sorted, MyTurn;
    if LinesUp(sh, g, b) {
      LineUpAdds(sh, g, Entry(Place(sh, g), if IsUp(sh, g) then sh.clock else 0));
    } else if g.inLine.Some? {
      UnlinkRemoves(sh.line, g.inLine.value);
    }
  }

  lemma LineUpAdds(sh: Shared, g: Guard, e: Entry<nat>)
    requires Sorted(sh.line) && PlaceOk(sh.line, g) && e.name == Place(sh, g)
    ensures var r := Publish(Unlink(sh.line, e.name), e);
            && Sorted(r) && e in r && (forall x :: x in r ==> x == e || (x in sh.line && x.name != e.name))
            && (forall x :: x in sh.line && x.name != e.name ==> x in r)
            && e.name.pid == g.id
  {
    UnlinkRemoves(sh.line, e.name);
    PublishAdds(Unlink(sh.line, e.name), e);
  }

  // --- Every move ---

  lemma ActKeepsPlaces(w: World, id: Id, a: Action)
    requires PlacesOk(w) && CanMove(w, Act(id, a)) && Perform(w.sh, w.guards[id], a).g.id == id
    ensures PlacesOk(After(w, Act(id, a)))
  {
    var g, b := w.guards[id], Perform(w.sh, w.guards[id], a);
    PerformAndLine(w.sh, g, a);
    StepKeepsPlace(w.sh, g, b);
    hide Perform, Enabled, Sorted, LinesUp, SameLine, LeavesLine;
    forall e | e in b.sh.line
      ensures e.name.pid in w.guards[id := b.g]
    {
      assert e.name.pid != id ==> e in w.sh.line;
    }
    forall i | i in w.guards && i != id
      ensures PlaceOk(b.sh.line, w.guards[i])
    {
      OthersKeepPlace(w.sh.line, b.sh.line, id, w.guards[i]);
    }
  }

  lemma OthersKeepPlace(r: seq<Entry<nat>>, r': seq<Entry<nat>>, id: Id, g: Guard)
    requires PlaceOk(r, g) && LineFrame(r, r', id) && g.id != id
    ensures PlaceOk(r', g)
  {
  }

  lemma NewcomerHasNoPlace(w: World, id: Id, a: Args)
    requires PlacesOk(w) && id !in w.guards
    ensures PlacesOk(World(w.sh, w.guards[id := Newcomer(w.sh.capacity, id, a)]))
  {
    hide Declared, Planned, LaneOf, Sorted;
    forall e | e in w.sh.line
      ensures e.name.pid != id
    {
    }
  }

  lemma PerformKeepsId(sh: Shared, g: Guard, a: Action)
    requires Enabled(sh, g, a)
    ensures Perform(sh, g, a).g.id == g.id
  {
    hide Advance, MyTurn, NewName, Withdraw, CloseLocks, Unmet, LargestNeed;
    if a.Advancing? {
      AdvanceKeepsJob(sh, g);
    }
  }

  lemma MoveKeepsPlaces(w: World, m: Move)
    requires PlacesOk(w) && CanMove(w, m)
    ensures PlacesOk(After(w, m))
  {
    match m
    case Tick(_) =>
    case Arrive(id, a) => NewcomerHasNoPlace(w, id, a);
    case Act(id, a) =>
      PerformKeepsId(w.sh, w.guards[id], a);
      ActKeepsPlaces(w, id, a);
  }

  lemma {:induction false} ReachablePlacesIn(capacity: nat, clock: nat, w: World, n: nat)
    requires ReachableIn(capacity, clock, w, n)
    ensures PlacesOk(w)
    decreases n
  {
    hide CanMove, After, PlacesOk;
    if n > 0 {
      var v :| ReachableIn(capacity, clock, v, n - 1) && Moves(v, w);
      ReachablePlacesIn(capacity, clock, v, n - 1);
      var m :| CanMove(v, m) && w == After(v, m);
      MoveKeepsPlaces(v, m);
    } else {
      StartHasNoLine(capacity, clock);
    }
  }

  lemma StartHasNoLine(capacity: nat, clock: nat)
    ensures PlacesOk(Start(capacity, clock))
  {
  }

  lemma ReachablePlaces(w: World)
    requires Reachable(w)
    ensures PlacesOk(w)
  {
    var capacity: nat, clock: nat, n: nat :| 1 <= capacity && ReachableIn(capacity, clock, w, n);
    ReachablePlacesIn(capacity, clock, w, n);
  }

  // --- Who takes the queue ---

  /** Guard j has an older place than `mine`, and its entry was refreshed less than three seconds ago. */
  ghost predicate IsAhead(w: World, j: Id, mine: Name) {
    && j in w.guards && w.guards[j].inLine.Some? && Before(w.guards[j].inLine.value, mine)
    && exists e :: e in w.sh.line && e.name == w.guards[j].inLine.value && w.sh.clock - e.value < 3_000_000_000
  }

  /**
   A guard without a ticket goes for the queue exactly if it has its turn and no guard with an older place in line
   has looked for its own within three seconds.
   */
  lemma GoesForQueueExactly(w: World, id: Id)
    requires Reachable(w) && id in w.guards && Looks(w.guards[id])
    ensures After(w, Act(id, Advancing)).guards[id].phase == SawTurn
            <==> MyTurn(w.sh, w.guards[id]) && forall j :: j in w.guards ==> !IsAhead(w, j, Place(w.sh, w.guards[id]))
  {
    hide Reachable, After, PlacesOk, IsAhead, MyTurn, Place;
    ReachablePlaces(w);
    GoesIfNobodyAhead(w, id);
  }

  lemma GoesIfNobodyAhead(w: World, id: Id)
    requires PlacesOk(w) && id in w.guards && Looks(w.guards[id])
    ensures After(w, Act(id, Advancing)).guards[id].phase == SawTurn
            <==> MyTurn(w.sh, w.guards[id]) && forall j :: j in w.guards ==> !IsAhead(w, j, Place(w.sh, w.guards[id]))
  {
    hide MyTurn, Advance;
    var g, mine := w.guards[id], Place(w.sh, w.guards[id]);
    var own := Entry(mine, if IsUp(w.sh, g) then w.sh.clock else 0);
    var r := Publish(Unlink(w.sh.line, mine), own);
    LineUpAdds(w.sh, g, own);
    if FirstInLine(r, mine, w.sh.clock) {
      forall j | j in w.guards
        ensures !IsAhead(w, j, mine)
      {
      }
    }
    if forall j :: j in w.guards ==> !IsAhead(w, j, mine) {
      forall e | e in r && Before(e.name, mine)
        ensures w.sh.clock - e.value >= IN_LINE_FRESH
      {
        assert e in w.sh.line && PlaceOk(w.sh.line, w.guards[e.name.pid]);
        assert !IsAhead(w, e.name.pid, mine);
      }
    }
    LooksOnce(w.sh, g);
  }

  lemma LooksOnce(sh: Shared, g: Guard)
    requires Looks(g)
    ensures var own := Entry(Place(sh, g), if IsUp(sh, g) then sh.clock else 0);
            Advance(sh, g).g.phase
              == if MyTurn(sh, g) && FirstInLine(Publish(Unlink(sh.line, own.name), own), own.name, sh.clock)
                 then SawTurn else Queueing
  {
    hide MyTurn, FirstInLine, Publish, Unlink;
  }

  /** A look out of its turn, with no drain ticket queued, lets everyone behind it pass. */
  lemma OutOfTurnHoldsUpNobody(w: World, id: Id, mine: Name)
    requires Reachable(w) && id in w.guards && Looks(w.guards[id]) && !IsUp(w.sh, w.guards[id])
    requires w.sh.clock >= 3_000_000_000
    ensures !IsAhead(After(w, Act(id, Advancing)), id, mine)
  {
    hide Reachable, IsUp;
    ReachablePlaces(w);
    var g := w.guards[id];
    PerformAndLine(w.sh, g, Advancing);
    LineUpAdds(w.sh, g, Entry(Place(w.sh, g), 0));
    hide Advance;
  }

  /** A guard with a ticket gives up its place in line when it looks. */
  lemma TicketsNeedNoPlace(w: World, id: Id)
    requires Reachable(w) && id in w.guards && w.guards[id].phase == Queueing && w.guards[id].naming.None?
    requires w.guards[id].ticket.Some?
    ensures var v := After(w, Act(id, Advancing));
            && v.guards[id].inLine.None? && (forall e :: e in v.sh.line ==> e.name.pid != id)
            && (v.guards[id].phase == SawTurn <==> MyTurn(w.sh, w.guards[id]))
  {
    hide Reachable, MyTurn;
    ReachablePlaces(w);
    var m := Act(id, Advancing);
    assert CanMove(w, m);
    MoveKeepsPlaces(w, m);
    hide FirstInLine, Publish, Unlink, NewName;
    assert PlaceOk(After(w, m).sh.line, After(w, m).guards[id]);
  }

  // --- Over runs ---

  /** From state k to state m guard i stays in line at place n, and does not look out of its turn. */
  ghost predicate StaysInLine(t: seq<World>, i: Id, n: Name, k: nat, m: nat)
    requires k <= m < |t|
  {
    && (forall x :: k <= x <= m ==> i in t[x].guards && t[x].guards[i].inLine == Some(n))
    && (forall x :: k <= x < m && Looks(t[x].guards[i]) && !IsUp(t[x].sh, t[x].guards[i]) ==>
          t[x + 1] != After(t[x], Act(i, Advancing)))
  }

  ghost predicate RefreshedSince(w: World, n: Name, since: nat) {
    exists e :: e in w.sh.line && e.name == n && e.value >= since
  }

  lemma MoveKeepsRefresh(v: World, w: World, i: Id, n: Name, since: nat)
    requires PlacesOk(v) && Moves(v, w) && i in v.guards && i in w.guards
    requires v.guards[i].inLine == Some(n) && w.guards[i].inLine == Some(n)
    requires RefreshedSince(v, n, since) && since <= v.sh.clock
    requires Looks(v.guards[i]) && !IsUp(v.sh, v.guards[i]) ==> w != After(v, Act(i, Advancing))
    ensures RefreshedSince(w, n, since) && v.sh.clock <= w.sh.clock
  {
    var m :| CanMove(v, m) && w == After(v, m);
    hide IsUp, Sorted;
    if m.Act? {
      var g := v.guards[m.id];
      PerformAndLine(v.sh, g, m.action);
      PerformKeepsId(v.sh, g, m.action);
      var b := Perform(v.sh, g, m.action);
      hide Perform, Enabled;
      StepKeepsPlace(v.sh, g, b);
      if m.id == i && m.action.Advancing? && Looks(g) {
        LineUpAdds(v.sh, g, Entry(n, if IsUp(v.sh, g) then v.sh.clock else 0));
        assert Entry(n, v.sh.clock) in w.sh.line;
      } else if m.id != i {
        assert PlaceOk(v.sh.line, v.guards[i]);
      }
    }
  }

  lemma {:induction false} StaysRefreshed(t: seq<World>, i: Id, n: Name, k: nat, m: nat, since: nat)
    requires IsRun(t) && k <= m < |t| && PlacesOk(t[k]) && StaysInLine(t, i, n, k, m)
    requires RefreshedSince(t[k], n, since) && since <= t[k].sh.clock
    ensures RefreshedSince(t[m], n, since) && since <= t[m].sh.clock && PlacesOk(t[m])
    decreases m - k
  {
    hide After, PlacesOk, IsUp, RefreshedSince, CanMove;
    if k < m {
      assert Moves(t[k], t[k + 1]);
      MoveKeepsRefresh(t[k], t[k + 1], i, n, since);
      var move :| CanMove(t[k], move) && t[k + 1] == After(t[k], move);
      MoveKeepsPlaces(t[k], move);
      StaysRefreshed(t, i, n, k + 1, m, since);
    }
  }

  lemma LookRefreshes(v: World, i: Id, n: Name)
    requires PlacesOk(v) && i in v.guards && Looks(v.guards[i]) && IsUp(v.sh, v.guards[i])
    requires After(v, Act(i, Advancing)).guards[i].inLine == Some(n)
    ensures RefreshedSince(After(v, Act(i, Advancing)), n, v.sh.clock)
    ensures After(v, Act(i, Advancing)).sh.clock == v.sh.clock
  {
    hide IsUp, Sorted;
    var g := v.guards[i];
    PerformAndLine(v.sh, g, Advancing);
    LineUpAdds(v.sh, g, Entry(n, v.sh.clock));
    hide Advance;
  }

  /**
   Normal guards take the queue in the order of their places: while guard i stays in line and has looked for its
   turn, in it or behind a drain ticket, less than three seconds ago, no guard with a later place goes for the queue.
   */
  lemma LaterPlacesWait(t: seq<World>, i: Id, j: Id, n: Name, k: nat, m: nat)
    requires IsRun(t) && k < m < |t| && Reachable(t[k])
    requires i in t[k].guards && Looks(t[k].guards[i]) && IsUp(t[k].sh, t[k].guards[i])
    requires t[k + 1] == After(t[k], Act(i, Advancing)) && StaysInLine(t, i, n, k + 1, m)
    requires t[m].sh.clock - t[k].sh.clock < 3_000_000_000
    requires j in t[m].guards && Looks(t[m].guards[j]) && Before(n, Place(t[m].sh, t[m].guards[j]))
    ensures After(t[m], Act(j, Advancing)).guards[j].phase != SawTurn
  {
    hide Reachable, MyTurn, IsRun, After, PlacesOk, Looks, IsUp, Place, CanMove;
    ReachablePlaces(t[k]);
    LookRefreshes(t[k], i, n);
    MayAdvance(t[k], i);
    MoveKeepsPlaces(t[k], Act(i, Advancing));
    StaysRefreshed(t, i, n, k + 1, m, t[k].sh.clock);
    assert IsAhead(t[m], i, Place(t[m].sh, t[m].guards[j]));
    GoesIfNobodyAhead(t[m], j);
  }

  lemma MayAdvance(w: World, i: Id)
    requires i in w.guards
    ensures CanMove(w, Act(i, Advancing))
  {
  }
}
