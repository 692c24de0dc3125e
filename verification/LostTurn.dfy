/**
 A run after which a guard leads beside a waiting lifeline and still cannot be admitted: it is charged one slot of
 the twenty it declares, over the bound it falls back to all of them, and those do not fit beside the elastic base.
 */
module LostTurn {
  import opened Wrappers
  import opened Registries
  import opened Charge
  import opened Machine
  import opened Worlds
  import opened Scans
  import opened Turns
  import opened Lineup
  import opened Progress

  // --- Three guards of one budget of twenty slots ---

  /** An elastic workload with a base of nine slots. */
  function Base(): Args {
    Args(false, true, false, false, Normal, 9216.0, 0.0, [], 1, false, 0, 0)
  }

  const MEASURED := Run(Success, 0, true, 1.0)

  /** A normal workload that declares the whole budget and has always used one slot of it. */
  function Modest(): Args {
    Args(false, false, false, false, Normal, 20480.0, 0.0, [MEASURED, MEASURED], 2, false, 0, 0)
  }

  /** A part of the elastic workload. */
  function Part(): Args {
    Args(false, false, true, false, Normal, 1024.0, 1024.0, [], 3, false, 0, 1)
  }

  lemma SlotsOf(mib: real, n: nat)
    requires 1 <= n <= 20 && (n as real - 1.0) * SLOT_MIB < mib <= n as real * SLOT_MIB
    ensures Slots(20, mib) == n
  {
    CeilBounds(mib / SLOT_MIB);
    assert (mib / SLOT_MIB) * SLOT_MIB == mib;
  }

  lemma ModestIsChargedOne()
    ensures HistoryCharge(Modest().runs, 20480.0) == 1024.0
  {
    var runs := Modest().runs;
    assert Recent(runs) == runs;
    assert Peaks(runs[1..]) == [1.0] by {
      assert runs[1..] == [MEASURED] && runs[1..][1..] == [];
    }
    assert Peaks(runs) == [1.0, 1.0];
    assert Largest([1.0, 1.0]) == 1.0;
    CeilBounds(CHARGE_MARGIN * 1.0);
  }

  lemma WhatTheyAskFor()
    ensures Slots(20, PROCESS_MIB) == 11
    ensures Acceptable(20, Base()) && Planned(20, Base()) == Declared(20, Base()) == 9
    ensures Acceptable(20, Modest()) && Planned(20, Modest()) == 1 && Declared(20, Modest()) == 20
    ensures Acceptable(20, Part()) && Planned(20, Part()) == Declared(20, Part()) == 1
  {
    SlotsOf(PROCESS_MIB, 11);
    SlotsOf(9216.0, 9);
    SlotsOf(20480.0, 20);
    SlotsOf(1024.0, 1);
    ModestIsChargedOne();
  }

  // --- The elastic workload comes to run ---

  const SH0 := Start(20, 0).sh.(part := 11)

  /** The base as it arrives, with no one else there. */
  function Arriving(): Both {
    Both(SH0, Guard(1, Base(), 9, Arrived, Normal, 9, [], 0, None, None, None, None, None, None, Reservation(0, 0),
                    None, None, None, 0, false))
  }

  const OWNED := map[1 := RwLock({}, Some(1))]
  const PLACE := Name(0, 1, 0)

  /** In its turn, with its place in line. */
  function InTurn(): Both {
    var a := Arriving();
    Both(SH0.(locks := SH0.locks.(workspaces := OWNED), line := [Entry(PLACE, 0)]),
         a.g.(phase := SawTurn, inLine := Some(PLACE), serial := 1))
  }

  lemma ComesInTurn()
    ensures Leads(Arriving(), InTurn())
  {
    var a := Arriving();
    var b := Advance(a.sh, a.g);
    LeadsByOne(a);
    assert b == Both(SH0.(locks := SH0.locks.(workspaces := OWNED)), a.g.(phase := Outside));
    var c := Advance(b.sh, b.g);
    LeadsByOne(b);
    assert c == Both(b.sh, b.g.(phase := Queueing));
    LeadsByOne(c);
    assert Unlink(c.sh.line, PLACE) == [];
    assert Advance(c.sh, c.g) == InTurn();
    LeadsOn(a, b, c);
    LeadsOn(a, c, InTurn());
  }

  /** Scanning as the head. */
  function AsTheHead(): Both {
    var a := InTurn();
    Both(a.sh.(locks := a.sh.locks.(queue := Some(1), main := RwLock({1}, None))), a.g.(phase := Scanning(AsHead, 0)))
  }

  lemma ComesToScan()
    ensures Leads(InTurn(), AsTheHead())
  {
    var a := InTurn();
    var b := Advance(a.sh, a.g);
    LeadsByOne(a);
    assert b == Both(a.sh.(locks := a.sh.locks.(queue := Some(1))), a.g.(phase := TakingMain(AsHead)));
    var c := Advance(b.sh, b.g);
    LeadsByOne(b);
    assert c == Both(b.sh.(locks := b.sh.locks.(main := RwLock({1}, None))), b.g.(phase := Deciding));
    LeadsByOne(c);
    assert QueuedTickets(c.sh) == [];
    assert Advance(c.sh, c.g) == AsTheHead();
    LeadsOn(a, b, c);
    LeadsOn(a, c, AsTheHead());
  }

  /** Nine slots in hand and `register` taken. */
  ghost predicate IsJudged(b: Both) {
    var a := AsTheHead();
    && b.sh == a.sh.(locks := a.sh.locks.(slots := b.sh.locks.slots, register := Some(1)))
    && b.g == a.g.(held := b.g.held, phase := Judging(AsHead))
    && forall k :: k in b.sh.locks.slots ==> b.sh.locks.slots[k] == 1
  }

  lemma ScansNine() returns (c: Both)
    ensures Leads(AsTheHead(), c) && |c.g.held| == 9 && forall k :: k in c.sh.locks.slots ==> c.sh.locks.slots[k] == 1
    ensures var a := AsTheHead();
            c == Both(a.sh.(locks := a.sh.locks.(slots := c.sh.locks.slots)),
                a.g.(held := c.g.held, phase := Scanning(AsHead, 20)))
  {
    hide FreeSlots, ScanFrom, Solo;
    var a := AsTheHead();
    FreeIsTheRest(a.sh.locks.slots, 20);
    SoloScan(a.sh, a.g, AsHead, 0);
    ScanCollects(map[], 1, [], 9, 0, 20);
    ScanTakesOnlyFree(map[], 1, [], 9, 0, 20);
    var h := ScanFrom(map[], 1, [], 9, 0, 20);
    c := Both(a.sh.(locks := a.sh.locks.(slots := h.slots)), a.g.(held := h.held, phase := Scanning(AsHead, 20)));
    assert Solo(a.sh, a.g, 20) == c;
  }

  lemma ComesToBeJudged() returns (b: Both)
    ensures Leads(AsTheHead(), b) && IsJudged(b)
  {
    var c := ScansNine();
    var d := Advance(c.sh, c.g);
    LeadsByOne(c);
    assert d == Both(c.sh, c.g.(phase := Registering(AsHead)));
    b := Advance(d.sh, d.g);
    LeadsByOne(d);
    LeadsOn(AsTheHead(), c, d);
    LeadsOn(AsTheHead(), d, b);
  }

  const BASE: Entry<nat> := Entry(Name(0, 1, 1), 9)

  /** It runs: its base is registered, its locks are the workspace, `<lock>` and its slots. */
  ghost predicate IsRunningAlone(sh: Shared, g: Guard) {
    && sh == SH0.(locks := SH0.locks.(workspaces := OWNED, main := RwLock({1}, None), slots := sh.locks.slots),
        elastic := [BASE])
    && g.id == 1 && g.phase == Running && g.job == Base()
    && forall k :: k in sh.locks.slots ==> sh.locks.slots[k] == 1
  }

  lemma Registers(a: Both) returns (b: Both)
    requires IsJudged(a)
    ensures Leads(a, b)
    ensures b == Both(a.sh.(elastic := [BASE]), a.g.(base := Some(BASE.name), serial := 2, phase := Admitted(AsHead)))
  {
    var c := Advance(a.sh, a.g);
    LeadsByOne(a);
    assert c == Both(a.sh, a.g.(phase := Publishing(AsHead)));
    b := Advance(c.sh, c.g);
    LeadsByOne(c);
    assert Publish(c.sh.elastic, BASE) == [BASE];
    LeadsOn(a, c, b);
  }

  lemma SettlesDown(a: Both, d: Both) returns (b: Both)
    requires IsJudged(d) && a == Both(d.sh.(elastic := [BASE]),
        d.g.(base := Some(BASE.name), serial := 2, phase := Admitted(AsHead)))
    ensures Leads(a, b) && IsRunningAlone(b.sh, b.g)
  {
    var c := Advance(a.sh, a.g);
    LeadsByOne(a);
    assert c == Both(a.sh.(locks := a.sh.locks.(queue := None, register := None)), a.g);
    var e := Advance(c.sh, c.g);
    LeadsByOne(c);
    assert Unlink([Entry(PLACE, 0)], PLACE) == [];
    assert e == Both(c.sh.(line := []), c.g.(inLine := None));
    b := Advance(e.sh, e.g);
    LeadsByOne(e);
    LeadsOn(a, c, e);
    LeadsOn(a, e, b);
  }

  lemma BaseComesToRun() returns (b: Both)
    ensures Leads(Arriving(), b) && IsRunningAlone(b.sh, b.g)
  {
    ComesInTurn();
    ComesToScan();
    var c := ComesToBeJudged();
    var d := Registers(c);
    b := SettlesDown(d, c);
    hide *;
    LeadsOn(Arriving(), InTurn(), AsTheHead());
    LeadsOn(Arriving(), AsTheHead(), c);
    LeadsOn(Arriving(), c, d);
    LeadsOn(Arriving(), d, b);
  }

  // --- The modest guard waits, then a part takes its workload's lifeline ---

  lemma FirstArrives() returns (w: World)
    ensures Reachable(w) && w == World(SH0, map[1 := Arriving().g])
  {
    WhatTheyAskFor();
    var w0 := Start(20, 0);
    assert ReachableIn(20, 0, w0, 0);
    w := OneMore(w0, Arrive(1, Base()));
    assert w.guards == map[1 := Arriving().g];
  }

  lemma OneMore(w: World, m: Move) returns (v: World)
    requires Reachable(w) && CanMove(w, m)
    ensures Reachable(v) && v == After(w, m)
  {
    var capacity: nat, clock: nat, n: nat :| 1 <= capacity && ReachableIn(capacity, clock, w, n);
    hide ReachableIn, After, CanMove;
    OneMoreMove(capacity, clock, w, n, m);
    v := After(w, m);
  }

  lemma FirstRuns() returns (w: World)
    ensures Reachable(w) && w.guards.Keys == {1} && IsRunningAlone(w.sh, w.guards[1])
  {
    var u := FirstArrives();
    var b := BaseComesToRun();
    hide Reachable, Leads, IsRunningAlone;
    w := WhereItLeads(u, 1, b);
  }

  /** The modest guard with this much done. */
  function Second(phase: Phase, waiting: Option<Name>, serial: nat): Guard {
    Guard(2, Modest(), 20, phase, Normal, 1, [], serial, None, None, waiting, None, None, None, Reservation(0, 0),
          None, None, None, 0, false)
  }

  const WAITS := Name(0, 2, 0)
  const BOTH := map[1 := RwLock({}, Some(1)), 2 := RwLock({}, Some(2))]

  lemma SecondArrives(w: World) returns (v: World)
    requires Reachable(w) && w.guards.Keys == {1} && IsRunningAlone(w.sh, w.guards[1])
    ensures Reachable(v) && v.sh == w.sh && v.guards == map[1 := w.guards[1], 2 := Second(Arrived, None, 0)]
  {
    WhatTheyAskFor();
    v := OneMore(w, Arrive(2, Modest()));
  }

  lemma SecondQueues(w: World) returns (v: World)
    requires Reachable(w) && w.guards.Keys == {1, 2} && IsRunningAlone(w.sh, w.guards[1])
        && w.guards[2] == Second(Arrived, None, 0)
    ensures Reachable(v) && v.sh == w.sh.(locks := w.sh.locks.(workspaces := BOTH))
    ensures v.guards == w.guards[2 := Second(Queueing, None, 0)]
  {
    var a := Both(w.sh, w.guards[2]);
    var b := Advance(a.sh, a.g);
    LeadsByOne(a);
    assert b == Both(a.sh.(locks := a.sh.locks.(workspaces := BOTH)), Second(Outside, None, 0));
    var c := Advance(b.sh, b.g);
    LeadsByOne(b);
    assert c == Both(b.sh, Second(Queueing, None, 0));
    LeadsOn(a, b, c);
    hide Reachable, Leads, Advance;
    v := WhereItLeads(w, 2, c);
  }

  lemma SecondWaits(w: World) returns (v: World)
    requires Reachable(w) && w.guards.Keys == {1, 2} && w.guards[2] == Second(Queueing, None, 0)
    requires w.sh.clock == 0 && w.sh.waiting == []
    ensures Reachable(v) && v.sh == w.sh.(waiting := [Entry(WAITS, true)])
    ensures v.guards == w.guards[2 := Second(Queueing, Some(WAITS), 1)]
  {
    assert CanMove(w, Act(2, Waiting));
    v := OneMore(w, Act(2, Waiting));
  }

  const LIFELINE := Name(0, 3, 0)

  lemma ThirdTakesLifeline(w: World) returns (v: World)
    requires Reachable(w) && w.guards.Keys == {1, 2} && w.sh.capacity == 20 && w.sh.clock == 0
    requires w.sh.locks.lifelines == map[] && w.sh.leaves == [] && w.sh.lifelines == [] && w.sh.drains == []
    ensures Reachable(v) && v.guards.Keys == {1, 2, 3} && v.guards[1] == w.guards[1] && v.guards[2] == w.guards[2]
    ensures v.sh == w.sh.(locks := w.sh.locks.(lifelines := map[1 := 3]), lifelines := [Entry(LIFELINE, Leaf)])
  {
    WhatTheyAskFor();
    var u := OneMore(w, Arrive(3, Part()));
    assert CanMove(u, Act(3, Lifeline));
    var x := OneMore(u, Act(3, Lifeline));
    assert x.sh == w.sh.(locks := w.sh.locks.(lifelines := map[1 := 3]));
    assert x.guards[3].naming == Some(LIFELINE) && x.guards[3].lane == Leaf;
    v := OneMore(x, Act(3, Advancing));
    assert Publish(w.sh.lifelines, Entry(LIFELINE, Leaf)) == [Entry(LIFELINE, Leaf)];
  }

  /** All that the leader's turn depends on. */
  ghost predicate IsSet(w: World) {
    && Reachable(w) && w.guards.Keys == {1, 2, 3} && w.guards[2] == Second(Queueing, Some(WAITS), 1)
    && w.guards[1].phase == Running && w.guards[1].job == Base()
    && (forall k :: k in w.sh.locks.slots ==> w.sh.locks.slots[k] == 1)
    && w.sh.capacity == 20 && w.sh.part == 11 && w.sh.clock == 0 && w.sh.drains == [] && w.sh.line == []
    && w.sh.elastic == [BASE]
    && w.sh.lifelines == [Entry(LIFELINE, Leaf)] && w.sh.locks.queue.None? && w.sh.locks.register.None?
    && w.sh.locks.main.writer.None?
  }

  lemma SetUp() returns (w: World)
    ensures IsSet(w)
  {
    var u := FirstRuns();
    var x := SecondArrives(u);
    var y := SecondQueues(x);
    var z := SecondWaits(y);
    hide Reachable;
    w := ThirdTakesLifeline(z);
  }

  lemma SecondLeads(w: World)
    requires IsSet(w)
    ensures LeadsTheLane(w, 2) && !Admissible(w.sh, w.guards[2])
  {
    hide Reachable;
    assert QueuedTickets(w.sh) == [Entry(LIFELINE, Leaf)];
    assert Total(w.sh.elastic) == 9 by {
      assert w.sh.elastic[1..] == [];
    }
    assert forall j :: j in w.guards ==> !IsAhead(w, j, Place(w.sh, w.guards[2]));
  }

  /** A leader that is not admissible, on a run that gets there. */
  lemma LeadersCanLoseTheirTurn() returns (w: World, id: Id)
    ensures LeadsTheLane(w, id) && !Admissible(w.sh, w.guards[id])
  {
    w := SetUp();
    id := 2;
    SecondLeads(w);
  }
}
