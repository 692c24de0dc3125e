/**
 No deadlock among elastic workloads: while only their bases and the queue holder hold slots, whoever leads beside
 the waiting lifelines is admitted by its own steps, or gives everything back and lets a lifeline lead.
 */
module Progress {
  import opened Wrappers
  import opened Registries
  import opened Machine
  import opened Worlds
  import opened LockBooks
  import opened Bounds
  import opened Phases
  import opened Safety
  import opened Turns
  import opened Scans
  import opened Lineup

  // --- The slots the elastic bases leave ---

  /** Every slot but those of guard h is held by an admitted elastic workload. */
  ghost predicate OnlyElasticBeside(w: World, h: Id) {
    forall k :: k in w.sh.locks.slots && w.sh.locks.slots[k] != h ==>
      var i := w.sh.locks.slots[k];
      i in w.guards && Standing(w.guards[i].phase) && w.guards[i].job.elastic
  }

  ghost predicate BaseIn(w: World, i: Id, r: seq<Entry<nat>>) {
    && i in w.guards && Standing(w.guards[i].phase) && w.guards[i].job.elastic
    && w.guards[i].base.Some? && Entry(w.guards[i].base.value, |w.guards[i].held|) in r
  }

  /** One elastic workload's slots, against the entry that answers for them. */
  lemma OneBase(w: World, i: Id, r: seq<Entry<nat>>) returns (r': seq<Entry<nat>>)
    requires LocksOk(w) && EntriesOk(w) && Sorted(r) && BaseIn(w, i, r)
    ensures Sorted(r') && |SetOf(w.guards[i].held)| + Total(r') <= Total(r)
    ensures forall j :: j != i && BaseIn(w, j, r) ==> BaseIn(w, j, r')
  {
    var g := w.guards[i];
    assert HoldsOk(w.sh.locks, g);
    r' := Unlink(r, g.base.value);
    UnlinkRemoves(r, g.base.value);
    TotalUnlink(r, g.base.value);
    DistinctCount(g.held);
    forall j | j != i && BaseIn(w, j, r)
      ensures BaseIn(w, j, r')
    {
      assert BaseOk(w.sh.elastic, w.guards[i]) && BaseOk(w.sh.elastic, w.guards[j]);
    }
  }

  lemma {:induction false} SlotsWithinBases(w: World, ids: set<Id>, slots: set<nat>, r: seq<Entry<nat>>)
    requires LocksOk(w) && EntriesOk(w) && Sorted(r)
    requires forall i :: i in ids ==> BaseIn(w, i, r)
    requires ids <= w.guards.Keys
    requires forall k :: k in slots ==> k in w.sh.locks.slots && w.sh.locks.slots[k] in ids
    ensures |slots| <= Total(r)
  {
    if ids == {} {
      assert slots == {};
    } else {
      var i :| i in ids;
      var r' := OneBase(w, i, r);
      var mine := SetOf(w.guards[i].held);
      OthersHold(w, i, ids, slots);
      SlotsWithinBases(w, ids - {i}, slots - mine, r');
      UnionCount(slots - mine, mine, slots);
    }
  }

  lemma OthersHold(w: World, i: Id, ids: set<Id>, slots: set<nat>)
    requires LocksOk(w) && i in w.guards
    requires forall k :: k in slots ==> k in w.sh.locks.slots && w.sh.locks.slots[k] in ids
    ensures forall k :: k in slots - SetOf(w.guards[i].held) ==> w.sh.locks.slots[k] in ids - {i}
  {
    assert HoldsOk(w.sh.locks, w.guards[i]);
    assert SlotsOk(w.sh.locks.slots, i, w.guards[i].held);
  }

  lemma UnionCount(a: set<nat>, b: set<nat>, c: set<nat>)
    requires c <= a + b
    ensures |c| <= |a| + |b|
  {
    assert c == c * a + (c - a);
    SubsetCount(c * a, a);
    SubsetCount(c - a, b);
  }

  lemma {:induction false} SubsetCount(a: set<nat>, b: set<nat>)
    requires a <= b
    ensures |a| <= |b|
  {
    if a != {} {
      var x :| x in a;
      SubsetCount(a - {x}, b - {x});
    }
  }

  /** With only elastic workloads and h holding slots, what the bases leave is free or h's. */
  lemma BasesLeaveTheRest(w: World, h: Id)
    requires LocksOk(w) && EntriesOk(w) && OnlyElasticBeside(w, h) && h in w.guards
    ensures FreeSlots(w.sh.locks.slots, 0, w.sh.capacity) + |w.guards[h].held| + Total(w.sh.elastic) >= w.sh.capacity
  {
    var slots := w.sh.locks.slots;
    var mine := SetOf(w.guards[h].held);
    var ids := set k | k in slots && slots[k] != h :: slots[k];
    forall i | i in ids
      ensures BaseIn(w, i, w.sh.elastic)
    {
      var k :| k in slots && slots[k] == i && i != h;
      ElasticBaseIs(w, i);
    }
    HoldsItsOwn(w, h);
    DistinctCount(w.guards[h].held);
    SlotsWithinBases(w, ids, slots.Keys - mine, w.sh.elastic);
    UnionCount(slots.Keys - mine, mine, slots.Keys);
    FreeIsTheRest(slots, w.sh.capacity);
  }

  lemma HoldsItsOwn(w: World, h: Id)
    requires LocksOk(w) && h in w.guards
    ensures Distinct(w.guards[h].held)
    ensures forall k :: k in w.sh.locks.slots && w.sh.locks.slots[k] == h ==> k in w.guards[h].held
    ensures forall k :: k in w.sh.locks.slots ==> k < w.sh.capacity
  {
    assert HoldsOk(w.sh.locks, w.guards[h]) && w.guards[h].id == h;
  }

  lemma ElasticBaseIs(w: World, i: Id)
    requires LocksOk(w) && EntriesOk(w) && i in w.guards && Standing(w.guards[i].phase) && w.guards[i].job.elastic
    ensures BaseIn(w, i, w.sh.elastic)
  {
    AdmittedIsFull(w, i);
    assert WeightOk(w.sh, w.guards[i]);
    assert BaseOk(w.sh.elastic, w.guards[i]) && AccountedFor(w.guards[i]);
  }

  lemma SlotHolderIsElastic(w: World, h: Id, i: Id)
    requires LocksOk(w) && OnlyElasticBeside(w, h) && i in w.guards && i != h
    requires IsAdmitted(w.guards[i].phase) && !w.guards[i].job.exclusive && w.guards[i].weight > 0
    ensures w.guards[i].job.elastic
  {
    var g := w.guards[i];
    AdmittedIsFull(w, i);
    assert HoldsOk(w.sh.locks, g);
    assert g.held[0] in g.held;
  }

  /** And no workload is overcommitted then. */
  lemma NothingOvercommitted(w: World, h: Id)
    requires LocksOk(w) && EntriesOk(w) && OnlyElasticBeside(w, h) && w.sh.locks.main.writer.None?
    requires h in w.guards && !Standing(w.guards[h].phase)
    ensures w.sh.running == []
  {
    if w.sh.running != [] {
      var e := w.sh.running[0];
      assert e in w.sh.running;
      var g := w.guards[e.name.pid];
      assert OwnEntriesOk(w.sh, g) && GuardOk(w.sh, g);
      SlotHolderIsElastic(w, h, e.name.pid);
    }
  }

  // --- A leader on its own ---

  /** What the leader's way depends on and does not change before its admission. */
  ghost predicate Along(a: Both, b: Both) {
    && b.sh.capacity == a.sh.capacity && b.sh.part == a.sh.part
    && b.sh.drains == a.sh.drains && b.sh.lifelines == a.sh.lifelines
    && b.sh.elastic == a.sh.elastic && b.sh.running == a.sh.running
    && b.sh.locks.main.writer == a.sh.locks.main.writer
    && b.g.id == a.g.id && b.g.job == a.g.job && b.g.declared == a.g.declared && b.g.weight == a.g.weight
    && b.g.lane == a.g.lane && b.g.naming == a.g.naming && b.g.ticket == a.g.ticket && b.g.waiting == a.g.waiting
  }

  lemma TurnStays(a: Both, b: Both)
    requires Along(a, b)
    ensures MyTurn(a.sh, a.g) == MyTurn(b.sh, b.g)
  {
    assert QueuedTickets(a.sh) == QueuedTickets(b.sh);
  }

  ghost predicate Clear(t: Locks) {
    t.queue.None? && t.register.None? && t.main.writer.None?
  }

  lemma SeesTurn(a: Both) returns (b: Both)
    requires a.g.phase == Queueing && a.g.naming.None? && Advance(a.sh, a.g).g.phase == SawTurn
    ensures Leads(a, b) && Along(a, b) && b.sh.locks == a.sh.locks && b.g.held == a.g.held && b.g.phase == SawTurn
  {
    b := Advance(a.sh, a.g);
    LeadsByOne(a);
    assert b == StepQueueing(a.sh, a.g);
    hide Advance, MyTurn, FirstInLine, Withdraw, Unlink, Publish, NewName, Leads;
  }

  lemma TakesQueue(a: Both) returns (b: Both)
    requires a.g.phase == SawTurn && a.g.naming.None? && Clear(a.sh.locks) && !a.g.job.exclusive
    ensures Leads(a, b) && Along(a, b) && b.g.phase == Deciding && b.g.held == a.g.held
    ensures b.sh.locks.slots == a.sh.locks.slots && b.sh.locks.register.None? && b.sh.locks.queue == Some(a.g.id)
  {
    var c := Advance(a.sh, a.g);
    LeadsByOne(a);
    assert c == StepSawTurn(a.sh, a.g);
    b := Advance(c.sh, c.g);
    LeadsByOne(c);
    assert b == StepMain(c.sh, c.g, AsHead);
    LeadsOn(a, c, b);
  }

  /** In its turn a head collects all the slots it can, then stands before `register` or trims. */
  lemma Collects(a: Both) returns (b: Both)
    requires a.g.phase == Deciding && a.g.naming.None? && MyTurn(a.sh, a.g) && !a.g.job.exclusive
    requires |a.g.held| <= a.g.weight <= |a.g.held| + FreeSlots(a.sh.locks.slots, 0, a.sh.capacity)
    ensures Leads(a, b) && Along(a, b) && b.g.phase == Registering(AsHead) && |b.g.held| == a.g.weight
    ensures b.sh.locks.register == a.sh.locks.register && b.sh.locks.queue == a.sh.locks.queue
    ensures FreeSlots(b.sh.locks.slots, 0, b.sh.capacity) + |b.g.held|
        == FreeSlots(a.sh.locks.slots, 0, a.sh.capacity) + |a.g.held|
  {
    var c := Advance(a.sh, a.g);
    LeadsByOne(a);
    assert c == Both(a.sh, a.g.(phase := Scanning(AsHead, 0)));
    var d := OneScan(c);
    b := Advance(d.sh, d.g);
    LeadsByOne(d);
    assert b == StepScanning(d.sh, d.g, AsHead, d.sh.capacity);
    LeadsOn(a, c, d);
    LeadsOn(a, d, b);
  }

  /** One scan, with enough slots free. */
  lemma OneScan(c: Both) returns (d: Both)
    requires c.g.phase == Scanning(AsHead, 0) && c.g.naming.None?
    requires |c.g.held| <= c.g.weight <= |c.g.held| + FreeSlots(c.sh.locks.slots, 0, c.sh.capacity)
    ensures Leads(c, d) && |d.g.held| == c.g.weight
    ensures d == Both(c.sh.(locks := c.sh.locks.(slots := d.sh.locks.slots)),
        c.g.(held := d.g.held, phase := Scanning(AsHead, c.sh.capacity)))
    ensures FreeSlots(d.sh.locks.slots, 0, d.sh.capacity) + |d.g.held|
        == FreeSlots(c.sh.locks.slots, 0, c.sh.capacity) + |c.g.held|
  {
    SoloScan(c.sh, c.g, AsHead, 0);
    d := Solo(c.sh, c.g, c.sh.capacity);
    assert Leads(c, d);
    ScanCollects(c.sh.locks.slots, c.g.id, c.g.held, c.g.weight, 0, c.sh.capacity);
    ScanConserves(c.sh.locks.slots, c.g.id, c.g.held, c.g.weight, 0, c.sh.capacity);
  }

  /** What is left between an admission and the workload. */
  function SettleLeft(b: Both): nat {
    (if b.sh.locks.register == Some(b.g.id) || b.sh.locks.queue == Some(b.g.id) then 1 else 0)
    + (if b.g.ticket.Some? then 1 else 0)
    + (if b.g.waiting.Some? || b.g.inLine.Some? then 1 else 0)
    + (if b.g.job.sub && b.g.leaf.None? then 1 else 0)
  }

  lemma {:induction false} Settles(a: Both, path: Path) returns (b: Both)
    requires a.g.phase == Admitted(path) && a.g.naming.None?
    ensures Leads(a, b) && b.g.phase == Running && b.g.held == a.g.held
    decreases SettleLeft(a)
  {
    var c := Advance(a.sh, a.g);
    LeadsByOne(a);
    assert c == Settle(a.sh, a.g, path);
    if SettleLeft(a) == 0 {
      b := c;
    } else {
      b := Settles(c, path);
      LeadsOn(a, c, b);
    }
  }

  lemma Judged(a: Both) returns (b: Both)
    requires a.g.phase == Registering(AsHead) && a.g.naming.None? && a.sh.locks.register.None? && Passes(a.sh, a.g)
    ensures Leads(a, b) && b.g.phase == Running
  {
    var c := Advance(a.sh, a.g);
    LeadsByOne(a);
    assert c == StepRegistering(a.sh, a.g, AsHead);
    var d := Advance(c.sh, c.g);
    LeadsByOne(c);
    assert d == StepJudging(c.sh, c.g, AsHead);
    LeadsOn(a, c, d);
    var e := d;
    if d.g.phase.Publishing? {
      e := Advance(d.sh, d.g);
      LeadsByOne(d);
      assert e == StepPublishing(d.sh, d.g, AsHead);
      LeadsOn(a, d, e);
    }
    b := Settles(e, AsHead);
    LeadsOn(a, e, b);
  }

  /** An overcommitted head over the bound collects its declared slots instead. */
  lemma FallsBack(a: Both) returns (b: Both)
    requires a.g.phase == Registering(AsHead) && a.g.naming.None? && a.sh.locks.register.None?
    requires !a.g.job.elastic && !Passes(a.sh, a.g)
    ensures Leads(a, b) && b.g == a.g.(weight := a.g.declared, phase := Deciding) && b.sh == a.sh
  {
    var c := Advance(a.sh, a.g);
    LeadsByOne(a);
    assert c == StepRegistering(a.sh, a.g, AsHead);
    var d := Advance(c.sh, c.g);
    LeadsByOne(c);
    assert d == StepJudging(c.sh, c.g, AsHead);
    b := Advance(d.sh, d.g);
    LeadsByOne(d);
    LeadsOn(a, c, d);
    LeadsOn(a, d, b);
  }

  /** An elastic head without room leaves the way it came. */
  lemma FindsNoRoom(a: Both) returns (b: Both)
    requires a.g.phase == Registering(AsHead) && a.g.naming.None? && a.sh.locks.register.None?
    requires a.g.job.elastic && !Passes(a.sh, a.g)
    ensures Leads(a, b) && b.g.phase == Undoing(AsHead) && Along(a, b)
  {
    var c := Advance(a.sh, a.g);
    LeadsByOne(a);
    assert c == StepRegistering(a.sh, a.g, AsHead);
    b := Advance(c.sh, c.g);
    LeadsByOne(c);
    assert b == StepJudging(c.sh, c.g, AsHead);
    LeadsOn(a, c, b);
  }

  /** A lost turn ends outside the queue, whatever was collected. */
  lemma {:induction false} GivesUp(a: Both) returns (b: Both)
    requires a.g.phase == Undoing(AsHead) && a.g.naming.None? && a.sh.locks.main.writer.None?
    ensures Leads(a, b) && b.g.phase == Outside && Along(a, b)
    decreases |a.g.held|, HoldsLock(a.sh.locks, a.g.id, a.g.job, AsHead)
  {
    var c := Advance(a.sh, a.g);
    LeadsByOne(a);
    assert c == Undo(a.sh, a.g, AsHead);
    if c.g.phase == Outside {
      b := c;
    } else {
      if HoldsLock(a.sh.locks, a.g.id, a.g.job, AsHead) {
        assert !HoldsLock(c.sh.locks, c.g.id, c.g.job, AsHead);
      }
      b := GivesUp(c);
      LeadsOn(a, c, b);
    }
  }

  // --- Amid the bases ---

  /** The state after `id` alone took n steps. */
  ghost function Alone(w: World, id: Id, n: nat): World
    requires id in w.guards
  {
    var b := Solo(w.sh, w.guards[id], n);
    World(b.sh, w.guards[id := b.g])
  }

  /** What a guard's steps leave of the locks: other guards' slots, and a queue or `register` that another one holds. */
  ghost predicate OwnFrame(t: Locks, t': Locks, id: Id) {
    && (forall k :: k in t'.slots && t'.slots[k] != id ==> k in t.slots && t.slots[k] == t'.slots[k])
    && OneFrame(t.queue, t'.queue, id) && OneFrame(t.register, t'.register, id)
  }

  lemma NoStepAlone(w: World, id: Id)
    requires id in w.guards
    ensures Alone(w, id, 0) == w && OwnFrame(w.sh.locks, w.sh.locks, id)
  {
  }

  /** Its own steps are a run, and keep that frame. */
  lemma {:induction false} AloneIsARun(capacity: nat, clock: nat, w: World, k: nat, id: Id, n: nat)
    requires ReachableIn(capacity, clock, w, k) && id in w.guards && LocksOk(w)
    ensures ReachableIn(capacity, clock, Alone(w, id, n), k + n)
    ensures OwnFrame(w.sh.locks, Alone(w, id, n).sh.locks, id)
    decreases n
  {
    hide LocksOk, Moves, OwnFrame, Alone, After, ReachableIn;
    if n == 0 {
      NoStepAlone(w, id);
    } else {
      var v := OneAlone(w, id);
      OneMoreMove(capacity, clock, w, k, Act(id, Advancing));
      AloneIsARun(capacity, clock, v, k + 1, id, n - 1);
      AloneGoesOn(w, id, n, v);
      FrameOn(w.sh.locks, v.sh.locks, Alone(v, id, n - 1).sh.locks, id);
    }
  }

  lemma FrameOn(t: Locks, u: Locks, v: Locks, id: Id)
    requires OwnFrame(t, u, id) && OwnFrame(u, v, id)
    ensures OwnFrame(t, v, id)
  {
  }

  lemma OneAlone(w: World, id: Id) returns (v: World)
    requires id in w.guards && LocksOk(w)
    ensures v == After(w, Act(id, Advancing)) && id in v.guards && Moves(w, v) && LocksOk(v)
        && OwnFrame(w.sh.locks, v.sh.locks, id)
  {
    v := After(w, Act(id, Advancing));
    assert CanMove(w, Act(id, Advancing));
    MoveKeepsLocks(w, Act(id, Advancing));
    assert GuardOk(w.sh, w.guards[id]) && w.guards[id].id == id;
    PerformKeeps(w.sh, w.guards[id], Advancing);
    hide Advance;
  }

  lemma AloneGoesOn(w: World, id: Id, n: nat, v: World)
    requires id in w.guards && n > 0 && v == After(w, Act(id, Advancing))
    ensures Alone(w, id, n) == Alone(v, id, n - 1)
  {
    hide Advance;
    var c := Alone(v, id, n - 1);
    assert v.guards[id := c.guards[id]] == w.guards[id := c.guards[id]];
  }

  /** Steps of `id` alone lead from w to v. */
  ghost predicate ComesTo(w: World, id: Id, v: World) {
    && id in w.guards && id in v.guards && v.guards == w.guards[id := v.guards[id]]
    && Leads(Both(w.sh, w.guards[id]), Both(v.sh, v.guards[id])) && OwnFrame(w.sh.locks, v.sh.locks, id)
  }

  lemma ComesOn(w: World, id: Id, u: World, v: World)
    requires ComesTo(w, id, u) && ComesTo(u, id, v)
    ensures ComesTo(w, id, v)
  {
    LeadsOn(Both(w.sh, w.guards[id]), Both(u.sh, u.guards[id]), Both(v.sh, v.guards[id]));
    assert u.guards[id := v.guards[id]] == w.guards[id := v.guards[id]];
    FrameOn(w.sh.locks, u.sh.locks, v.sh.locks, id);
  }

  lemma WhereItLeads(w: World, id: Id, b: Both) returns (v: World)
    requires Reachable(w) && id in w.guards && Leads(Both(w.sh, w.guards[id]), b)
    ensures Reachable(v) && ComesTo(w, id, v) && v == World(b.sh, w.guards[id := b.g])
  {
    var n: nat :| Solo(w.sh, w.guards[id], n) == b;
    var capacity: nat, clock: nat, k: nat :| 1 <= capacity && ReachableIn(capacity, clock, w, k);
    ReachableInIsSound(capacity, clock, w, k);
    hide Solo, ReachableIn, LocksOk, EntriesOk, LanesOk;
    AloneIsARun(capacity, clock, w, k, id, n);
    v := Alone(w, id, n);
  }

  ghost predicate LifelineFirst(sh: Shared) {
    QueuedTickets(sh) != [] && IsLifeline(QueuedTickets(sh)[0])
  }

  /**
   A lifeline is the first ticket (no merge ticket is ahead), no exclusive workload runs, only elastic bases and
   this guard hold slots, and no other guard holds the queue or `register`.
   */
  ghost predicate IsAmidBases(w: World, h: Id) {
    && Reachable(w) && h in w.guards && w.guards[h].naming.None? && LifelineFirst(w.sh)
    && w.sh.locks.main.writer.None? && w.sh.locks.queue in {None, Some(h)} && w.sh.locks.register in {None, Some(h)}
    && OnlyElasticBeside(w, h)
  }

  /** What steps from one such state to another leave alone. */
  ghost predicate Calm(a: Both, b: Both) {
    && b.sh.drains == a.sh.drains && b.sh.lifelines == a.sh.lifelines
    && b.sh.locks.main.writer == a.sh.locks.main.writer
    && b.g.naming == a.g.naming
  }

  lemma StaysAmidBases(w: World, h: Id, b: Both) returns (v: World)
    requires IsAmidBases(w, h) && Leads(Both(w.sh, w.guards[h]), b) && Calm(Both(w.sh, w.guards[h]), b)
    ensures IsAmidBases(v, h) && ComesTo(w, h, v) && v == World(b.sh, w.guards[h := b.g])
  {
    v := WhereItLeads(w, h, b);
    hide Reachable, ComesTo;
  }

  /** The facts a head's way starts from. */
  lemma HeadStarts(w: World, h: Id)
    requires IsAmidBases(w, h) && w.guards[h].phase.Deciding? && !w.guards[h].job.exclusive
    ensures var g := w.guards[h];
            && g.id == h && |g.held| <= g.weight <= g.declared && w.sh.running == [] && w.sh.locks.register.None?
            && FreeSlots(w.sh.locks.slots, 0, w.sh.capacity) + |g.held| + Total(w.sh.elastic) >= w.sh.capacity
            && (g.job.sub ==> !g.job.elastic)
  {
    ReachableIsSound(w);
    var g := w.guards[h];
    assert HoldsOk(w.sh.locks, g) && WeightOk(w.sh, g) && g.id == h;
    BasesLeaveTheRest(w, h);
    NothingOvercommitted(w, h);
  }

  lemma TurnFits(w: World, h: Id)
    requires IsAmidBases(w, h) && MyTurn(w.sh, w.guards[h])
    ensures w.guards[h].weight + Total(w.sh.elastic) <= w.sh.capacity
        && (w.guards[h].ticket.Some? ==> w.guards[h].job.sub)
  {
    ReachableIsSound(w);
    var capacity: nat, clock: nat, n: nat :| 1 <= capacity && ReachableIn(capacity, clock, w, n);
    ReachableTickets(capacity, clock, w, n);
    var g := w.guards[h];
    assert WeightOk(w.sh, g) && TicketOk(w.sh, g) && g.id == h;
    if g.ticket.Some? {
      FirstIsQueued(w.sh);
    }
    hide LocksOk;
  }

  lemma FirstIsQueued(sh: Shared)
    requires QueuedTickets(sh) != [] && Lanes(sh.drains, sh.lifelines)
    ensures var e := QueuedTickets(sh)[0]; e in sh.drains || e in sh.lifelines
  {
    QueuedAt(sh.drains, sh.lifelines, FirstExclusive(sh.drains), 0);
  }

  // --- The head in its turn, or without it ---

  /** The guards that leading is enough for, by what they declare and are charged. */
  ghost predicate Admissible(sh: Shared, g: Guard) {
    if g.job.elastic then g.weight <= ElasticRoom(sh)
    else || g.job.sub || g.weight == g.declared
         || 2 * Excess(g) <= sh.capacity || g.declared + Total(sh.elastic) <= sh.capacity
  }

  /** A head about to look at its turn: the start of a round. */
  ghost predicate IsHead(w: World, h: Id) {
    IsAmidBases(w, h) && w.guards[h].phase.Deciding? && !w.guards[h].job.exclusive
  }

  /** In its turn its own steps take the head before `register` with its slots. */
  lemma HeadCollects(w: World, h: Id) returns (b: Both)
    requires IsHead(w, h) && MyTurn(w.sh, w.guards[h])
    ensures var a := Both(w.sh, w.guards[h]);
            && Leads(a, b) && Along(a, b) && b.g.phase == Registering(AsHead) && |b.g.held| == b.g.weight
            && b.sh.locks.register.None?
            && FreeSlots(b.sh.locks.slots, 0, b.sh.capacity) + |b.g.held| + Total(b.sh.elastic) >= b.sh.capacity
  {
    HeadStarts(w, h);
    TurnFits(w, h);
    b := Collects(Both(w.sh, w.guards[h]));
  }

  /**
   Elastic workloads do not deadlock: a waiting head in its turn, its reservation in hand, is admitted by its own
   steps if it is admissible.
   */
  lemma HeadIsAdmitted(w: World, h: Id) returns (v: World)
    requires IsHead(w, h) && MyTurn(w.sh, w.guards[h]) && Admissible(w.sh, w.guards[h])
    ensures Reachable(v) && ComesTo(w, h, v) && v.guards[h].phase == Running
  {
    HeadStarts(w, h);
    TurnFits(w, h);
    var a := Both(w.sh, w.guards[h]);
    var b := HeadCollects(w, h);
    var c := RegistersOrFallsBack(a, b);
    v := WhereItLeads(w, h, c);
  }

  lemma RegistersOrFallsBack(a: Both, b: Both) returns (c: Both)
    requires Leads(a, b) && Along(a, b) && b.g.phase == Registering(AsHead) && |b.g.held| == b.g.weight
    requires a.g.naming.None? && !a.g.job.exclusive && b.sh.locks.register.None? && a.sh.running == []
    requires a.g.weight <= a.g.declared && LifelineFirst(a.sh) && MyTurn(a.sh, a.g) && Admissible(a.sh, a.g)
    requires a.g.ticket.Some? ==> a.g.job.sub
    requires FreeSlots(b.sh.locks.slots, 0, b.sh.capacity) + |b.g.held| + Total(b.sh.elastic) >= b.sh.capacity
    ensures Leads(a, c) && c.g.phase == Running
  {
    if Passes(b.sh, b.g) {
      c := Judged(b);
    } else {
      var d := FallsBack(b);
      LeadsOn(a, b, d);
      FallenBackTurn(a, d);
      var e := Collects(d);
      c := Judged(e);
      LeadsOn(d, e, c);
      LeadsOn(b, d, c);
    }
    LeadsOn(a, b, c);
  }

  /** After falling back it leads exactly if its declared slots fit beside the bases too. */
  lemma FallenBackTurn(a: Both, d: Both)
    requires MyTurn(a.sh, a.g) && QueuedTickets(a.sh) != [] && a.g.ticket.None?
    requires d.sh.drains == a.sh.drains && d.sh.lifelines == a.sh.lifelines && d.sh.elastic == a.sh.elastic
    requires d.sh.capacity == a.sh.capacity
    requires d.g.ticket == a.g.ticket && d.g.waiting == a.g.waiting
    ensures MyTurn(d.sh, d.g) <==> d.g.weight + Total(a.sh.elastic) <= a.sh.capacity
  {
    assert QueuedTickets(a.sh) == QueuedTickets(d.sh);
  }

  /** Outside the queue again, or done: everything it took is back, and the tickets are as they were. */
  ghost predicate HasLeft(w: World, h: Id, v: World) {
    && Reachable(v) && ComesTo(w, h, v) && v.guards[h].naming.None? && TurnedBack(v.guards[h].phase)
    && v.guards[h].held == [] && (forall k :: k in v.sh.locks.slots ==> v.sh.locks.slots[k] != h)
    && v.sh.locks.queue != Some(h) && v.sh.locks.register != Some(h) && !v.sh.locks.main.HeldBy(h)
    && v.sh.drains == w.sh.drains && v.sh.lifelines == w.sh.lifelines && v.sh.locks.main.writer.None?
  }

  lemma LeavesNothing(w: World, h: Id, b: Both) returns (v: World)
    requires Reachable(w) && h in w.guards && w.guards[h].naming.None? && w.sh.locks.main.writer.None?
    requires Leads(Both(w.sh, w.guards[h]), b) && Calm(Both(w.sh, w.guards[h]), b) && TurnedBack(b.g.phase)
    ensures HasLeft(w, h, v) && v.guards[h] == b.g && v.sh == b.sh
  {
    v := WhereItLeads(w, h, b);
    TurnedBackKeepsNothing(v, h);
    hide Reachable, ComesTo, LifelineFirst;
  }

  /**
   And no other head is: without its turn, or not admissible, it gives everything back by its own steps and ends
   outside the queue, so the lifeline leads.
   */
  lemma HeadStepsAside(w: World, h: Id) returns (v: World)
    requires IsHead(w, h) && !(MyTurn(w.sh, w.guards[h]) && Admissible(w.sh, w.guards[h]))
    ensures HasLeft(w, h, v) && v.guards[h].phase == Outside
    ensures if w.guards[h].job.elastic && MyTurn(w.sh, w.guards[h]) then v.guards[h].weight > ElasticRoom(v.sh)
            else !MyTurn(v.sh, v.guards[h])
  {
    HeadStarts(w, h);
    var a := Both(w.sh, w.guards[h]);
    var c := LosesTurn(w, h);
    var e := GivesUp(c);
    TurnStays(c, e);
    LeadsOn(a, c, e);
    v := LeavesNothing(w, h, e);
  }

  lemma LosesTurn(w: World, h: Id) returns (c: Both)
    requires IsHead(w, h) && !(MyTurn(w.sh, w.guards[h]) && Admissible(w.sh, w.guards[h]))
    ensures var a := Both(w.sh, w.guards[h]);
            && Leads(a, c) && Calm(a, c) && c.g.phase == Undoing(AsHead)
            && (if a.g.job.elastic && MyTurn(a.sh, a.g) then c.g.weight > ElasticRoom(c.sh) else !MyTurn(c.sh, c.g))
  {
    var a := Both(w.sh, w.guards[h]);
    if !MyTurn(a.sh, a.g) {
      c := DecidesAgainst(a);
    } else {
      HeadStarts(w, h);
      TurnFits(w, h);
      var b := HeadCollects(w, h);
      if b.g.job.elastic {
        c := FindsNoRoom(b);
      } else {
        var d := FallsBack(b);
        FallenBackTurn(a, d);
        c := DecidesAgainst(d);
        LeadsOn(b, d, c);
      }
      LeadsOn(a, b, c);
    }
  }

  lemma DecidesAgainst(a: Both) returns (c: Both)
    requires a.g.phase.Deciding? && a.g.naming.None? && !MyTurn(a.sh, a.g)
    ensures Leads(a, c) && Along(a, c) && c.g.phase == Undoing(AsHead) && !MyTurn(c.sh, c.g)
  {
    c := Advance(a.sh, a.g);
    LeadsByOne(a);
    assert c == StepDeciding(a.sh, a.g);
    TurnStays(a, c);
  }

  // --- A leader still in the queue loop ---

  /** `id` is in the queue loop, it is its turn, and nobody with an older place in line still looks for the queue. */
  ghost predicate LeadsTheLane(w: World, id: Id) {
    && IsAmidBases(w, id) && w.guards[id].phase.Queueing? && !w.guards[id].job.exclusive
    && MyTurn(w.sh, w.guards[id])
    && (w.guards[id].ticket.None? ==> forall j :: j in w.guards ==> !IsAhead(w, j, Place(w.sh, w.guards[id])))
  }

  lemma LeaderGoesForQueue(w: World, id: Id)
    requires LeadsTheLane(w, id)
    ensures Advance(w.sh, w.guards[id]).g.phase == SawTurn
  {
    hide Reachable, MyTurn, IsAhead, Place, Advance;
    if w.guards[id].ticket.None? {
      GoesForQueueExactly(w, id);
    } else {
      TicketsNeedNoPlace(w, id);
    }
  }

  lemma LeaderTakesQueue(w: World, id: Id) returns (v: World)
    requires LeadsTheLane(w, id)
    ensures IsHead(v, id) && ComesTo(w, id, v) && MyTurn(v.sh, v.guards[id])
    ensures Along(Both(w.sh, w.guards[id]), Both(v.sh, v.guards[id]))
  {
    hide MyTurn, IsAhead, Place;
    ReachableIsSound(w);
    LeaderGoesForQueue(w, id);
    var a := Both(w.sh, w.guards[id]);
    assert HoldsOk(w.sh.locks, a.g) && a.g.id == id;
    var c := SeesTurn(a);
    var d := TakesQueue(c);
    LeadsOn(a, c, d);
    TurnStays(a, d);
    hide LocksOk, EntriesOk, Reachable;
    v := StaysAmidBases(w, id, d);
  }

  lemma AdmissibleStays(a: Both, b: Both)
    requires Along(a, b)
    ensures Admissible(b.sh, b.g) == Admissible(a.sh, a.g)
  {
  }

  /** It is admitted by its own steps if it is admissible ... */
  lemma LeaderIsAdmitted(w: World, id: Id) returns (v: World)
    requires LeadsTheLane(w, id) && Admissible(w.sh, w.guards[id])
    ensures Reachable(v) && ComesTo(w, id, v) && v.guards[id].phase == Running
  {
    var u := LeaderTakesQueue(w, id);
    AdmissibleStays(Both(w.sh, w.guards[id]), Both(u.sh, u.guards[id]));
    v := HeadIsAdmitted(u, id);
    ComesOn(w, id, u, v);
  }

  /** ... and else steps aside. */
  lemma LeaderStepsAside(w: World, id: Id) returns (v: World)
    requires LeadsTheLane(w, id) && !Admissible(w.sh, w.guards[id])
    ensures HasLeft(w, id, v) && v.guards[id].phase == Outside
    ensures if w.guards[id].job.elastic then v.guards[id].weight > ElasticRoom(v.sh) else !MyTurn(v.sh, v.guards[id])
  {
    var u := LeaderTakesQueue(w, id);
    AdmissibleStays(Both(w.sh, w.guards[id]), Both(u.sh, u.guards[id]));
    v := HeadStepsAside(u, id);
    ComesOn(w, id, u, v);
  }

  /** The first lifeline always leads, and leading is always enough for it. */
  lemma FirstLifelineLeads(w: World)
    requires Reachable(w) && LifelineFirst(w.sh)
    ensures var id := QueuedTickets(w.sh)[0].name.pid;
            id in w.guards && MyTurn(w.sh, w.guards[id]) && w.guards[id].ticket.Some? && Admissible(w.sh, w.guards[id])
  {
    ReachableIsSound(w);
    var capacity: nat, clock: nat, n: nat :| 1 <= capacity && ReachableIn(capacity, clock, w, n);
    ReachableTickets(capacity, clock, w, n);
    FirstIsQueued(w.sh);
    var g := w.guards[QueuedTickets(w.sh)[0].name.pid];
    assert TicketOk(w.sh, g) && WeightOk(w.sh, g);
  }
}
