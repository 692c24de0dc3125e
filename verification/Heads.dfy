/**
 The published reservations over every interleaving: an entry stands exactly while the guard that wrote it is the
 waiting head, and says what that head reserves and lacks.
 */
module Heads {
  import opened Wrappers
  import opened Registries
  import opened Charge
  import opened Machine
  import opened Worlds
  import opened LockBooks
  import opened Phases
  import opened Reservations

  /** From the queue to the admission or the way back, as the head. */
  predicate IsHeadPhase(p: Phase) {
    match p
    case Deciding | Draining | Dropping(_) | Announced | Regrouping => true
    case TakingMain(path) => path.AsHead?
    case Scanning(path, _) => path.AsHead?
    case Registering(path) => path.AsHead?
    case Judging(path) => path.AsHead?
    case Publishing(path) => path.AsHead?
    case Undoing(path) => path.AsHead?
    case Admitted(path) => path.AsHead?
    case _ => false
  }

  /** A name this guard took. */
  ghost predicate IsOurs(g: Guard, n: Name) {
    n.pid == g.id && n.serial < g.serial
  }

  ghost predicate HeadOk(heads: seq<Entry<Reservation>>, queue: Option<Id>, g: Guard) {
    && (g.head.Some? ==>
          && queue == Some(g.id) && IsHeadPhase(g.phase) && IsOurs(g, g.head.value)
          && Entry(g.head.value, g.reserved) in heads)
    && (g.oldHead.Some? ==>
          && g.phase.Announced? && IsOurs(g, g.oldHead.value) && g.head.Some? && g.oldHead != g.head)
    && (g.phase.Dropping? ==> g.phase.keep <= g.weight)
    && forall e :: e in heads && e.name.pid == g.id ==> g.head == Some(e.name) || g.oldHead == Some(e.name)
  }

  ghost predicate EntriesMakeSense(heads: seq<Entry<Reservation>>) {
    Sorted(heads) && forall e :: e in heads ==> e.value.unmet <= e.value.need
  }

  ghost predicate HeadsOk(w: World) {
    && EntriesMakeSense(w.sh.heads)
    && (forall e :: e in w.sh.heads ==> e.name.pid in w.guards)
    && forall id :: id in w.guards ==> HeadOk(w.sh.heads, w.sh.locks.queue, w.guards[id])
  }

  // --- One guard's step ---

  ghost predicate HeadFrame(r: seq<Entry<Reservation>>, r': seq<Entry<Reservation>>, id: Id) {
    && (forall e :: e in r && e.name.pid != id ==> e in r')
    && (forall e :: e in r' && e.name.pid != id ==> e in r)
  }

  ghost predicate KeepsHeads(sh: Shared, g: Guard, b: Both) {
    && HeadOk(b.sh.heads, b.sh.locks.queue, b.g) && HeadFrame(sh.heads, b.sh.heads, g.id)
    && EntriesMakeSense(b.sh.heads)
  }

  ghost predicate HeadReady(sh: Shared, g: Guard) {
    HeadOk(sh.heads, sh.locks.queue, g) && EntriesMakeSense(sh.heads)
  }

  /** Steps that leave the head's entry alone, and stay the head's if there is one. */
  ghost predicate HeadQuiet(sh: Shared, g: Guard, b: Both) {
    && b.sh.heads == sh.heads && b.g.id == g.id && b.g.serial >= g.serial
    && b.g.head == g.head && b.g.oldHead == g.oldHead && b.g.reserved == g.reserved
    && (g.head.Some? && IsHeadPhase(g.phase) ==> b.sh.locks.queue == sh.locks.queue && IsHeadPhase(b.g.phase))
    && (g.phase.Announced? ==> b.g.phase.Announced?)
    && (b.g.phase.Dropping? ==> b.g.phase.keep <= b.g.weight)
  }

  lemma QuietKeepsHeads(sh: Shared, g: Guard, b: Both)
    requires HeadReady(sh, g) && HeadQuiet(sh, g, b)
    ensures KeepsHeads(sh, g, b)
  {
    hide IsHeadPhase, Sorted;
  }

  /** The phases whose steps write or withdraw a head's entry. */
  predicate WritesHead(p: Phase) {
    p.Dropping? || p.Announced? || p.Undoing? || p.Admitted?
  }

  lemma ScanIsHeadQuiet(sh: Shared, g: Guard, path: Path, next: nat)
    requires g.phase == Scanning(path, next)
    ensures HeadQuiet(sh, g, StepScanning(sh, g, path, next))
  {
    var waited := if sh.clock >= g.since then sh.clock - g.since else 0;
    ReserveGrows(g.weight, g.job.ramp, waited, waited);
    hide Reserve, Goal;
  }

  /** The entry is left alone and the queue kept. */
  ghost predicate KeepsEntry(sh: Shared, g: Guard, b: Both) {
    && b.sh.heads == sh.heads && b.g.id == g.id && b.g.serial >= g.serial && b.sh.locks.queue == sh.locks.queue
    && b.g.head == g.head && b.g.oldHead == g.oldHead && b.g.reserved == g.reserved
  }

  lemma InsideKeepsEntry(sh: Shared, g: Guard)
    requires g.naming.None? && Inside(g.phase) && !WritesHead(g.phase) && !g.phase.Scanning?
    ensures KeepsEntry(sh, g, Advance(sh, g))
  {
    hide MyTurn, NewName, ElasticRoom, WithinBound, Excess;
  }

  lemma InsideIsHeadQuiet(sh: Shared, g: Guard)
    requires g.naming.None? && Inside(g.phase) && !WritesHead(g.phase) && !g.phase.Scanning?
    ensures HeadQuiet(sh, g, Advance(sh, g))
  {
    hide Advance;
    InsideKeepsEntry(sh, g);
    AdvanceGoes(sh, g);
  }

  lemma ApproachIsHeadQuiet(sh: Shared, g: Guard)
    requires g.naming.None? && Approaching(g.phase) && g.head.None?
    ensures HeadQuiet(sh, g, Advance(sh, g))
  {
    hide MyTurn, FirstInLine, NewName, Withdraw, ElasticRoom, WorkspaceOf;
  }

  lemma AttemptIsHeadQuiet(sh: Shared, g: Guard)
    requires g.naming.None? && !Approaching(g.phase) && !Inside(g.phase) && !WritesHead(g.phase) && !g.phase.Closing?
    ensures HeadQuiet(sh, g, Advance(sh, g))
  {
  }

  lemma PublishingTicketIsHeadQuiet(sh: Shared, g: Guard)
    requires g.naming.Some? && (g.phase.Dropping? ==> g.phase.keep <= g.weight)
    ensures HeadQuiet(sh, g, Advance(sh, g))
  {
  }

  lemma AdvanceIsHeadQuiet(sh: Shared, g: Guard)
    requires g.naming.Some? || (!WritesHead(g.phase) && !g.phase.Closing?)
    requires g.head.Some? ==> IsHeadPhase(g.phase)
    requires g.phase.Dropping? ==> g.phase.keep <= g.weight
    ensures HeadQuiet(sh, g, Advance(sh, g))
  {
    hide Advance, HeadQuiet;
    if g.naming.Some? {
      PublishingTicketIsHeadQuiet(sh, g);
    } else if g.phase.Scanning? {
      ScanningIsHeadQuiet(sh, g);
    } else if Inside(g.phase) {
      InsideIsHeadQuiet(sh, g);
    } else if Approaching(g.phase) {
      ApproachIsHeadQuiet(sh, g);
    } else {
      AttemptIsHeadQuiet(sh, g);
    }
  }

  lemma ScanningIsHeadQuiet(sh: Shared, g: Guard)
    requires g.naming.None? && g.phase.Scanning?
    ensures HeadQuiet(sh, g, Advance(sh, g))
  {
    hide StepScanning;
    ScanIsHeadQuiet(sh, g, g.phase.path, g.phase.next);
  }

  lemma WithdrawOwn(r: seq<Entry<Reservation>>, n: Option<Name>, id: Id)
    requires EntriesMakeSense(r) && (n.Some? ==> n.value.pid == id)
    ensures EntriesMakeSense(Withdraw(r, n)) && HeadFrame(r, Withdraw(r, n), id)
    ensures forall e :: e in Withdraw(r, n) ==> e in r && n != Some(e.name)
    ensures forall e :: e in r && n != Some(e.name) ==> e in Withdraw(r, n)
  {
    if n.Some? {
      UnlinkRemoves(r, n.value);
    }
  }

  lemma PublishOwn(r: seq<Entry<Reservation>>, e: Entry<Reservation>)
    requires EntriesMakeSense(r) && Absent(r, e.name) && e.value.unmet <= e.value.need
    ensures EntriesMakeSense(Publish(r, e)) && HeadFrame(r, Publish(r, e), e.name.pid) && e in Publish(r, e)
    ensures forall x :: x in Publish(r, e) ==> x == e || x in r
    ensures forall x :: x in r ==> x in Publish(r, e)
  {
    PublishAdds(r, e);
  }

  lemma DroppingKeepsHeads(sh: Shared, g: Guard, keep: nat)
    requires HeadReady(sh, g) && g.phase == Dropping(keep) && sh.locks.queue == Some(g.id)
    ensures KeepsHeads(sh, g, StepDropping(sh, g, keep))
  {
    var b := StepDropping(sh, g, keep);
    if b.g.phase.Announced? {
      PublishOwn(sh.heads, Entry(NewName(sh, g), Reservation(keep - |g.held|, Max(0, g.weight - |g.held|))));
    } else {
      assert HeadQuiet(sh, g, b);
    }
  }

  lemma AnnouncedKeepsHeads(sh: Shared, g: Guard)
    requires HeadReady(sh, g) && g.phase == Announced
    ensures KeepsHeads(sh, g, StepAnnounced(sh, g))
  {
    if g.oldHead.Some? {
      WithdrawOwn(sh.heads, g.oldHead, g.id);
    }
  }

  /** A step that takes the entry away. */
  lemma ClearingKeepsHeads(sh: Shared, g: Guard, b: Both)
    requires HeadReady(sh, g) && !g.phase.Announced? && !b.g.phase.Dropping?
    requires b.g.id == g.id && b.g.head.None? && b.g.oldHead == g.oldHead && b.sh.heads == Withdraw(sh.heads, g.head)
    ensures KeepsHeads(sh, g, b)
  {
    hide IsHeadPhase;
    WithdrawOwn(sh.heads, g.head, g.id);
  }

  lemma LeavingKeepsHeads(sh: Shared, g: Guard)
    requires HeadReady(sh, g) && g.naming.None? && (g.phase.Undoing? || g.phase.Admitted?)
    requires g.head.Some? ==> sh.locks.queue == Some(g.id)
    ensures KeepsHeads(sh, g, Advance(sh, g))
  {
    hide NewName, Withdraw, GiveBack, LetCollect;
    var b := Advance(sh, g);
    if b.g.head == g.head && b.sh.heads == sh.heads {
      LeavingIsHeadQuiet(sh, g);
      QuietKeepsHeads(sh, g, b);
    } else {
      ClearingKeepsHeads(sh, g, b);
    }
  }

  lemma LeavingIsHeadQuiet(sh: Shared, g: Guard)
    requires g.naming.None? && (g.phase.Undoing? || g.phase.Admitted?)
    requires g.head.Some? ==> sh.locks.queue == Some(g.id) && IsHeadPhase(g.phase)
    requires Advance(sh, g).g.head == g.head && Advance(sh, g).sh.heads == sh.heads
    ensures HeadQuiet(sh, g, Advance(sh, g))
  {
    hide NewName, Withdraw;
  }

  lemma WithdrawAllKeepsHeads(sh: Shared, g: Guard)
    requires HeadReady(sh, g)
    ensures var r := WithdrawAll(sh, g).sh.heads;
            EntriesMakeSense(r) && HeadFrame(sh.heads, r, g.id) && forall e :: e in r ==> e.name.pid != g.id
  {
    WithdrawOwn(sh.heads, g.head, g.id);
    WithdrawOwn(Withdraw(sh.heads, g.head), g.oldHead, g.id);
  }

  lemma AdvanceKeepsHeads(sh: Shared, g: Guard)
    requires HeadReady(sh, g)
    requires g.phase.Dropping? ==> sh.locks.queue == Some(g.id)
    ensures KeepsHeads(sh, g, Advance(sh, g))
  {
    hide HeadOk, HeadQuiet, StepScanning, StepQueueing, StepOutside, StepMain, StepJudging, StepPublishing, Undo,
        Settle, StepWorkspace;
    if g.naming.None? && WritesHead(g.phase) {
      match g.phase
      case Dropping(keep) => DroppingKeepsHeads(sh, g, keep);
      case Announced => AnnouncedKeepsHeads(sh, g);
      case Undoing(_) => HeadHoldsQueue(sh, g); LeavingKeepsHeads(sh, g);
      case Admitted(_) => HeadHoldsQueue(sh, g); LeavingKeepsHeads(sh, g);
    } else if g.naming.None? && g.phase.Closing? {
      ClosingKeepsHeads(sh, g);
    } else {
      HeadHoldsQueue(sh, g);
      AdvanceIsHeadQuiet(sh, g);
      QuietKeepsHeads(sh, g, Advance(sh, g));
    }
  }

  lemma HeadHoldsQueue(sh: Shared, g: Guard)
    requires HeadReady(sh, g)
    ensures g.head.Some? ==> sh.locks.queue == Some(g.id) && IsHeadPhase(g.phase)
    ensures g.phase.Dropping? ==> g.phase.keep <= g.weight
  {
  }

  lemma ClosingKeepsHeads(sh: Shared, g: Guard)
    requires HeadReady(sh, g) && g.phase.Closing? && g.naming.None?
    ensures KeepsHeads(sh, g, Advance(sh, g))
  {
  }

  lemma PerformKeepsHeads(sh: Shared, g: Guard, a: Action)
    requires HeadReady(sh, g) && Enabled(sh, g, a)
    requires g.phase.Dropping? ==> sh.locks.queue == Some(g.id)
    ensures KeepsHeads(sh, g, Perform(sh, g, a))
  {
    var b := Perform(sh, g, a);
    match a
    case Advancing => AdvanceKeepsHeads(sh, g);
    case Releasing => WithdrawAllKeepsHeads(sh, g);
    case Dying => WithdrawAllKeepsHeads(sh, g);
    case _ =>
      OtherActionsAreHeadQuiet(sh, g, a);
      QuietKeepsHeads(sh, g, b);
  }

  lemma OtherActionsAreHeadQuiet(sh: Shared, g: Guard, a: Action)
    requires HeadReady(sh, g) && Enabled(sh, g, a) && !a.Advancing? && !a.Releasing? && !a.Dying?
    ensures HeadQuiet(sh, g, Perform(sh, g, a))
  {
    hide Advance, MyTurn, NewName, Withdraw, Sorted, Unmet, LargestNeed, Release, Die;
  }

  // --- Every move ---

  lemma OthersKeepHeads(t: Locks, t': Locks, r: seq<Entry<Reservation>>, r': seq<Entry<Reservation>>, id: Id, g: Guard)
    requires HeadOk(r, t.queue, g) && HeadFrame(r, r', id) && LockFrame(t, t', id) && g.id != id
    requires g.head.Some? ==> g.head.value.pid == g.id
    ensures HeadOk(r', t'.queue, g)
  {
    hide IsHeadPhase, SlotFrame, RwFrame;
  }

  lemma ActKeepsHeads(w: World, id: Id, a: Action)
    requires LocksOk(w) && HeadsOk(w) && CanMove(w, Act(id, a))
    ensures HeadsOk(After(w, Act(id, a)))
  {
    var g := w.guards[id];
    var b := Perform(w.sh, g, a);
    assert GuardOk(w.sh, g) && g.id == id;
    DroppingHoldsQueue(w.sh, g);
    PerformKeeps(w.sh, g, a);
    hide Perform, Enabled;
    KeepsHeadsThen(w, id, a, b);
  }

  lemma KeepsHeadsThen(w: World, id: Id, a: Action, b: Both)
    requires LocksOk(w) && HeadsOk(w) && CanMove(w, Act(id, a)) && b == Perform(w.sh, w.guards[id], a)
    requires LockFrame(w.sh.locks, b.sh.locks, id) && b.g.id == id
    requires w.guards[id].phase.Dropping? ==> w.sh.locks.queue == Some(id)
    ensures HeadsOk(World(b.sh, w.guards[id := b.g]))
  {
    hide Perform, Enabled, LockFrame, GuardOk, TableOk, OwnersOk, IsHeadPhase;
    PerformKeepsHeads(w.sh, w.guards[id], a);
    forall j | j in w.guards && j != id
      ensures HeadOk(b.sh.heads, b.sh.locks.queue, w.guards[j])
    {
      OthersKeepHeads(w.sh.locks, b.sh.locks, w.sh.heads, b.sh.heads, id, w.guards[j]);
    }
    forall e | e in b.sh.heads
      ensures e.name.pid in w.guards[id := b.g]
    {
      assert e.name.pid != id ==> e in w.sh.heads;
    }
  }

  lemma DroppingHoldsQueue(sh: Shared, g: Guard)
    requires HoldsOk(sh.locks, g)
    ensures g.phase.Dropping? ==> sh.locks.queue == Some(g.id)
  {
  }

  lemma MoveKeepsHeads(w: World, m: Move)
    requires LocksOk(w) && HeadsOk(w) && CanMove(w, m)
    ensures HeadsOk(After(w, m))
  {
    match m
    case Tick(_) =>
    case Arrive(id, a) => NewcomerIsNoHead(w, id, a);
    case Act(id, a) => ActKeepsHeads(w, id, a);
  }

  lemma NewcomerIsNoHead(w: World, id: Id, a: Args)
    requires HeadsOk(w) && id !in w.guards
    ensures HeadsOk(World(w.sh, w.guards[id := Newcomer(w.sh.capacity, id, a)]))
  {
    hide Declared, Planned, LaneOf;
    forall e | e in w.sh.heads
      ensures e.name.pid != id
    {
    }
  }
}
