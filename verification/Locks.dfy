/**
 Slots and locks over every interleaving: who holds what is decided by where each guard is, so
 admitted guards hold exactly their slots, a guard that is not admitted holds nothing once it
 waits again, and an exclusive guard runs alone.
 */
module LockBooks {
  import opened Wrappers
  import opened Registries
  import opened Charge
  import opened Machine
  import opened Worlds

  ghost predicate Distinct(s: seq<nat>) {
    forall i, j :: 0 <= i < j < |s| ==> s[i] != s[j]
  }

  ghost predicate SlotsOk(slots: map<nat, Id>, id: Id, held: seq<nat>) {
    && Distinct(held)
    && (forall k :: k in held ==> k in slots && slots[k] == id)
    && (forall k :: k in slots && slots[k] == id ==> k in held)
  }

  /**
   What a guard that is not exclusive holds in each phase: n slots of its weight, the queue,
   `register`, `<lock>` shared.
   */
  ghost predicate Fits(p: Phase, n: nat, weight: nat, queue: bool, register: bool, main: bool) {
    match p
    case Arrived | Outside | Queueing | SawTurn | TakingWorkspace | TakingQueue | Gone =>
      n == 0 && !queue && !register && !main
    case Offering(want, _) => n == 0 && !queue && !register && !main && weight <= want
    case TakingMain(path) =>
      n == 0 && !main && (if path.AsBackfill? then !queue && register && weight <= path.want else queue && !register)
    case Deciding | Dropping(_) | Announced => n <= weight && queue && !register && main
    case Draining => false
    case Scanning(path, _) =>
      main && (if path.AsBackfill? then n <= path.need && !queue && register && weight <= path.want
               else n <= weight && queue && !register)
    case Surplus(path) => path.AsBackfill? && weight <= n && !queue && register && main
    case Registering(path) => !path.AsBackfill? && n == weight && queue && !register && main
    case Judging(path) => n == weight && queue == !path.AsBackfill? && register && main
    case Publishing(path) => n == weight && queue == !path.AsBackfill? && register && main
    case Regrouping => n <= weight && queue && register && main
    case Undoing(path) => path.AsBackfill? ==> !queue
    case Admitted(path) => n == weight && main && (path.AsBackfill? ==> !queue)
    case Running | Stopping => n == weight && !queue && !register && main
    case Closing => true
  }

  /** What an exclusive guard holds in each phase: the queue, `register`, `<lock>` alone. */
  ghost predicate FitsAlone(p: Phase, queue: bool, register: bool, main: bool) {
    match p
    case Arrived | Outside | Queueing | SawTurn | Gone => !queue && !register && !main
    case Deciding | Draining => queue && !register && !main
    case Undoing(path) => path.AsHead? && !register && !main
    case Admitted(path) => path.AsHead? && !register && main
    case Running | Stopping => !queue && !register && main
    case Closing => !register
    case _ => false
  }

  predicate IsAdmitted(p: Phase) {
    p.Admitted? || p.Running? || p.Stopping?
  }

  predicate HasWorkspace(p: Phase) {
    match p
    case Arrived | TakingWorkspace | Closing | Gone => false
    case Undoing(path) => !path.AsBackground?
    case _ => true
  }

  ghost predicate WeightOk(sh: Shared, g: Guard) {
    && 1 <= g.weight <= g.declared <= sh.capacity
    && (g.job.elastic ==> g.weight == g.declared && !g.job.exclusive)
    && (g.job.exclusive ==> g.weight == sh.capacity)
    && (g.job.sub ==> g.declared <= sh.part && !g.job.elastic && !g.job.exclusive)
    && (g.job.exclusive <==> g.lane == Exclusive)
    && (g.lane == Leaf ==> g.job.sub)
  }

  ghost predicate WorkspaceOk(lock: RwLock, id: Id, p: Phase, a: Args) {
    HasWorkspace(p) && !a.sub ==> if a.sharedWorkspace then id in lock.readers else lock.writer == Some(id)
  }

  ghost predicate HoldsOk(t: Locks, g: Guard) {
    && SlotsOk(t.slots, g.id, g.held)
    && WorkspaceOk(WorkspaceOf(t, g.job.workspace), g.id, g.phase, g.job)
    && (if g.job.exclusive then
          && g.held == [] && g.id !in t.main.readers
          && FitsAlone(g.phase, t.queue == Some(g.id), t.register == Some(g.id), t.main.writer == Some(g.id))
        else
          && t.main.writer != Some(g.id)
          && Fits(g.phase, |g.held|, g.weight, t.queue == Some(g.id), t.register == Some(g.id), g.id in t.main.readers))
  }

  ghost predicate RwOk(l: RwLock) {
    l.writer.Some? ==> l.readers == {}
  }

  ghost predicate TableOk(capacity: nat, t: Locks) {
    && (forall k :: k in t.slots ==> k < capacity)
    && RwOk(t.main)
    && (forall w :: w in t.workspaces ==> RwOk(t.workspaces[w]))
  }

  /** Every lock that is held is held by a guard that exists. */
  ghost predicate OwnersOk(t: Locks, ids: set<Id>) {
    && (forall k :: k in t.slots ==> t.slots[k] in ids)
    && (t.queue.Some? ==> t.queue.value in ids)
    && (t.register.Some? ==> t.register.value in ids)
    && t.main.readers <= ids
    && (t.main.writer.Some? ==> t.main.writer.value in ids)
  }

  ghost predicate GuardOk(sh: Shared, g: Guard) {
    WeightOk(sh, g) && HoldsOk(sh.locks, g)
  }

  ghost predicate LocksOk(w: World) {
    && 1 <= w.sh.capacity && w.sh.part <= w.sh.capacity && w.sh.part == Slots(w.sh.capacity, PROCESS_MIB)
    && TableOk(w.sh.capacity, w.sh.locks) && OwnersOk(w.sh.locks, w.guards.Keys)
    && (forall id :: id in w.guards ==> w.guards[id].id == id && GuardOk(w.sh, w.guards[id]))
  }

  // --- A step touches only what its guard holds or takes free ---

  ghost predicate RwFrame(a: RwLock, b: RwLock, id: Id) {
    a == b || (
    && a.readers - {id} == b.readers - {id}
    && (a.writer == b.writer || (a.writer in {None, Some(id)} && b.writer in {None, Some(id)})))
  }

  ghost predicate SlotFrame(a: map<nat, Id>, b: map<nat, Id>, id: Id) {
    a == b || (
      && (forall k :: k in a && a[k] != id ==> k in b && b[k] == a[k])
      && (forall k :: k in b && b[k] != id ==> k in a && b[k] == a[k]))
  }

  ghost predicate OneFrame(a: Option<Id>, b: Option<Id>, id: Id) {
    a == b || (a in {None, Some(id)} && b in {None, Some(id)})
  }

  ghost predicate LockFrame(t: Locks, t': Locks, id: Id) {
    && SlotFrame(t.slots, t'.slots, id)
    && OneFrame(t.queue, t'.queue, id)
    && OneFrame(t.register, t'.register, id)
    && RwFrame(t.main, t'.main, id)
    && (t.workspaces == t'.workspaces || forall w :: RwFrame(WorkspaceOf(t, w), WorkspaceOf(t', w), id))
  }

  lemma RwFrameMembers(a: RwLock, b: RwLock, id: Id, other: Id)
    requires RwFrame(a, b, id) && other != id
    ensures other in a.readers <==> other in b.readers
    ensures a.writer == Some(other) <==> b.writer == Some(other)
  {
    assert other in a.readers - {id} <==> other in b.readers - {id};
  }

  /** Whoever else holds something holds it after the step. */
  lemma OthersKeepTheirs(t: Locks, t': Locks, id: Id, g: Guard)
    requires LockFrame(t, t', id) && g.id != id && HoldsOk(t, g)
    ensures HoldsOk(t', g)
  {
    assert RwFrame(WorkspaceOf(t, g.job.workspace), WorkspaceOf(t', g.job.workspace), id);
    RwFrameMembers(WorkspaceOf(t, g.job.workspace), WorkspaceOf(t', g.job.workspace), id, g.id);
    RwFrameMembers(t.main, t'.main, id, g.id);
    assert SlotsOk(t'.slots, g.id, g.held);
  }

  lemma DropLastKeeps(sh: Shared, g: Guard)
    requires SlotsOk(sh.locks.slots, g.id, g.held) && g.held != []
    ensures var b := DropLast(sh, g);
            SlotsOk(b.sh.locks.slots, b.g.id, b.g.held) && SlotFrame(sh.locks.slots, b.sh.locks.slots, g.id)
    ensures DropLast(sh, g).sh.locks.slots.Keys <= sh.locks.slots.Keys
  {
    var b := DropLast(sh, g);
    var n := |g.held| - 1;
    var slot := g.held[n];
    assert slot in g.held;
    forall k | k in g.held && k != slot
      ensures k in b.g.held
    {
      var i :| 0 <= i < |g.held| && g.held[i] == k;
      assert i < n;
      assert b.g.held[i] == k;
    }
    forall k | k in b.g.held
      ensures k in g.held && k != slot
    {
      var i :| 0 <= i < n && b.g.held[i] == k;
      assert g.held[i] == k;
    }
  }

  lemma TakeKeeps(slots: map<nat, Id>, id: Id, held: seq<nat>, slot: nat)
    requires SlotsOk(slots, id, held) && slot !in slots
    ensures SlotsOk(slots[slot := id], id, held + [slot]) && SlotFrame(slots, slots[slot := id], id)
  {
    var more := held + [slot];
    assert slot !in held;
    forall i, j | 0 <= i < j < |more|
      ensures more[i] != more[j]
    {
      if j == |held| {
        assert held[i] in held;
      }
    }
    assert forall k :: k in more <==> k in held || k == slot;
  }

  lemma CloseKeeps(capacity: nat, t: Locks, g: Guard)
    requires TableOk(capacity, t)
    ensures TableOk(capacity, CloseLocks(t, g.id)) && LockFrame(t, CloseLocks(t, g.id), g.id)
    ensures HoldsOk(CloseLocks(t, g.id), g.(held := [], phase := Gone))
  {
    var t' := CloseLocks(t, g.id);
    forall w
      ensures RwFrame(WorkspaceOf(t, w), WorkspaceOf(t', w), g.id)
    {
      if w in t.workspaces {
        assert t'.workspaces[w] == t.workspaces[w].Leave(g.id);
      }
    }
  }

  // --- What every step keeps: the acting guard's books stay right, everyone else's are untouched ---

  ghost predicate Keeps(sh: Shared, g: Guard, b: Both) {
    && b.g.id == g.id && b.sh.capacity == sh.capacity && b.sh.part == sh.part
    && TableOk(b.sh.capacity, b.sh.locks) && HoldsOk(b.sh.locks, b.g)
    && LockFrame(sh.locks, b.sh.locks, g.id)
  }

  ghost predicate Ready(sh: Shared, g: Guard) {
    TableOk(sh.capacity, sh.locks) && GuardOk(sh, g)
  }

  /** Steps from one phase to another that touch no lock. */
  predicate LockFree(p: Phase, q: Phase, weight: nat, exclusive: bool) {
    match p
    case Outside => q.Queueing?
    case Queueing => q.SawTurn? || (q.Offering? && q.want >= weight && !exclusive)
    case SawTurn => q.Queueing?
    case Offering(_, _) => q.Queueing?
    case TakingQueue => q == Undoing(AsBackground)
    case Dropping(_) => q.Announced? || q.Deciding?
    case Announced => q.Deciding?
    case Registering(path) => q == Undoing(path)
    case Publishing(path) => q == Admitted(path)
    case _ => false
  }

  lemma MovesFreely(t: Locks, g: Guard, g': Guard)
    requires HoldsOk(t, g)
    requires g'.id == g.id && g'.job == g.job && g'.held == g.held && g'.weight == g.weight
    requires g'.phase == g.phase || LockFree(g.phase, g'.phase, g.weight, g.job.exclusive)
    ensures HoldsOk(t, g')
  {
  }

  lemma JudgedOk(t: Locks, g: Guard, path: Path, weight: nat, p: Phase)
    requires HoldsOk(t, g) && g.phase == Judging(path)
    requires (p == Publishing(path) && weight == g.weight) || (p == Admitted(path) && weight == g.weight)
          || p == Undoing(path) || (p == Regrouping && weight >= g.weight && path.AsHead?)
    ensures HoldsOk(t, g.(weight := weight, phase := p))
  {
  }

  lemma LetCollectKeeps(t: Locks, g: Guard, path: Path)
    requires HoldsOk(t, g) && g.phase == Admitted(path)
    ensures HoldsOk(LetCollect(t, g.id), g.(head := None)) && LockFrame(t, LetCollect(t, g.id), g.id)
    ensures t.queue != Some(g.id) && t.register != Some(g.id) ==> HoldsOk(t, g.(phase := Running))
  {
  }

  lemma TakeOneKeeps(t: Locks, g: Guard, p: Phase)
    requires HoldsOk(t, g)
    ensures t.register.None? && (match g.phase
                                 case Offering(want, need) => p == TakingMain(AsBackfill(want, need))
                                 case Registering(path) => p == Judging(path)
                                 case _ => false)
            ==> HoldsOk(t.(register := Some(g.id)), g.(phase := p))
    ensures t.queue.None? && ((g.phase == SawTurn && p == (if g.job.exclusive then Deciding else TakingMain(AsHead)))
                              || (g.phase == TakingQueue && p == TakingMain(AsBackground)))
            ==> HoldsOk(t.(queue := Some(g.id)), g.(phase := p))
    ensures g.phase == Regrouping && p == Deciding ==> HoldsOk(t.(register := None), g.(phase := p))
  {
    hide SlotsOk;
  }

  lemma TakenWorkspaceKeeps(capacity: nat, t: Locks, g: Guard, lock: RwLock, then_: Phase)
    requires TableOk(capacity, t) && HoldsOk(t, g)
        && (g.phase == Arrived || (g.phase == TakingWorkspace && !g.job.exclusive))
    requires then_ == if g.phase.Arrived? then Outside else TakingQueue
    requires RwOk(lock) && RwFrame(WorkspaceOf(t, g.job.workspace), lock, g.id)
    requires if g.job.sharedWorkspace then g.id in lock.readers else lock.writer == Some(g.id)
    ensures var t' := t.(workspaces := t.workspaces[g.job.workspace := lock]);
            TableOk(capacity, t') && HoldsOk(t', g.(phase := then_)) && LockFrame(t, t', g.id)
  {
    hide SlotsOk, RwOk;
  }

  lemma WorkspaceKeeps(sh: Shared, g: Guard, then_: Phase, else_: Phase)
    requires Ready(sh, g)
    requires (g.phase == Arrived && then_ == Outside && else_ == Arrived)
          || (g.phase == TakingWorkspace && then_ == TakingQueue && else_ == Undoing(AsBackground) && !g.job.exclusive)
    ensures Keeps(sh, g, StepWorkspace(sh, g, then_, else_))
  {
    var b := StepWorkspace(sh, g, then_, else_);
    var lock := WorkspaceOf(sh.locks, g.job.workspace);
    if b.g.phase == then_ && then_ != else_ {
      var lock' := if g.job.sharedWorkspace then lock.Share(g.id) else lock.Own(g.id);
      TakenWorkspaceKeeps(sh.capacity, sh.locks, g, lock', then_);
      hide HoldsOk, TableOk, LockFrame;
    } else {
      NoWorkspaceKeeps(sh.locks, g, else_);
      hide HoldsOk, TableOk;
    }
  }

  lemma NoWorkspaceKeeps(t: Locks, g: Guard, else_: Phase)
    requires HoldsOk(t, g)
    requires (g.phase == Arrived && else_ == Arrived)
        || (g.phase == TakingWorkspace && else_ == Undoing(AsBackground) && !g.job.exclusive)
    ensures HoldsOk(t, g.(phase := else_))
  {
  }

  lemma OutsideKeeps(sh: Shared, g: Guard)
    requires Ready(sh, g) && g.phase == Outside
    ensures Keeps(sh, g, StepOutside(sh, g))
  {
    var b := StepOutside(sh, g);
    MovesFreely(sh.locks, g, b.g);
    assert b.sh.locks == sh.locks;
  }

  lemma QueueingKeeps(sh: Shared, g: Guard)
    requires Ready(sh, g) && g.phase == Queueing
    ensures Keeps(sh, g, StepQueueing(sh, g))
  {
    var b := StepQueueing(sh, g);
    assert LineUp(sh, g, MyTurn(sh, g)).sh.locks == sh.locks;
    MovesFreely(sh.locks, g, b.g);
  }

  lemma SawTurnKeeps(sh: Shared, g: Guard)
    requires Ready(sh, g) && g.phase == SawTurn
    ensures Keeps(sh, g, StepSawTurn(sh, g))
  {
    var b := StepSawTurn(sh, g);
    if sh.locks.queue.None? {
      TakeOneKeeps(sh.locks, g, b.g.phase);
    } else {
      MovesFreely(sh.locks, g, b.g);
    }
  }

  lemma MainKeeps(sh: Shared, g: Guard, path: Path)
    requires Ready(sh, g) && g.phase == TakingMain(path)
    ensures Keeps(sh, g, StepMain(sh, g, path))
  {
    hide SlotsOk, WeightOk;
  }

  lemma DecidingKeeps(sh: Shared, g: Guard)
    requires Ready(sh, g) && g.phase == Deciding
    ensures Keeps(sh, g, StepDeciding(sh, g))
  {
    hide SlotsOk, MyTurn;
  }

  lemma DrainingKeeps(sh: Shared, g: Guard)
    requires Ready(sh, g) && g.phase == Draining
    ensures Keeps(sh, g, StepDraining(sh, g))
  {
    hide SlotsOk, WeightOk;
  }

  lemma ScanTakes(sh: Shared, g: Guard, path: Path, next: nat)
    requires Ready(sh, g) && g.phase == Scanning(path, next)
    requires next < sh.capacity && |g.held| < Goal(g, path) && next !in sh.locks.slots
    ensures Keeps(sh, g, StepScanning(sh, g, path, next))
  {
    TakeKeeps(sh.locks.slots, g.id, g.held, next);
    hide SlotsOk, SlotFrame;
  }

  lemma ScanGoesOn(sh: Shared, g: Guard, path: Path, next: nat)
    requires Ready(sh, g) && g.phase == Scanning(path, next)
    requires !(next < sh.capacity && |g.held| < Goal(g, path) && next !in sh.locks.slots)
    ensures Keeps(sh, g, StepScanning(sh, g, path, next))
  {
    hide Reserve, SlotsOk, Goal;
  }

  lemma ScanKeeps(sh: Shared, g: Guard, path: Path, next: nat)
    requires Ready(sh, g) && g.phase == Scanning(path, next)
    ensures Keeps(sh, g, StepScanning(sh, g, path, next))
  {
    hide Ready, Keeps, StepScanning;
    if next < sh.capacity && |g.held| < Goal(g, path) && next !in sh.locks.slots {
      ScanTakes(sh, g, path, next);
    } else {
      ScanGoesOn(sh, g, path, next);
    }
  }

  lemma DroppingKeeps(sh: Shared, g: Guard, keep: nat)
    requires Ready(sh, g) && g.phase == Dropping(keep)
    ensures Keeps(sh, g, StepDropping(sh, g, keep))
  {
    var b := StepDropping(sh, g, keep);
    if |g.held| > keep {
      DropLastKeeps(sh, g);
    } else {
      MovesFreely(sh.locks, g, b.g);
      assert b.sh.locks == sh.locks;
    }
  }

  lemma SurplusKeeps(sh: Shared, g: Guard, path: Path)
    requires Ready(sh, g) && g.phase == Surplus(path)
    ensures Keeps(sh, g, StepSurplus(sh, g, path))
  {
    if |g.held| > g.weight {
      DropLastKeeps(sh, g);
    }
    hide SlotsOk, DropLast;
  }

  lemma JudgingKeeps(sh: Shared, g: Guard, path: Path)
    requires Ready(sh, g) && g.phase == Judging(path)
    ensures Keeps(sh, g, StepJudging(sh, g, path))
  {
    var b := StepJudging(sh, g, path);
    JudgedOk(sh.locks, g, path, b.g.weight, b.g.phase);
    assert b.sh == sh && b.g == g.(weight := b.g.weight, phase := b.g.phase);
  }

  lemma PublishingKeeps(sh: Shared, g: Guard, path: Path)
    requires Ready(sh, g) && g.phase == Publishing(path)
    ensures Keeps(sh, g, StepPublishing(sh, g, path))
  {
    var b := StepPublishing(sh, g, path);
    MovesFreely(sh.locks, g, b.g);
    assert b.sh.locks == sh.locks;
  }

  lemma SettleKeeps(sh: Shared, g: Guard, path: Path)
    requires Ready(sh, g) && g.phase == Admitted(path)
    ensures Keeps(sh, g, Settle(sh, g, path))
  {
    LetCollectKeeps(sh.locks, g, path);
    if sh.locks.register == Some(g.id) || sh.locks.queue == Some(g.id) {
      hide HoldsOk, Withdraw;
    } else {
      SettlesFreely(sh, g, path);
    }
  }

  lemma SettlesFreely(sh: Shared, g: Guard, path: Path)
    requires Ready(sh, g) && g.phase == Admitted(path) && sh.locks.register != Some(g.id)
        && sh.locks.queue != Some(g.id)
    ensures Keeps(sh, g, Settle(sh, g, path))
  {
    hide Withdraw, NewName, TableOk;
    var b := Settle(sh, g, path);
    LetCollectKeeps(sh.locks, g, path);
    if b.g.phase == g.phase {
      MovesFreely(sh.locks, g, b.g);
    }
    hide SlotsOk, Fits, FitsAlone;
  }

  lemma GiveBackKeeps(t: Locks, g: Guard, path: Path, capacity: nat)
    requires TableOk(capacity, t) && HoldsOk(t, g) && g.phase == Undoing(path)
    ensures TableOk(capacity, GiveBack(t, g.id, g.job, path))
        && HoldsOk(GiveBack(t, g.id, g.job, path), g.(head := None))
    ensures LockFrame(t, GiveBack(t, g.id, g.job, path), g.id)
  {
  }

  lemma UndoKeeps(sh: Shared, g: Guard, path: Path)
    requires Ready(sh, g) && g.phase == Undoing(path)
    ensures Keeps(sh, g, Undo(sh, g, path))
  {
    GiveBackKeeps(sh.locks, g, path, sh.capacity);
    if g.held != [] {
      DroppingOneKeeps(sh, g, path);
    }
    hide SlotsOk, Withdraw, GiveBack, DropLast;
  }

  lemma DroppingOneKeeps(sh: Shared, g: Guard, path: Path)
    requires Ready(sh, g) && g.phase == Undoing(path) && g.held != []
    ensures Keeps(sh, g, DropLast(sh, g))
  {
    DropLastKeeps(sh, g);
    hide SlotsOk;
  }

  lemma AttemptKeeps(sh: Shared, g: Guard)
    requires Ready(sh, g) && g.naming.None?
    requires g.phase.Offering? || g.phase.TakingQueue? || g.phase.Announced? || g.phase.Registering?
        || g.phase.Regrouping?
    ensures Keeps(sh, g, Advance(sh, g))
  {
    hide Withdraw, SlotsOk;
    var b := Advance(sh, g);
    if b.sh.locks == sh.locks {
      MovesFreely(sh.locks, g, b.g);
    } else {
      TakeOneKeeps(sh.locks, g, b.g.phase);
    }
    hide Fits, FitsAlone, WorkspaceOk;
  }

  /** On the way to admission, under the queue or `register`. */
  predicate Inside(p: Phase) {
    || p.TakingMain? || p.Deciding? || p.Draining? || p.Scanning? || p.Dropping? || p.Surplus? || p.Judging?
    || p.Publishing? || p.Undoing? || p.Admitted?
  }

  /** On the way to the queue. */
  predicate Approaching(p: Phase) {
    p.Arrived? || p.Outside? || p.Queueing? || p.SawTurn? || p.TakingWorkspace?
  }

  lemma ApproachKeeps(sh: Shared, g: Guard)
    requires Ready(sh, g) && g.naming.None? && Approaching(g.phase)
    ensures Keeps(sh, g, Advance(sh, g))
  {
    hide StepOutside, StepQueueing, StepSawTurn, StepWorkspace;
    match g.phase
    case Arrived =>
      if g.lane != Background && !g.job.sub {
        WorkspaceKeeps(sh, g, Outside, Arrived);
      }
    case Outside => OutsideKeeps(sh, g);
    case Queueing => QueueingKeeps(sh, g);
    case SawTurn => SawTurnKeeps(sh, g);
    case TakingWorkspace => WorkspaceKeeps(sh, g, TakingQueue, Undoing(AsBackground));
  }

  lemma InsideKeeps(sh: Shared, g: Guard)
    requires Ready(sh, g) && g.naming.None? && Inside(g.phase)
    ensures Keeps(sh, g, Advance(sh, g))
  {
    hide Keeps, Ready, StepMain, StepDeciding, StepDraining, StepScanning, StepDropping, StepSurplus, StepJudging,
        StepPublishing, Undo, Settle;
    match g.phase
    case TakingMain(path) => MainKeeps(sh, g, path);
    case Deciding => DecidingKeeps(sh, g);
    case Draining => DrainingKeeps(sh, g);
    case Scanning(path, next) => ScanKeeps(sh, g, path, next);
    case Dropping(keep) => DroppingKeeps(sh, g, keep);
    case Surplus(path) => SurplusKeeps(sh, g, path);
    case Judging(path) => JudgingKeeps(sh, g, path);
    case Publishing(path) => PublishingKeeps(sh, g, path);
    case Undoing(path) => UndoKeeps(sh, g, path);
    case Admitted(path) => SettleKeeps(sh, g, path);
  }

  lemma NamingKeeps(sh: Shared, g: Guard)
    requires Ready(sh, g) && g.naming.Some?
    ensures Keeps(sh, g, Advance(sh, g))
  {
    hide Publish;
    MovesFreely(sh.locks, g, Advance(sh, g).g);
  }

  lemma RestKeeps(sh: Shared, g: Guard)
    requires Ready(sh, g) && g.naming.None?
        && (g.phase.Running? || g.phase.Stopping? || g.phase.Closing? || g.phase.Gone?)
    ensures Keeps(sh, g, Advance(sh, g))
  {
    CloseKeeps(sh.capacity, sh.locks, g);
    hide HoldsOk, CloseLocks, TableOk, WeightOk;
  }

  lemma AdvanceKeeps(sh: Shared, g: Guard)
    requires Ready(sh, g)
    ensures Keeps(sh, g, Advance(sh, g))
  {
    hide Advance, Keeps, Ready;
    if g.naming.Some? {
      NamingKeeps(sh, g);
    } else if Inside(g.phase) {
      InsideKeeps(sh, g);
    } else if Approaching(g.phase) {
      ApproachKeeps(sh, g);
    } else if g.phase.Running? || g.phase.Stopping? || g.phase.Closing? || g.phase.Gone? {
      RestKeeps(sh, g);
    } else {
      AttemptKeeps(sh, g);
    }
  }

  lemma ReleaseKeeps(t: Locks, g: Guard, g': Guard)
    requires HoldsOk(t, g) && g'.id == g.id && g'.job == g.job && g'.held == g.held && g'.weight == g.weight
    requires g'.phase == Closing || (g.phase == Running && g'.phase == Stopping)
          || (g.phase == Arrived && !g.job.exclusive && (g'.phase == TakingQueue || g'.phase == TakingWorkspace)
              && g.job.sub == g'.phase.TakingQueue?)
    ensures HoldsOk(t, g')
  {
  }

  lemma OtherActionsKeep(sh: Shared, g: Guard, a: Action)
    requires Ready(sh, g) && Enabled(sh, g, a) && !a.Advancing? && !a.Dying?
    ensures Keeps(sh, g, Perform(sh, g, a))
  {
    hide Advance, Withdraw, NewName, MyTurn, Unmet, LargestNeed;
    var b := Perform(sh, g, a);
    if a.Trying? || a.Preempting? || a.Releasing? {
      ReleaseKeeps(sh.locks, g, b.g);
    } else {
      MovesFreely(sh.locks, g, b.g);
    }
    hide Fits, FitsAlone, SlotsOk;
  }

  lemma DyingKeeps(sh: Shared, g: Guard)
    requires Ready(sh, g)
    ensures Keeps(sh, g, Die(sh, g))
  {
    CloseKeeps(sh.capacity, sh.locks, g);
    hide CloseLocks, Withdraw, TableOk, Fits, FitsAlone;
  }

  lemma PerformKeeps(sh: Shared, g: Guard, a: Action)
    requires Ready(sh, g) && Enabled(sh, g, a)
    ensures Keeps(sh, g, Perform(sh, g, a))
  {
    hide Advance, Die, Keeps, Ready, Enabled;
    match a
    case Advancing => AdvanceKeeps(sh, g);
    case Dying => DyingKeeps(sh, g);
    case _ => OtherActionsKeep(sh, g, a);
  }

  /** What a guard is never changes; what it is charged only falls back to what it declared. */
  ghost predicate SameJob(g: Guard, g': Guard) {
    && g'.id == g.id && g'.job == g.job && g'.declared == g.declared
    && (g'.weight == g.weight || (g'.weight == g.declared && !g.job.elastic && !g.job.sub))
    && (g'.lane == g.lane || (g'.lane == Leaf && g.job.sub && g.lane != Exclusive))
  }

  lemma InsideKeepsJob(sh: Shared, g: Guard)
    requires g.naming.None? && Inside(g.phase)
    ensures SameJob(g, Advance(sh, g).g)
  {
    hide MyTurn, NewName, Withdraw, GiveBack, HoldsLock, LetCollect, Reserve, Goal, ElasticRoom, WithinBound;
  }

  lemma ApproachKeepsJob(sh: Shared, g: Guard)
    requires g.naming.None? && Approaching(g.phase)
    ensures SameJob(g, Advance(sh, g).g)
  {
    hide MyTurn, FirstInLine, NewName, Withdraw, WorkspaceOf;
  }

  lemma AdvanceKeepsJob(sh: Shared, g: Guard)
    ensures SameJob(g, Advance(sh, g).g)
  {
    if g.naming.None? && Inside(g.phase) {
      InsideKeepsJob(sh, g);
    } else if g.naming.None? && Approaching(g.phase) {
      ApproachKeepsJob(sh, g);
    }
  }

  lemma PerformKeepsJob(sh: Shared, g: Guard, a: Action)
    requires Enabled(sh, g, a) && (g.lane == Exclusive ==> !g.job.sub)
    ensures SameJob(g, Perform(sh, g, a).g)
  {
    if a.Advancing? {
      AdvanceKeepsJob(sh, g);
    }
  }

  lemma NewcomerOk(w: World, id: Id, a: Args)
    requires LocksOk(w) && id !in w.guards && Acceptable(w.sh.capacity, a)
    ensures GuardOk(w.sh, Newcomer(w.sh.capacity, id, a))
  {
    PlanWithinDeclared(w.sh.capacity, a);
  }

  lemma BooksStayApart(w: World, id: Id, b: Both)
    requires LocksOk(w) && id in w.guards && b.g.id == id
    requires Keeps(w.sh, w.guards[id], b) && WeightOk(b.sh, b.g)
    ensures LocksOk(World(b.sh, w.guards[id := b.g]))
  {
    forall j | j in w.guards && j != id
      ensures GuardOk(b.sh, w.guards[j])
    {
      OthersKeepTheirs(w.sh.locks, b.sh.locks, id, w.guards[j]);
    }
    FrameKeepsOwners(w.sh.locks, b.sh.locks, id, w.guards.Keys);
    assert w.guards[id := b.g].Keys == w.guards.Keys;
  }

  /** Every step of a guard keeps the books of all guards. */
  lemma ActKeepsLocks(w: World, id: Id, a: Action)
    requires LocksOk(w) && CanMove(w, Act(id, a))
    ensures LocksOk(After(w, Act(id, a)))
  {
    var g := w.guards[id];
    assert GuardOk(w.sh, g);
    PerformKeeps(w.sh, g, a);
    PerformKeepsJob(w.sh, g, a);
    BooksStayApart(w, id, Perform(w.sh, g, a));
  }

  lemma FrameKeepsOwners(t: Locks, t': Locks, id: Id, ids: set<Id>)
    requires OwnersOk(t, ids) && LockFrame(t, t', id) && id in ids
    ensures OwnersOk(t', ids)
  {
    forall j | j in t'.main.readers
      ensures j in ids
    {
      if j != id {
        RwFrameMembers(t.main, t'.main, id, j);
      }
    }
  }

  lemma MoveKeepsLocks(w: World, m: Move)
    requires LocksOk(w) && CanMove(w, m)
    ensures LocksOk(After(w, m))
  {
    match m
    case Tick(_) =>
      forall id | id in w.guards
        ensures GuardOk(After(w, m).sh, w.guards[id])
      {
      }
    case Arrive(id, a) => NewcomerOk(w, id, a);
    case Act(id, a) => ActKeepsLocks(w, id, a);
  }
}
