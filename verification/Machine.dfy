/**
 The build guard's admission as a machine: what the guards of one lock share (`Shared`), what one
 guard keeps for itself (`Guard`), and the steps a guard takes in `Admission.acquire`,
 `backfill`, `try_background`, `take_lifeline`, `preempt` and `release`.

 One step is one attempt at a lock, one registry entry published or withdrawn, or one
 decision. Guards interleave between steps in every order (module Worlds).
 */
module Machine {
  import opened Wrappers
  import opened Registries
  import opened Charge

  type Id = nat

  const IN_LINE_FRESH: int := 3_000_000_000     // nanoseconds
  const PREEMPT_HOLDOFF: int := 5_000_000_000

  /** A lock that is held by readers or by one writer. */
  datatype RwLock = RwLock(readers: set<Id>, writer: Option<Id>) {
    predicate CanShare() { writer.None? }
    predicate CanOwn() { writer.None? && readers == {} }
    predicate HeldBy(id: Id) { id in readers || writer == Some(id) }
    function Share(id: Id): RwLock { this.(readers := readers + {id}) }
    function Own(id: Id): RwLock { this.(writer := Some(id)) }
    function Leave(id: Id): RwLock {
      RwLock(readers - {id}, if writer == Some(id) then None else writer)
    }
  }

  const UNLOCKED := RwLock({}, None)

  /** A waiting queue head's entry: slots it reserves but does not hold, slots it still lacks. */
  datatype Reservation = Reservation(unmet: nat, need: nat)

  datatype Locks = Locks(
    slots: map<nat, Id>,             // slot -> the guard that holds it
    queue: Option<Id>, register: Option<Id>,
    main: RwLock,                    // `<lock>` itself
    workspaces: map<nat, RwLock>,
    lifelines: map<nat, Id>)         // elastic workload -> the part that holds its lifeline

  /** What the guards share. `part` is the slots of PROCESS_MIB, the largest part. */
  datatype Shared = Shared(
    capacity: nat, part: nat, clock: nat, locks: Locks,
    drains: seq<Entry<Lane>>, lifelines: seq<Entry<Lane>>,
    heads: seq<Entry<Reservation>>, waiting: seq<Entry<bool>>, line: seq<Entry<nat>>,
    running: seq<Entry<nat>>,        // excess slots of the overcommitted workloads
    elastic: seq<Entry<nat>>,        // base slots of the elastic workloads
    leaves: seq<Entry<nat>>,         // running parts, with their elastic workload
    lastPreemption: nat)

  /** How a guard comes to its slots. */
  datatype Path = AsHead | AsBackfill(want: nat, need: nat) | AsBackground

  datatype Phase =
    | Arrived                        // planned; holds nothing
    | Outside                        // holds its workspace; about to (re)join the queue loop
    | Queueing                       // in the queue loop
    | SawTurn                        // it was its turn; about to try the queue lock
    | Offering(want: nat, need: nat) // read the reservations; about to try `register`
    | TakingWorkspace                // a background attempt
    | TakingQueue
    | TakingMain(path: Path)
    | Deciding                       // the head's `while self.my_turn()`
    | Draining                       // an exclusive head tries `<lock>`
    | Scanning(path: Path, next: nat)
    | Dropping(keep: nat)            // the head trims to its reservation
    | Announced                      // the head withdraws its older entry
    | Surplus(path: Path)            // a backfill gives back all but its weight
    | Registering(path: Path)
    | Judging(path: Path)            // under `register`: admit_overcommitted
    | Publishing(path: Path)
    | Regrouping                     // the head collects its declared slots instead
    | Undoing(path: Path)
    | Admitted(path: Path)
    | Running
    | Stopping                       // preempted: its workload is being stopped
    | Closing                        // released its entries; its locks close
    | Gone

  datatype Guard = Guard(
    id: Id, job: Args, declared: nat, phase: Phase, lane: Lane, weight: nat, held: seq<nat>, serial: nat,
    naming: Option<Name>, ticket: Option<Name>, waiting: Option<Name>, inLine: Option<Name>,
    head: Option<Name>, oldHead: Option<Name>, reserved: Reservation,
    registered: Option<Name>, base: Option<Name>, leaf: Option<Name>,
    since: nat, backfilled: bool)

  datatype Both = Both(sh: Shared, g: Guard)

  function NewName(sh: Shared, g: Guard): Name {
    Name(sh.clock, g.id, g.serial)
  }

  function Withdraw<T(==)>(r: seq<Entry<T>>, n: Option<Name>): seq<Entry<T>> {
    if n.Some? then Unlink(r, n.value) else r
  }

  /** The declared slots a guard does not hold. */
  function Excess(g: Guard): nat {
    Max(0, g.declared - g.weight)
  }

  function WorkspaceOf(t: Locks, w: nat): RwLock {
    if w in t.workspaces then t.workspaces[w] else UNLOCKED
  }

  // --- Turns ---

  predicate IsLifeline(e: Entry<Lane>) { e.value == Leaf }

  function FirstExclusive(drains: seq<Entry<Lane>>): (cut: nat)
    ensures cut <= |drains|
  {
    if drains == [] || drains[0].value == Exclusive then 0 else 1 + FirstExclusive(drains[1..])
  }

  /** The waiting tickets, the lifelines moved ahead of the first exclusive one. */
  function QueuedTickets(sh: Shared): seq<Entry<Lane>> {
    var cut := FirstExclusive(sh.drains);
    sh.drains[..cut] + sh.lifelines + sh.drains[cut..]
  }

  predicate MyTurn(sh: Shared, g: Guard) {
    var queued := QueuedTickets(sh);
    if queued == [] then true
    else if g.ticket.Some? then queued[0].name == g.ticket.value
    else if exists e :: e in queued && !IsLifeline(e) then false
    else
      && g.waiting.Some?
      && (forall e :: e in queued ==> Before(g.waiting.value, e.name))
      && g.weight + Total(sh.elastic) <= sh.capacity
  }

  /** A normal guard's entry in line, refreshed while it is in its turn or behind a drain ticket. */
  function LineUp(sh: Shared, g: Guard, turn: bool): Both {
    if g.ticket.Some? then
      Both(sh.(line := Withdraw(sh.line, g.inLine)), g.(inLine := None))
    else
      var name := if g.inLine.Some? then g.inLine.value else NewName(sh, g);
      var refreshed := turn || sh.drains != [];
      Both(sh.(line := Publish(Unlink(sh.line, name), Entry(name, if refreshed then sh.clock else 0))),
           g.(inLine := Some(name), serial := if g.inLine.Some? then g.serial else g.serial + 1))
  }

  /** No guard earlier in line was refreshed within IN_LINE_FRESH of `now`. */
  predicate FirstInLine(line: seq<Entry<nat>>, mine: Name, now: nat) {
    forall e :: e in line && Before(e.name, mine) ==> now - e.value >= IN_LINE_FRESH
  }

  // --- Reservations ---

  function CeilDiv(a: nat, b: nat): nat
    requires b > 0
  {
    (a + b - 1) / b
  }

  /** The slots a head keeps after waiting `waited` as the head. */
  function Reserve(weight: nat, ramp: nat, waited: nat): nat {
    if ramp == 0 || waited >= ramp then weight
    else Min(weight, CeilDiv(weight * waited, ramp))
  }

  function Unmet(heads: seq<Entry<Reservation>>): nat {
    if heads == [] then 0 else heads[0].value.unmet + Unmet(heads[1..])
  }

  function LargestNeed(heads: seq<Entry<Reservation>>): nat {
    if heads == [] then 0 else Max(heads[0].value.need, LargestNeed(heads[1..]))
  }

  // --- Bounds ---

  /** The excess of the overcommitted workloads stays within half the budget with this guard's. */
  predicate WithinBound(sh: Shared, g: Guard) {
    2 * (Total(sh.running) + Excess(g)) <= sh.capacity
  }

  function ElasticRoom(sh: Shared): int {
    sh.capacity - sh.part - Total(sh.elastic)
  }

  // --- Steps of one guard ---

  /** How many slots a scan wants to hold. */
  function Goal(g: Guard, path: Path): nat {
    if path.AsBackfill? then path.need else g.weight
  }

  /** The locks but slots a guard holds while it tries for admission. */
  predicate HoldsLock(t: Locks, id: Id, job: Args, path: Path) {
    || t.main.HeldBy(id) || t.queue == Some(id) || t.register == Some(id)
    || (path.AsBackground? && !job.sub && WorkspaceOf(t, job.workspace).HeldBy(id))
  }

  /** `<lock>`, the queue and `register` given back; a background attempt's workspace too. */
  function GiveBack(t: Locks, id: Id, job: Args, path: Path): Locks {
    t.(main := t.main.Leave(id),
       queue := if t.queue == Some(id) then None else t.queue,
       register := if t.register == Some(id) then None else t.register,
       workspaces := if path.AsBackground? && !job.sub
                     then t.workspaces[job.workspace := WorkspaceOf(t, job.workspace).Leave(id)]
                     else t.workspaces)
  }

  /** The way out of an attempt or a lost turn: a backfill gives its slots back first, others last. */
  function Undo(sh: Shared, g: Guard, path: Path): Both {
    if path.AsBackfill? && g.held != [] then DropLast(sh, g)
    else if HoldsLock(sh.locks, g.id, g.job, path) then
      Both(sh.(locks := GiveBack(sh.locks, g.id, g.job, path), heads := Withdraw(sh.heads, g.head)), g.(head := None))
    else if g.held != [] then DropLast(sh, g)
    else Both(sh, g.(phase := if path.AsHead? then Outside else if path.AsBackfill? then Queueing else Arrived))
  }

  function DropLast(sh: Shared, g: Guard): Both
    requires g.held != []
  {
    var slot := g.held[|g.held| - 1];
    Both(sh.(locks := sh.locks.(slots := map k | k in sh.locks.slots && k != slot :: sh.locks.slots[k])),
        g.(held := g.held[..|g.held| - 1]))
  }

  /** An admitted guard lets the next acquirer collect. */
  function LetCollect(t: Locks, id: Id): Locks {
    t.(queue := if t.queue == Some(id) then None else t.queue,
       register := if t.register == Some(id) then None else t.register)
  }

  /** An admitted guard lets the next acquirer collect, waits no longer, then runs its workload. */
  function Settle(sh: Shared, g: Guard, path: Path): Both {
    if sh.locks.register == Some(g.id) || sh.locks.queue == Some(g.id) then
      Both(sh.(locks := LetCollect(sh.locks, g.id), heads := Withdraw(sh.heads, g.head)), g.(head := None))
    else if g.ticket.Some? then LeaveQueue(sh, g)
    else if g.waiting.Some? || g.inLine.Some? then
      Both(sh.(waiting := Withdraw(sh.waiting, g.waiting), line := Withdraw(sh.line, g.inLine)),
           g.(waiting := None, inLine := None))
    else if g.job.sub && g.leaf.None? then
      var name := NewName(sh, g);
      Both(sh.(leaves := Publish(sh.leaves, Entry(name, g.job.workload))),
          g.(leaf := Some(name), serial := g.serial + 1))
    else Both(sh, g.(phase := Running, backfilled := path.AsBackfill?))
  }

  function LeaveQueue(sh: Shared, g: Guard): Both {
    if g.lane == Leaf then Both(sh.(lifelines := Withdraw(sh.lifelines, g.ticket)), g.(ticket := None))
    else Both(sh.(drains := Withdraw(sh.drains, g.ticket)), g.(ticket := None))
  }

  /** A name was taken at one step; its ticket appears at a later one. */
  function PublishTicket(sh: Shared, g: Guard): Both
    requires g.naming.Some?
  {
    var e := Entry(g.naming.value, g.lane);
    Both(if g.lane == Leaf then sh.(lifelines := Publish(sh.lifelines, e)) else sh.(drains := Publish(sh.drains, e)),
         g.(ticket := g.naming, naming := None))
  }

  function TakeName(sh: Shared, g: Guard): Guard {
    g.(naming := Some(NewName(sh, g)), serial := g.serial + 1)
  }

  /** Outside: an elastic guard without room holds up no one; a ticket lane takes a ticket. */
  function StepOutside(sh: Shared, g: Guard): Both {
    if g.job.elastic && g.weight > ElasticRoom(sh) then
      if g.ticket.Some? then LeaveQueue(sh, g)
      else Both(sh.(waiting := Withdraw(sh.waiting, g.waiting), line := Withdraw(sh.line, g.inLine)),
                g.(waiting := None, inLine := None))
    else if g.lane != Normal && g.ticket.None? then Both(sh, TakeName(sh, g))
    else Both(sh, g.(phase := Queueing))
  }

  function StepQueueing(sh: Shared, g: Guard): Both {
    var turn := MyTurn(sh, g);
    var b := LineUp(sh, g, turn);
    if turn && (g.ticket.Some? || FirstInLine(b.sh.line, b.g.inLine.value, sh.clock)) then
      b.(g := b.g.(phase := SawTurn))
    else b
  }

  function StepSawTurn(sh: Shared, g: Guard): Both {
    if sh.locks.queue.None? then
      Both(sh.(locks := sh.locks.(queue := Some(g.id))),
          g.(since := sh.clock, phase := if g.job.exclusive then Deciding else TakingMain(AsHead)))
    else Both(sh, g.(phase := Queueing))
  }

  function StepMain(sh: Shared, g: Guard, path: Path): Both {
    if sh.locks.main.CanShare() then
      Both(sh.(locks := sh.locks.(main := sh.locks.main.Share(g.id))),
          g.(phase := if path.AsHead? then Deciding else Scanning(path, 0)))
    else Both(sh, if path.AsHead? then g else g.(phase := Undoing(path)))
  }

  function StepWorkspace(sh: Shared, g: Guard, then_: Phase, else_: Phase): Both {
    var lock := WorkspaceOf(sh.locks, g.job.workspace);
    if g.job.sharedWorkspace && lock.CanShare() then
      Both(sh.(locks := sh.locks.(workspaces := sh.locks.workspaces[g.job.workspace := lock.Share(g.id)])),
          g.(phase := then_))
    else if !g.job.sharedWorkspace && lock.CanOwn() then
      Both(sh.(locks := sh.locks.(workspaces := sh.locks.workspaces[g.job.workspace := lock.Own(g.id)])),
          g.(phase := then_))
    else Both(sh, g.(phase := else_))
  }

  function StepDeciding(sh: Shared, g: Guard): Both {
    Both(sh, g.(phase := if !MyTurn(sh, g) then Undoing(AsHead)
                         else if g.job.exclusive then Draining else Scanning(AsHead, 0)))
  }

  function StepDraining(sh: Shared, g: Guard): Both {
    if sh.locks.main.CanOwn() then Both(sh.(locks := sh.locks.(main := sh.locks.main.Own(g.id))),
        g.(phase := Admitted(AsHead)))
    else Both(sh, g.(phase := Deciding))
  }

  /** One slot tried, or the end of the scan. */
  function StepScanning(sh: Shared, g: Guard, path: Path, next: nat): Both {
    if next < sh.capacity then
      if |g.held| < Goal(g, path) && next !in sh.locks.slots then
        Both(sh.(locks := sh.locks.(slots := sh.locks.slots[next := g.id])),
            g.(held := g.held + [next], phase := Scanning(path, next + 1)))
      else Both(sh, g.(phase := Scanning(path, next + 1)))
    else
      Both(sh, g.(phase := ScanEnd(sh, g, path)))
  }

  function ScanEnd(sh: Shared, g: Guard, path: Path): Phase {
    match path
    case AsHead => if |g.held| == g.weight then Registering(path)
                   else Dropping(Reserve(g.weight, g.job.ramp, if sh.clock >= g.since then sh.clock - g.since else 0))
    case AsBackfill(want, need) => if want <= |g.held| < need then Surplus(path) else Undoing(path)
    case AsBackground => if |g.held| == g.weight then Registering(path) else Undoing(path)
  }

  /** The head trims to its reservation, then publishes what it lacks (the new entry first). */
  function StepDropping(sh: Shared, g: Guard, keep: nat): Both {
    if |g.held| > keep then DropLast(sh, g)
    else
      var content := Reservation(keep - |g.held|, Max(0, g.weight - |g.held|));
      if g.head.Some? && g.reserved == content then Both(sh, g.(phase := Deciding))
      else
        var name := NewName(sh, g);
        Both(sh.(heads := Publish(sh.heads, Entry(name, content))),
             g.(oldHead := g.head, head := Some(name), reserved := content, serial := g.serial + 1, phase := Announced))
  }

  function StepAnnounced(sh: Shared, g: Guard): Both {
    Both(sh.(heads := Withdraw(sh.heads, g.oldHead)), g.(oldHead := None, phase := Deciding))
  }

  function StepSurplus(sh: Shared, g: Guard, path: Path): Both {
    if |g.held| > g.weight then DropLast(sh, g) else Both(sh, g.(phase := Judging(path)))
  }

  function StepRegistering(sh: Shared, g: Guard, path: Path): Both {
    if sh.locks.register.None? then Both(sh.(locks := sh.locks.(register := Some(g.id))), g.(phase := Judging(path)))
    else Both(sh, if path.AsHead? then g else g.(phase := Undoing(path)))
  }

  /** Whether admit_overcommitted admits this guard. */
  predicate Passes(sh: Shared, g: Guard) {
    if g.job.elastic then g.weight <= ElasticRoom(sh)
    else g.weight == g.declared || g.job.sub || WithinBound(sh, g)
  }

  /** admit_overcommitted, up to the entry it publishes. */
  function StepJudging(sh: Shared, g: Guard, path: Path): Both {
    if g.job.elastic then
      Both(sh, g.(phase := if g.weight <= ElasticRoom(sh) then Publishing(path) else Undoing(path)))
    else if g.weight == g.declared || g.job.sub then Both(sh, g.(phase := Admitted(path)))
    else if WithinBound(sh, g) then Both(sh, g.(phase := Publishing(path)))
    else Both(sh, g.(weight := g.declared, phase := if path.AsHead? then Regrouping else Undoing(path)))
  }

  function StepPublishing(sh: Shared, g: Guard, path: Path): Both {
    var name := NewName(sh, g);
    if g.job.elastic then
      Both(sh.(elastic := Publish(sh.elastic, Entry(name, g.weight))),
           g.(base := Some(name), serial := g.serial + 1, phase := Admitted(path)))
    else
      Both(sh.(running := Publish(sh.running, Entry(name, Excess(g)))),
           g.(registered := Some(name), serial := g.serial + 1, phase := Admitted(path)))
  }

  /** The locks of a guard that is released or dead. */
  function CloseLocks(t: Locks, id: Id): Locks {
    Locks(
      map k | k in t.slots && t.slots[k] != id :: t.slots[k],
      if t.queue == Some(id) then None else t.queue,
      if t.register == Some(id) then None else t.register,
      t.main.Leave(id),
      map w | w in t.workspaces :: t.workspaces[w].Leave(id),
      map w | w in t.lifelines && t.lifelines[w] != id :: t.lifelines[w])
  }

  /** The next step of a guard's own program; a guard whose lock is taken stays where it is. */
  function Advance(sh: Shared, g: Guard): Both {
    if g.naming.Some? then PublishTicket(sh, g)
    else match g.phase
      case Arrived =>
        if g.lane == Background then Both(sh, g)
        else if g.job.sub then Both(sh, g.(phase := Outside))
        else StepWorkspace(sh, g, Outside, Arrived)
      case Outside => StepOutside(sh, g)
      case Queueing => StepQueueing(sh, g)
      case SawTurn => StepSawTurn(sh, g)
      case Offering(want, need) =>
        if sh.locks.register.None? then Both(sh.(locks := sh.locks.(register := Some(g.id))),
            g.(phase := TakingMain(AsBackfill(want, need))))
        else Both(sh, g.(phase := Queueing))
      case TakingWorkspace => StepWorkspace(sh, g, TakingQueue, Undoing(AsBackground))
      case TakingQueue =>
        if sh.locks.queue.None? then Both(sh.(locks := sh.locks.(queue := Some(g.id))),
            g.(phase := TakingMain(AsBackground)))
        else Both(sh, g.(phase := Undoing(AsBackground)))
      case TakingMain(path) => StepMain(sh, g, path)
      case Deciding => StepDeciding(sh, g)
      case Draining => StepDraining(sh, g)
      case Scanning(path, next) => StepScanning(sh, g, path, next)
      case Dropping(keep) => StepDropping(sh, g, keep)
      case Announced => StepAnnounced(sh, g)
      case Surplus(path) => StepSurplus(sh, g, path)
      case Registering(path) => StepRegistering(sh, g, path)
      case Judging(path) => StepJudging(sh, g, path)
      case Publishing(path) => StepPublishing(sh, g, path)
      case Regrouping => Both(sh.(locks := sh.locks.(register := None)), g.(phase := Deciding))
      case Undoing(path) => Undo(sh, g, path)
      case Admitted(path) => Settle(sh, g, path)
      case Running => Both(sh, g)
      case Stopping => Both(sh, g)
      case Closing => Both(sh.(locks := CloseLocks(sh.locks, g.id)), g.(held := [], phase := Gone))
      case Gone => Both(sh, g)
  }

  // --- What else a guard may do between two steps of its program ---

  /** The places where `acquire` waits and looks around. */
  predicate AtWait(g: Guard) {
    && g.naming.None?
    && g.phase in {Arrived, Queueing, Deciding, TakingMain(AsHead), Registering(AsHead)}
  }

  predicate CanPublishWaiting(g: Guard) {
    AtWait(g) && g.lane != Background && g.waiting.None?
  }

  function PublishWaiting(sh: Shared, g: Guard): Both {
    var name := NewName(sh, g);
    Both(sh.(waiting := Publish(sh.waiting, Entry(name, true))), g.(waiting := Some(name), serial := g.serial + 1))
  }

  /** A part takes its workload's lifeline only while no part of that workload runs. */
  predicate CanTakeLifeline(sh: Shared, g: Guard) {
    && AtWait(g) && g.job.sub && g.lane != Leaf
    && g.job.workload !in sh.locks.lifelines
    && (forall e :: e in sh.leaves ==> e.value != g.job.workload)
  }

  function TakeLifeline(sh: Shared, g: Guard): Both {
    var b := LeaveQueue(sh, g);
    Both(b.sh.(locks := b.sh.locks.(lifelines := b.sh.locks.lifelines[g.job.workload := g.id])),
        TakeName(b.sh, b.g.(lane := Leaf)))
  }

  /** A normal guard behind the head may run ahead in what the head's reservation leaves. */
  predicate CanBackfill(sh: Shared, g: Guard) {
    && g.naming.None? && g.phase == Queueing && g.lane == Normal
    && sh.heads != [] && sh.drains == []
    && g.weight + Unmet(sh.heads) < LargestNeed(sh.heads)
  }

  function StartBackfill(sh: Shared, g: Guard): Guard {
    g.(phase := Offering(g.weight + Unmet(sh.heads), LargestNeed(sh.heads)))
  }

  /** A background guard tries only while no other guard waits. */
  predicate CanTryBackground(sh: Shared, g: Guard) {
    && g.naming.None? && g.phase == Arrived && g.lane == Background
    && MyTurn(sh, g) && sh.waiting == []
  }

  function StartBackground(g: Guard): Guard {
    g.(phase := if g.job.sub then TakingQueue else TakingWorkspace)
  }

  /** The backstop stops the youngest overcommitted workload, once per hold-off. */
  predicate CanPreempt(sh: Shared, g: Guard) {
    && g.phase == Running && g.registered.Some?
    && sh.clock - sh.lastPreemption >= PREEMPT_HOLDOFF
    && sh.running != [] && sh.running[|sh.running| - 1].name == g.registered.value
  }

  function Preempt(sh: Shared, g: Guard): Both {
    Both(sh.(running := Withdraw(sh.running, g.registered), lastPreemption := sh.clock),
         g.(registered := None, phase := Stopping))
  }

  /** `release` withdraws every entry first; the locks close with the handles after it. */
  function WithdrawAll(sh: Shared, g: Guard): Both {
    Both(sh.(drains := Withdraw(sh.drains, g.ticket), lifelines := Withdraw(sh.lifelines, g.ticket),
             heads := Withdraw(Withdraw(sh.heads, g.head), g.oldHead),
             waiting := Withdraw(sh.waiting, g.waiting), line := Withdraw(sh.line, g.inLine),
             running := Withdraw(sh.running, g.registered), elastic := Withdraw(sh.elastic, g.base),
             leaves := Withdraw(sh.leaves, g.leaf)),
         g.(naming := None, ticket := None, waiting := None, inLine := None, head := None, oldHead := None,
            registered := None, base := None, leaf := None))
  }

  function Release(sh: Shared, g: Guard): Both {
    var b := WithdrawAll(sh, g);
    b.(g := b.g.(phase := Closing))
  }

  /** A killed guard: the system drops its locks, and its entries are no longer held. */
  function Die(sh: Shared, g: Guard): Both {
    var b := WithdrawAll(sh, g);
    Both(b.sh.(locks := CloseLocks(b.sh.locks, g.id)), b.g.(held := [], phase := Gone))
  }

  /** A guard as it starts to acquire. */
  function Newcomer(capacity: nat, id: Id, a: Args): Guard {
    Guard(id, a, Declared(capacity, a), Arrived, LaneOf(a), Planned(capacity, a), [], 0, None, None, None, None,
        None, None,
          Reservation(0, 0), None, None, None, 0, false)
  }
}
