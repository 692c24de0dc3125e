/**
 All guards of one lock together, and every interleaving of their steps: any guard may take
 any step it can at any time, new guards arrive, time passes, workloads end, guards die.
 */
module Worlds {
  import opened Wrappers
  import opened Charge
  import opened Machine

  datatype World = World(sh: Shared, guards: map<Id, Guard>)

  /** What one guard can do. `Release` is the end of its workload or a refused admission. */
  datatype Action = Advancing | Waiting | Lifeline | Backfilling | Trying | Preempting | Releasing | Dying

  datatype Move = Tick(to: nat) | Arrive(id: Id, job: Args) | Act(id: Id, action: Action)

  predicate Enabled(sh: Shared, g: Guard, a: Action) {
    match a
    case Advancing => true
    case Waiting => CanPublishWaiting(g)
    case Lifeline => CanTakeLifeline(sh, g)
    case Backfilling => CanBackfill(sh, g)
    case Trying => CanTryBackground(sh, g)
    case Preempting => CanPreempt(sh, g)
    case Releasing => g.phase != Closing && g.phase != Gone
    case Dying => g.phase != Gone
  }

  function Perform(sh: Shared, g: Guard, a: Action): Both {
    match a
    case Advancing => Advance(sh, g)
    case Waiting => PublishWaiting(sh, g)
    case Lifeline => TakeLifeline(sh, g)
    case Backfilling => Both(sh, StartBackfill(sh, g))
    case Trying => Both(sh, StartBackground(g))
    case Preempting => Preempt(sh, g)
    case Releasing => Release(sh, g)
    case Dying => Die(sh, g)
  }

  /** An elastic base that leaves no room for one part is refused before it queues. */
  predicate Acceptable(capacity: nat, a: Args) {
    && 1 <= capacity && Parsed(a)
    && (a.elastic ==> Planned(capacity, a) <= capacity - Slots(capacity, PROCESS_MIB))
  }

  predicate CanMove(w: World, m: Move) {
    match m
    case Tick(to) => w.sh.clock <= to
    case Arrive(id, a) => id !in w.guards && Acceptable(w.sh.capacity, a)
    case Act(id, a) => id in w.guards && Enabled(w.sh, w.guards[id], a)
  }

  function After(w: World, m: Move): World
    requires CanMove(w, m)
  {
    match m
    case Tick(to) => w.(sh := w.sh.(clock := to))
    case Arrive(id, a) => w.(guards := w.guards[id := Newcomer(w.sh.capacity, id, a)])
    case Act(id, a) =>
      var b := Perform(w.sh, w.guards[id], a);
      World(b.sh, w.guards[id := b.g])
  }

  function Start(capacity: nat, clock: nat): World {
    World(Shared(capacity, Slots(capacity, PROCESS_MIB), clock, Locks(map[], None, None, UNLOCKED, map[], map[]),
                 [], [], [], [], [], [], [], [], 0), map[])
  }

  /** One move of anyone. */
  ghost predicate Moves(v: World, w: World) {
    exists m :: CanMove(v, m) && w == After(v, m)
  }

  /** Each state is one move after the one before it. */
  ghost predicate IsRun(t: seq<World>) {
    forall i :: 0 <= i < |t| - 1 ==> Moves(t[i], t[i + 1])
  }

  /** `w` is the state after some run of n moves from an unused lock. */
  ghost predicate ReachableIn(capacity: nat, clock: nat, w: World, n: nat)
    decreases n
  {
    if n == 0 then w == Start(capacity, clock)
    else exists v :: ReachableIn(capacity, clock, v, n - 1) && Moves(v, w)
  }

  ghost predicate Reachable(w: World) {
    exists capacity: nat, clock: nat, n: nat :: 1 <= capacity && ReachableIn(capacity, clock, w, n)
  }
}
