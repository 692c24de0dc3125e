/**
 The two budgets over every interleaving: the registered excess of overcommitted workloads and
 the bases of elastic ones. Both are checked under `register` and published while it is still held.
 */
module Bounds {
  import opened Wrappers
  import opened Registries
  import opened Charge
  import opened Machine
  import opened Worlds
  import opened LockBooks
  import opened Phases

  /** Admitted and not being stopped: its entries stand. */
  predicate Standing(p: Phase) {
    p.Admitted? || p.Running?
  }

  ghost predicate ExcessOk(running: seq<Entry<nat>>, g: Guard) {
    && (forall e :: e in running && e.name.pid == g.id ==> g.registered == Some(e.name))
    && (g.registered.Some? ==>
          && Standing(g.phase) && g.registered.value.pid == g.id && g.registered.value.serial < g.serial
          && Entry(g.registered.value, Excess(g)) in running && !g.job.elastic)
  }

  ghost predicate BaseOk(elastic: seq<Entry<nat>>, g: Guard) {
    && (forall e :: e in elastic && e.name.pid == g.id ==> g.base == Some(e.name))
    && (g.base.Some? ==>
          && Standing(g.phase) && g.base.value.pid == g.id && g.base.value.serial < g.serial
          && Entry(g.base.value, g.weight) in elastic && g.job.elastic)
  }

  /** A standing workload is charged what it declared or has registered the rest. */
  ghost predicate AccountedFor(g: Guard) {
    Standing(g.phase) && !g.job.exclusive && !g.job.sub ==>
      if g.job.elastic then g.base.Some? else g.weight == g.declared || g.registered.Some?
  }

  /** What a guard that passed its check may still publish. */
  ghost predicate ClaimOk(sh: Shared, g: Guard) {
    g.phase.Publishing? ==>
      && !g.job.sub
      && (if g.job.elastic then g.weight <= ElasticRoom(sh) else WithinBound(sh, g))
  }

  ghost predicate EntriesOk(w: World) {
    && Sorted(w.sh.running) && Sorted(w.sh.elastic)
    && 2 * Total(w.sh.running) <= w.sh.capacity
    && 0 <= ElasticRoom(w.sh)
    && (forall e :: e in w.sh.running ==> e.name.pid in w.guards)
    && (forall e :: e in w.sh.elastic ==> e.name.pid in w.guards)
    && (forall id :: id in w.guards ==>
          var g := w.guards[id];
          ExcessOk(w.sh.running, g) && BaseOk(w.sh.elastic, g) && AccountedFor(g) && ClaimOk(w.sh, g))
  }

  // --- Steps that publish and withdraw nothing ---

  ghost predicate SameEntries(sh: Shared, g: Guard, b: Both) {
    && b.sh.running == sh.running && b.sh.elastic == sh.elastic && b.sh.capacity == sh.capacity && b.sh.part == sh.part
    && b.g.registered == g.registered && b.g.base == g.base && b.g.serial >= g.serial
  }

  /** How a step may lead to or away from the entries a guard answers for. */
  ghost predicate Follows(sh: Shared, g: Guard, p: Phase, weight: nat) {
    && (Standing(g.phase) ==> Standing(p) && weight == g.weight)
    && (Standing(p) ==>
          && weight == g.weight
          && (Standing(g.phase) || g.phase.Draining?
              || (g.phase.Judging? && !g.job.elastic && (weight == g.declared || g.job.sub))))
    && (p.Publishing? ==>
          && weight == g.weight
          && (g.phase.Publishing?
              || (!g.job.sub && if g.job.elastic then weight <= ElasticRoom(sh) else WithinBound(sh, g))))
  }

  ghost predicate Quiet(sh: Shared, g: Guard, b: Both) {
    SameJob(g, b.g) && SameEntries(sh, g, b) && Follows(sh, g, b.g.phase, b.g.weight)
  }

  lemma JudgingIsQuiet(sh: Shared, g: Guard, path: Path)
    requires g.phase == Judging(path) && (g.job.sub ==> !g.job.elastic)
    ensures Quiet(sh, g, StepJudging(sh, g, path))
  {
    assert StepJudging(sh, g, path).sh == sh;
  }

  /** The ways out of an attempt. */
  predicate IsLeaving(p: Phase) {
    p.Undoing? || p.Admitted? || p.Regrouping?
  }

  /** Neither registers nor withdraws anything, and keeps its charge. */
  ghost predicate SameBooks(sh: Shared, g: Guard, b: Both) {
    SameEntries(sh, g, b) && b.g.weight == g.weight
  }

  lemma LeavingKeepsBooks(sh: Shared, g: Guard)
    requires g.naming.None? && Inside(g.phase) && IsLeaving(g.phase)
    ensures SameBooks(sh, g, Advance(sh, g))
  {
    hide NewName, Withdraw, GiveBack, HoldsLock, LetCollect;
  }

  lemma LeavingIsQuiet(sh: Shared, g: Guard)
    requires g.naming.None? && Inside(g.phase) && IsLeaving(g.phase)
    ensures Quiet(sh, g, Advance(sh, g))
  {
    hide Advance, SameEntries, SameJob;
    InsideKeepsJob(sh, g);
    AdvanceGoes(sh, g);
    LeavingKeepsBooks(sh, g);
  }

  lemma CollectingKeepsBooks(sh: Shared, g: Guard)
    requires g.naming.None? && Inside(g.phase) && !IsLeaving(g.phase) && !g.phase.Publishing? && !g.phase.Judging?
    ensures SameBooks(sh, g, Advance(sh, g))
  {
    hide MyTurn, NewName, Reserve, Goal;
  }

  lemma CollectingIsQuiet(sh: Shared, g: Guard)
    requires g.naming.None? && Inside(g.phase) && !IsLeaving(g.phase) && !g.phase.Publishing? && !g.phase.Judging?
    ensures Quiet(sh, g, Advance(sh, g))
  {
    hide Advance, SameEntries, SameJob;
    InsideKeepsJob(sh, g);
    AdvanceGoes(sh, g);
    CollectingKeepsBooks(sh, g);
  }

  lemma InsideIsQuiet(sh: Shared, g: Guard)
    requires g.naming.None? && Inside(g.phase) && !g.phase.Publishing? && (g.job.sub ==> !g.job.elastic)
    ensures Quiet(sh, g, Advance(sh, g))
  {
    if g.phase.Judging? {
      JudgingIsQuiet(sh, g, g.phase.path);
    } else if IsLeaving(g.phase) {
      LeavingIsQuiet(sh, g);
    } else {
      CollectingIsQuiet(sh, g);
    }
  }

  lemma ApproachKeepsBooks(sh: Shared, g: Guard)
    requires g.naming.None? && Approaching(g.phase)
    ensures SameBooks(sh, g, Advance(sh, g))
  {
    hide MyTurn, FirstInLine, NewName, Withdraw, WorkspaceOf;
  }

  lemma ApproachIsQuiet(sh: Shared, g: Guard)
    requires g.naming.None? && Approaching(g.phase)
    ensures Quiet(sh, g, Advance(sh, g))
  {
    hide Advance, SameEntries, SameJob;
    ApproachKeepsJob(sh, g);
    AdvanceGoes(sh, g);
    ApproachKeepsBooks(sh, g);
  }

  lemma AttemptKeepsBooks(sh: Shared, g: Guard)
    requires g.naming.Some? || (!Approaching(g.phase) && !Inside(g.phase))
    ensures SameBooks(sh, g, Advance(sh, g))
  {
    hide NewName, CloseLocks;
  }

  lemma AttemptIsQuiet(sh: Shared, g: Guard)
    requires g.naming.Some? || (!Approaching(g.phase) && !Inside(g.phase))
    ensures Quiet(sh, g, Advance(sh, g))
  {
    hide Advance, SameEntries, SameJob;
    AdvanceKeepsJob(sh, g);
    AdvanceGoes(sh, g);
    AttemptKeepsBooks(sh, g);
  }

  lemma AdvanceIsQuiet(sh: Shared, g: Guard)
    requires g.naming.Some? || !g.phase.Publishing?
    requires g.job.sub ==> !g.job.elastic
    ensures Quiet(sh, g, Advance(sh, g))
  {
    hide Advance, Quiet;
    if g.naming.None? && Inside(g.phase) {
      InsideIsQuiet(sh, g);
    } else if g.naming.None? && Approaching(g.phase) {
      ApproachIsQuiet(sh, g);
    } else {
      AttemptIsQuiet(sh, g);
    }
  }

  // --- Every step keeps the books on excess and bases ---

  ghost predicate OwnEntriesOk(sh: Shared, g: Guard) {
    ExcessOk(sh.running, g) && BaseOk(sh.elastic, g) && AccountedFor(g) && ClaimOk(sh, g)
  }

  ghost predicate RegistryFrame(r: seq<Entry<nat>>, r': seq<Entry<nat>>, id: Id) {
    && (forall e :: e in r && e.name.pid != id ==> e in r')
    && (forall e :: e in r' && e.name.pid != id ==> e in r)
  }

  ghost predicate EntriesFrame(sh: Shared, sh': Shared, id: Id) {
    && sh'.capacity == sh.capacity && sh'.part == sh.part
    && Sorted(sh'.running) && Sorted(sh'.elastic)
    && RegistryFrame(sh.running, sh'.running, id) && RegistryFrame(sh.elastic, sh'.elastic, id)
  }

  ghost predicate NoMore(sh: Shared, sh': Shared) {
    Total(sh'.running) <= Total(sh.running) && Total(sh'.elastic) <= Total(sh.elastic)
  }

  lemma QuietKeeps(sh: Shared, g: Guard, b: Both)
    requires OwnEntriesOk(sh, g) && Quiet(sh, g, b) && (g.phase.Draining? ==> g.job.exclusive)
    ensures OwnEntriesOk(b.sh, b.g)
  {
  }

  ghost predicate KeepsEntries(sh: Shared, g: Guard, b: Both) {
    && OwnEntriesOk(b.sh, b.g) && EntriesFrame(sh, b.sh, g.id)
    && (NoMore(sh, b.sh) || g.phase.Publishing?)
    && (2 * Total(sh.running) <= sh.capacity ==> 2 * Total(b.sh.running) <= b.sh.capacity)
    && (0 <= ElasticRoom(sh) ==> 0 <= ElasticRoom(b.sh))
  }

  lemma PublishOwn(r: seq<Entry<nat>>, n: Name, x: nat)
    requires Sorted(r) && forall e :: e in r ==> e.name.pid != n.pid
    ensures var s := Publish(r, Entry(n, x));
            && Sorted(s) && Total(s) == Total(r) + x && RegistryFrame(r, s, n.pid) && Entry(n, x) in s
            && forall e :: e in s && e.name.pid == n.pid ==> e.name == n
  {
    PublishAdds(r, Entry(n, x));
    TotalPublish(r, Entry(n, x));
  }

  lemma PublishingBaseKeeps(sh: Shared, g: Guard, path: Path)
    requires Sorted(sh.running) && Sorted(sh.elastic) && OwnEntriesOk(sh, g) && g.phase == Publishing(path)
        && g.job.elastic
    ensures KeepsEntries(sh, g, StepPublishing(sh, g, path))
  {
    PublishOwn(sh.elastic, NewName(sh, g), g.weight);
  }

  lemma PublishingExcessKeeps(sh: Shared, g: Guard, path: Path)
    requires Sorted(sh.running) && Sorted(sh.elastic) && OwnEntriesOk(sh, g) && g.phase == Publishing(path)
        && !g.job.elastic
    ensures KeepsEntries(sh, g, StepPublishing(sh, g, path))
  {
    ExcessIsOwn(sh, g, path);
    assert BaseOk(sh.elastic, StepPublishing(sh, g, path).g);
  }

  lemma ExcessIsOwn(sh: Shared, g: Guard, path: Path)
    requires Sorted(sh.running) && OwnEntriesOk(sh, g) && g.phase == Publishing(path) && !g.job.elastic
    ensures var b := StepPublishing(sh, g, path);
            && ExcessOk(b.sh.running, b.g) && Sorted(b.sh.running) && RegistryFrame(sh.running, b.sh.running, g.id)
            && Total(b.sh.running) == Total(sh.running) + Excess(g)
  {
    PublishOwn(sh.running, NewName(sh, g), Excess(g));
  }

  lemma WithdrawKeeps(r: seq<Entry<nat>>, n: Option<Name>, id: Id)
    requires Sorted(r)
    requires forall e :: e in r && e.name.pid == id ==> n == Some(e.name)
    requires n.Some? ==> n.value.pid == id
    ensures Sorted(Withdraw(r, n)) && RegistryFrame(r, Withdraw(r, n), id)
    ensures forall e :: e in Withdraw(r, n) ==> e in r && e.name.pid != id
    ensures Total(Withdraw(r, n)) <= Total(r)
  {
    if n.Some? {
      UnlinkRemoves(r, n.value);
      TotalUnlink(r, n.value);
    }
  }

  lemma WithdrawAllKeepsEntries(sh: Shared, g: Guard)
    requires Sorted(sh.running) && Sorted(sh.elastic) && ExcessOk(sh.running, g) && BaseOk(sh.elastic, g)
    ensures var b := WithdrawAll(sh, g);
            && EntriesFrame(sh, b.sh, g.id) && NoMore(sh, b.sh)
            && (forall e :: e in b.sh.running ==> e.name.pid != g.id)
            && (forall e :: e in b.sh.elastic ==> e.name.pid != g.id)
  {
    WithdrawKeeps(sh.running, g.registered, g.id);
    WithdrawKeeps(sh.elastic, g.base, g.id);
  }

  lemma PreemptKeepsEntries(sh: Shared, g: Guard)
    requires Sorted(sh.running) && Sorted(sh.elastic) && OwnEntriesOk(sh, g) && CanPreempt(sh, g)
    ensures var b := Preempt(sh, g); OwnEntriesOk(b.sh, b.g) && EntriesFrame(sh, b.sh, g.id) && NoMore(sh, b.sh)
  {
    WithdrawKeeps(sh.running, g.registered, g.id);
  }

  lemma QuietKeepsEntries(sh: Shared, g: Guard, b: Both)
    requires Sorted(sh.running) && Sorted(sh.elastic) && OwnEntriesOk(sh, g)
    requires Quiet(sh, g, b) && (g.phase.Draining? ==> g.job.exclusive)
    ensures KeepsEntries(sh, g, b)
  {
    QuietKeeps(sh, g, b);
  }

  lemma AdvanceKeepsEntries(sh: Shared, g: Guard)
    requires Sorted(sh.running) && Sorted(sh.elastic) && OwnEntriesOk(sh, g)
    requires g.job.sub ==> !g.job.elastic
    requires g.phase.Draining? ==> g.job.exclusive
    ensures KeepsEntries(sh, g, Advance(sh, g))
  {
    hide OwnEntriesOk, KeepsEntries, Quiet, Sorted;
    if g.naming.None? && g.phase.Publishing? {
      if g.job.elastic {
        PublishingBaseKeeps(sh, g, g.phase.path);
      } else {
        PublishingExcessKeeps(sh, g, g.phase.path);
      }
      assert Advance(sh, g) == StepPublishing(sh, g, g.phase.path);
    } else {
      AdvanceIsQuiet(sh, g);
      QuietKeepsEntries(sh, g, Advance(sh, g));
    }
  }

  lemma PerformKeepsEntries(sh: Shared, g: Guard, a: Action)
    requires Sorted(sh.running) && Sorted(sh.elastic) && OwnEntriesOk(sh, g) && Enabled(sh, g, a)
    requires g.job.sub ==> !g.job.elastic
    requires g.lane == Exclusive ==> !g.job.sub
    requires g.phase.Draining? ==> g.job.exclusive
    ensures KeepsEntries(sh, g, Perform(sh, g, a))
  {
    hide Advance, CloseLocks, MyTurn, NewName, Unmet, LargestNeed, Total, Sorted;
    var b := Perform(sh, g, a);
    match a
    case Advancing => AdvanceKeepsEntries(sh, g);
    case Preempting => PreemptKeepsEntries(sh, g);
    case Releasing => WithdrawAllKeepsEntries(sh, g);
    case Dying => WithdrawAllKeepsEntries(sh, g);
    case Waiting => QuietKeepsEntries(sh, g, b);
    case Lifeline => QuietKeepsEntries(sh, g, b);
    case Backfilling => QuietKeepsEntries(sh, g, b);
    case Trying => QuietKeepsEntries(sh, g, b);
  }

  lemma OthersKeepEntries(sh: Shared, sh': Shared, id: Id, g: Guard)
    requires EntriesFrame(sh, sh', id) && g.id != id && OwnEntriesOk(sh, g)
    requires NoMore(sh, sh') || !g.phase.Publishing?
    ensures OwnEntriesOk(sh', g)
  {
  }

  lemma OnePublishes(w: World, i: Id, j: Id)
    requires LocksOk(w) && i in w.guards && j in w.guards && w.guards[i].phase.Publishing?
        && w.guards[j].phase.Publishing?
    ensures i == j
  {
    PublisherHoldsRegister(w.sh, w.guards[i]);
    PublisherHoldsRegister(w.sh, w.guards[j]);
  }

  lemma PublisherHoldsRegister(sh: Shared, g: Guard)
    requires HoldsOk(sh.locks, g) && g.phase.Publishing?
    ensures sh.locks.register == Some(g.id) && !g.job.exclusive
  {
  }

  /** Only the holder of `register` publishes, so a check made under it still holds when it does. */
  lemma BooksStayBalanced(w: World, id: Id, b: Both)
    requires LocksOk(w) && EntriesOk(w) && id in w.guards && b.g.id == id
    requires OwnEntriesOk(b.sh, b.g) && EntriesFrame(w.sh, b.sh, id)
    requires NoMore(w.sh, b.sh) || w.guards[id].phase.Publishing?
    requires 2 * Total(b.sh.running) <= w.sh.capacity && 0 <= ElasticRoom(b.sh)
    ensures EntriesOk(World(b.sh, w.guards[id := b.g]))
  {
    hide Sorted, Total;
    forall j | j in w.guards && j != id
      ensures OwnEntriesOk(b.sh, w.guards[j])
    {
      if w.guards[j].phase.Publishing? && w.guards[id].phase.Publishing? {
        OnePublishes(w, id, j);
      }
      OthersKeepEntries(w.sh, b.sh, id, w.guards[j]);
    }
    forall e | e in b.sh.running
      ensures e.name.pid in w.guards[id := b.g]
    {
      assert e.name.pid != id ==> e in w.sh.running;
    }
    forall e | e in b.sh.elastic
      ensures e.name.pid in w.guards[id := b.g]
    {
      assert e.name.pid != id ==> e in w.sh.elastic;
    }
  }

  lemma ActKeepsEntries(w: World, id: Id, a: Action)
    requires LocksOk(w) && EntriesOk(w) && CanMove(w, Act(id, a))
    ensures EntriesOk(After(w, Act(id, a)))
  {
    var g := w.guards[id];
    var b := Perform(w.sh, g, a);
    assert GuardOk(w.sh, g);
    PerformKeepsEntries(w.sh, g, a);
    PerformKeepsJob(w.sh, g, a);
    BooksStayBalanced(w, id, b);
  }

  lemma NewcomerHasNoEntries(w: World, id: Id, a: Args)
    requires EntriesOk(w) && id !in w.guards
    ensures EntriesOk(World(w.sh, w.guards[id := Newcomer(w.sh.capacity, id, a)]))
  {
    hide Sorted, Total, Declared, Planned, LaneOf;
    forall e | e in w.sh.running || e in w.sh.elastic
      ensures e.name.pid != id
    {
    }
  }

  lemma TimeKeepsEntries(w: World, to: nat)
    requires EntriesOk(w)
    ensures EntriesOk(w.(sh := w.sh.(clock := to)))
  {
    hide Sorted, Total;
  }

  lemma MoveKeepsEntries(w: World, m: Move)
    requires LocksOk(w) && EntriesOk(w) && CanMove(w, m)
    ensures EntriesOk(After(w, m))
  {
    hide EntriesOk, LocksOk;
    match m
    case Tick(to) => TimeKeepsEntries(w, to);
    case Arrive(id, a) => NewcomerHasNoEntries(w, id, a);
    case Act(id, a) => ActKeepsEntries(w, id, a);
  }
}
