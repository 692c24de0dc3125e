/**
 One guard's attempts as the program runs them: an object with its own fields, the lock directory
 it shares, loops over the slots. Each attempt is proved to be a run of the guard's own machine steps
 (`Leads`), so what holds of every interleaving of those steps holds of it, and to do what it is for
 when no other guard moves meanwhile.
 */
module AdmissionGuard {
  import opened Wrappers
  import opened Registries
  import opened Charge
  import opened Machine
  import opened Scans
  import opened LockBooks

  /** The lock directory: what all guards of one lock share. */
  class Directory {
    var sh: Shared

    constructor (initial: Shared)
      ensures sh == initial
    {
      sh := initial;
    }

    method TryFlockSlot(k: nat, id: Id) returns (taken: bool)
      modifies this
      ensures taken == (k !in old(sh.locks.slots))
      ensures sh == if taken then old(sh).(locks := old(sh).locks.(slots := old(sh).locks.slots[k := id])) else old(sh)
    {
      taken := k !in sh.locks.slots;
      if taken {
        sh := sh.(locks := sh.locks.(slots := sh.locks.slots[k := id]));
      }
    }

    method UnlockSlot(k: nat)
      modifies this
      ensures sh == old(sh).(locks := old(sh).locks.(slots := map j | j in old(sh.locks.slots)
          && j != k :: old(sh.locks.slots)[j]))
    {
      sh := sh.(locks := sh.locks.(slots := map j | j in sh.locks.slots && j != k :: sh.locks.slots[j]));
    }
  }

  // --- What one guard took, against the slots as it found them ---

  /** `held` was free in `before` and is this guard's now; nothing else changed. */
  ghost predicate Loan(before: map<nat, Id>, now: map<nat, Id>, id: Id, held: seq<nat>) {
    && Distinct(held)
    && (forall k :: k in before ==> k in now && now[k] == before[k])
    && (forall k :: k in held ==> k !in before && k in now && now[k] == id)
    && (forall k :: k in now ==> k in before || k in held)
  }

  lemma LoanGrows(before: map<nat, Id>, now: map<nat, Id>, id: Id, held: seq<nat>, k: nat)
    requires Loan(before, now, id, held) && k !in now
    ensures Loan(before, now[k := id], id, held + [k])
  {
    assert k !in held;
  }

  lemma LoanShrinks(before: map<nat, Id>, now: map<nat, Id>, id: Id, held: seq<nat>)
    requires Loan(before, now, id, held) && held != []
    ensures Loan(before, map j | j in now && j != held[|held| - 1] :: now[j], id, held[..|held| - 1])
  {
    var n := |held| - 1;
    var now' := map j | j in now && j != held[n] :: now[j];
    assert held[n] in held;
    forall k | k in held[..n]
      ensures k !in before && k in now' && now'[k] == id
    {
      var i :| 0 <= i < n && held[i] == k;
      assert held[i] in held;
    }
    forall k | k in now'
      ensures k in before || k in held[..n]
    {
      if k !in before {
        var i :| 0 <= i <= n && held[i] == k;
        assert held[..n][i] == k;
      }
    }
  }

  /** Giving everything back restores the slots as they were. */
  lemma LoanRepaid(before: map<nat, Id>, now: map<nat, Id>, id: Id)
    requires Loan(before, now, id, [])
    ensures now == before
  {
  }

  lemma {:induction false} LoanCount(before: map<nat, Id>, now: map<nat, Id>, id: Id, held: seq<nat>, capacity: nat)
    requires Loan(before, now, id, held) && forall k :: k in now ==> k < capacity
    ensures FreeSlots(now, 0, capacity) + |held| == FreeSlots(before, 0, capacity)
  {
    if held == [] {
      LoanRepaid(before, now, id);
    } else {
      var n := |held| - 1;
      var slot := held[n];
      assert slot in held;
      var now' := map j | j in now && j != slot :: now[j];
      LoanShrinks(before, now, id, held);
      LoanCount(before, now', id, held[..n], capacity);
      TakingOneLeavesOneLess(now', slot, id, 0, capacity);
      assert now'[slot := id] == now;
    }
  }

  // --- Single steps of a run ---

  /** A whole scan of the machine, with what it borrowed. */
  lemma ScanIsARun(a: Both, path: Path, before: map<nat, Id>)
    requires a.g.phase == Scanning(path, 0) && a.g.naming.None? && |a.g.held| <= Goal(a.g, path)
    requires Loan(before, a.sh.locks.slots, a.g.id, a.g.held)
    ensures var h := ScanFrom(a.sh.locks.slots, a.g.id, a.g.held, Goal(a.g, path), 0, a.sh.capacity);
            && Leads(a, Both(a.sh.(locks := a.sh.locks.(slots := h.slots)),
                a.g.(held := h.held, phase := Scanning(path, a.sh.capacity))))
            && Loan(before, h.slots, a.g.id, h.held)
            && (forall j :: j in h.slots ==> j in a.sh.locks.slots || j < a.sh.capacity)
            && |h.held| == Min(Goal(a.g, path), |a.g.held| + FreeSlots(a.sh.locks.slots, 0, a.sh.capacity))
  {
    SoloScan(a.sh, a.g, path, 0);
    ScanIsALoan(before, a.sh.locks.slots, a.g.id, a.g.held, Goal(a.g, path), 0, a.sh.capacity);
    ScanCollects(a.sh.locks.slots, a.g.id, a.g.held, Goal(a.g, path), 0, a.sh.capacity);
  }

  lemma {:induction false} ScanIsALoan(before: map<nat, Id>, now: map<nat, Id>, id: Id, held: seq<nat>, goal: nat,
      k: nat, capacity: nat)
    requires k <= capacity && Loan(before, now, id, held)
    ensures var h := ScanFrom(now, id, held, goal, k, capacity);
            Loan(before, h.slots, id, h.held) && forall j :: j in h.slots ==> j in now || j < capacity
    decreases capacity - k
  {
    if k < capacity {
      if |held| < goal && k !in now {
        LoanGrows(before, now, id, held, k);
        ScanIsALoan(before, now[k := id], id, held + [k], goal, k + 1, capacity);
      } else {
        ScanIsALoan(before, now, id, held, goal, k + 1, capacity);
      }
    }
  }

  /** The next step of a guard that holds more than n slots gives one back. */
  ghost predicate GivesBackTo(b: Both, n: nat) {
    && b.g.naming.None?
    && (|| b.g.phase == Dropping(n)
        || (b.g.phase.Surplus? && n == b.g.weight)
        || (b.g.phase.Undoing? && n == 0
            && (b.g.phase.path.AsBackfill? || !HoldsLock(b.sh.locks, b.g.id, b.g.job, b.g.phase.path))))
  }

  lemma GivingBackIsAStep(a: Both, n: nat)
    requires GivesBackTo(a, n) && |a.g.held| > n
    ensures Advance(a.sh, a.g) == DropLast(a.sh, a.g) && GivesBackTo(DropLast(a.sh, a.g), n)
  {
  }

  /** Slots given back, the last taken first, down to n. */
  function DropDown(slots: map<nat, Id>, held: seq<nat>, n: nat): Haul
    decreases |held|
  {
    if |held| <= n then Haul(slots, held) else
      var slot := held[|held| - 1];
      DropDown(map k | k in slots && k != slot :: slots[k], held[..|held| - 1], n)
  }

  lemma {:induction false} DropIsARun(a: Both, n: nat, before: map<nat, Id>)
    requires GivesBackTo(a, n) && Loan(before, a.sh.locks.slots, a.g.id, a.g.held)
    ensures var h := DropDown(a.sh.locks.slots, a.g.held, n);
            && Leads(a, Both(a.sh.(locks := a.sh.locks.(slots := h.slots)), a.g.(held := h.held)))
            && Loan(before, h.slots, a.g.id, h.held)
            && h.held == a.g.held[..Min(n, |a.g.held|)] && (forall k :: k in h.slots ==> k in a.sh.locks.slots)
    decreases |a.g.held|
  {
    NoStep(a);
    if |a.g.held| <= n {
      assert a.sh.(locks := a.sh.locks.(slots := a.sh.locks.slots)) == a.sh;
    } else {
      var b := DropLast(a.sh, a.g);
      LoanShrinks(before, a.sh.locks.slots, a.g.id, a.g.held);
      GivingBackIsAStep(a, n);
      OneStep(a, a, b);
      DropIsARun(b, n, before);
      var h := DropDown(a.sh.locks.slots, a.g.held, n);
      LeadsOn(a, b, Both(a.sh.(locks := a.sh.locks.(slots := h.slots)), a.g.(held := h.held)));
    }
  }

  lemma OneStep(start: Both, at: Both, next: Both)
    requires Leads(start, at) && next == Advance(at.sh, at.g)
    ensures Leads(start, next)
  {
    LeadsByOne(at);
    LeadsOn(start, at, next);
  }

  lemma NoStep(a: Both)
    ensures Leads(a, a)
  {
    assert Solo(a.sh, a.g, 0) == a;
  }

  /** admit_overcommitted as a whole: what it decides, and the entry it publishes if it admits. */
  function Judge(sh: Shared, g: Guard, path: Path): Both {
    var b := StepJudging(sh, g, path);
    if b.g.phase.Publishing? then StepPublishing(b.sh, b.g, path) else b
  }

  lemma JudgeIsARun(a: Both, path: Path)
    requires a.g.phase == Judging(path) && a.g.naming.None?
    ensures Leads(a, Judge(a.sh, a.g, path))
    ensures var b := Judge(a.sh, a.g, path);
            && b.sh.locks == a.sh.locks && b.g.held == a.g.held && b.g.naming.None? && b.g.id == a.g.id
            && b.g.job == a.g.job
            && b.sh.capacity == a.sh.capacity
            && (Passes(a.sh, a.g) ==> b.g.phase == Admitted(path) && b.g.weight == a.g.weight)
            && (!Passes(a.sh, a.g) ==> b.g.phase in {Undoing(path), Regrouping})
            && (!Passes(a.sh, a.g) && !path.AsHead? ==> b.g.phase == Undoing(path))
  {
    hide Withdraw, MyTurn, Excess;
    var b := StepJudging(a.sh, a.g, path);
    NoStep(a);
    OneStep(a, a, b);
    if b.g.phase.Publishing? {
      OneStep(a, b, StepPublishing(b.sh, b.g, path));
    }
  }

  /** `register` and `<lock>` taken for a backfill: the first two steps of its attempt. */
  lemma BackfillOpens(a: Both, want: nat, need: nat)
    requires a.g.phase == Offering(want, need) && a.g.naming.None? && a.sh.locks.register.None?
    ensures var t := a.sh.locks.(register := Some(a.g.id));
            var path := AsBackfill(want, need);
            if a.sh.locks.main.CanShare() then
              Leads(a, Both(a.sh.(locks := t.(main := t.main.Share(a.g.id))), a.g.(phase := Scanning(path, 0))))
            else Leads(a, Both(a.sh.(locks := t), a.g.(phase := Undoing(path))))
  {
    var b := Advance(a.sh, a.g);
    NoStep(a);
    OneStep(a, a, b);
    OneStep(a, b, StepMain(b.sh, b.g, AsBackfill(want, need)));
  }

  /** The last two steps of an attempt that failed: its locks, then back to the queue loop. */
  lemma BackfillCloses(start: Both, a: Both, path: Path)
    requires Leads(start, a) && a.g.phase == Undoing(path) && path.AsBackfill? && a.g.naming.None?
    requires a.g.held == [] && a.g.head.None? && a.sh.locks.register == Some(a.g.id) && a.sh.locks.queue != Some(a.g.id)
    ensures Leads(start, Both(a.sh.(locks := a.sh.locks.(main := a.sh.locks.main.Leave(a.g.id), register := None)),
                              a.g.(phase := Queueing)))
  {
    var b := Undo(a.sh, a.g, path);
    OneStep(start, a, b);
    assert a.g.(head := None) == a.g;
    OneStep(start, b, Undo(b.sh, b.g, path));
  }

  /** What a head says that trimmed to `keep`: the part of it that it lacks, and all that it lacks. */
  function Lacking(g: Guard, keep: nat): Reservation
    requires |g.held| <= keep
  {
    Reservation(keep - |g.held|, Max(0, g.weight - |g.held|))
  }

  /** A new head entry in place of the old one. */
  function Replaced(b: Both, content: Reservation): Both {
    var name := NewName(b.sh, b.g);
    Both(b.sh.(heads := Withdraw(Publish(b.sh.heads, Entry(name, content)), b.g.head)),
         b.g.(oldHead := None, head := Some(name), reserved := content, serial := b.g.serial + 1, phase := Deciding))
  }

  /** The steps by which a head says it, with both entries in place between them. */
  function Announce(b: Both, keep: nat): Both
    requires |b.g.held| <= keep
  {
    var content := Lacking(b.g, keep);
    if b.g.head.Some? && b.g.reserved == content then b.(g := b.g.(phase := Deciding)) else Replaced(b, content)
  }

  lemma PublishHeadIsARun(a: Both, keep: nat)
    requires a.g.phase == Dropping(keep) && |a.g.held| <= keep && a.g.naming.None?
    ensures Leads(a, Announce(a, keep))
  {
    var b := StepDropping(a.sh, a.g, keep);
    NoStep(a);
    OneStep(a, a, b);
    if b.g.phase.Announced? {
      OneStep(a, b, StepAnnounced(b.sh, b.g));
    }
  }

  /** A head's name stands for what it said last. */
  ghost predicate Announces(sh: Shared, g: Guard) {
    g.head.Some? ==> Entry(g.head.value, g.reserved) in sh.heads
  }

  /** The registry after an announcement: the entry that says it, in place of this guard's older one. */
  ghost predicate IsAnnounced(before: seq<Entry<Reservation>>, older: Option<Name>, now: seq<Entry<Reservation>>,
      e: Entry<Reservation>) {
    && e in now
    && (forall x :: x in now ==> x == e || x in before)
    && (forall x :: x in before && older != Some(x.name) ==> x in now)
    && (older.Some? && older != Some(e.name) ==> Absent(now, older.value))
  }

  lemma AnnounceSays(b: Both, keep: nat)
    requires |b.g.held| <= keep && Announces(b.sh, b.g)
    requires Sorted(b.sh.heads) && Absent(b.sh.heads, NewName(b.sh, b.g))
    ensures var c := Announce(b, keep);
            && c.g.head.Some? && c.g.reserved == Lacking(b.g, keep) && c.g.phase == Deciding
            && IsAnnounced(b.sh.heads, b.g.head, c.sh.heads, Entry(c.g.head.value, c.g.reserved))
            && c.sh == b.sh.(heads := c.sh.heads)
  {
    hide Passes, Publish, Sorted;
    var e := Entry(NewName(b.sh, b.g), Lacking(b.g, keep));
    PublishAdds(b.sh.heads, e);
    if b.g.head.Some? {
      UnlinkRemoves(Publish(b.sh.heads, e), b.g.head.value);
    }
  }

  /** The same locks held by the same guards. */
  ghost predicate Agree(s: Locks, t: Locks) {
    && s.(workspaces := t.workspaces) == t
    && forall w: nat :: WorkspaceOf(s, w) == WorkspaceOf(t, w)
  }

  predicate CanTakeWorkspace(t: Locks, a: Args) {
    var lock := WorkspaceOf(t, a.workspace);
    if a.sharedWorkspace then lock.CanShare() else lock.CanOwn()
  }

  lemma BackgroundLetsGo(start: Both, a: Both)
    requires Leads(start, a) && a.g.phase == Undoing(AsBackground) && a.g.naming.None? && a.g.head.None?
    requires HoldsLock(a.sh.locks, a.g.id, a.g.job, AsBackground)
    ensures var t := GiveBack(a.sh.locks, a.g.id, a.g.job, AsBackground);
            Leads(start, Both(a.sh.(locks := t), a.g)) && !HoldsLock(t, a.g.id, a.g.job, AsBackground)
  {
    var b := Undo(a.sh, a.g, AsBackground);
    assert a.g.(head := None) == a.g;
    OneStep(start, a, b);
  }

  /** `Admission`: one guard's admission, from the queue loop on. */
  class Admission {
    const dir: Directory
    const id: Id
    const job: Args
    const declared: nat
    var lane: Lane
    var weight: nat
    var held: seq<nat>
    var serial: nat
    var naming: Option<Name>
    var ticket: Option<Name>
    var waiting: Option<Name>
    var inLine: Option<Name>
    var head: Option<Name>
    var oldHead: Option<Name>
    var reserved: Reservation
    var registered: Option<Name>
    var base: Option<Name>
    var leaf: Option<Name>
    var since: nat
    var backfilled: bool
    ghost var phase: Phase

    constructor (d: Directory, pid: Id, a: Args)
      requires 1 <= d.sh.capacity
      ensures dir == d && id == pid && job == a
      ensures Value() == Newcomer(d.sh.capacity, pid, a)
    {
      dir, id, job, declared := d, pid, a, Declared(d.sh.capacity, a);
      lane, weight, held, serial := LaneOf(a), Planned(d.sh.capacity, a), [], 0;
      naming, ticket, waiting, inLine, head, oldHead := None, None, None, None, None, None;
      reserved, registered, base, leaf, since, backfilled := Reservation(0, 0), None, None, None, 0, false;
      phase := Arrived;
    }

    /** This guard as the machine sees it. */
    ghost function Value(): Guard
      reads this
    {
      Guard(id, job, declared, phase, lane, weight, held, serial, naming, ticket, waiting, inLine, head, oldHead,
            reserved, registered, base, leaf, since, backfilled)
    }

    ghost function State(): Both
      reads this, dir
    {
      Both(dir.sh, Value())
    }

    // --- Reading the registries ---

    method QueuedTicketNames() returns (queued: seq<Entry<Lane>>)
      ensures queued == QueuedTickets(dir.sh)
    {
      var drains := dir.sh.drains;
      var cut := 0;
      while cut < |drains| && drains[cut].value != Exclusive
        invariant cut <= |drains|
        invariant FirstExclusive(drains) == cut + FirstExclusive(drains[cut..])
      {
        assert drains[cut..][1..] == drains[cut + 1..];
        cut := cut + 1;
      }
      queued := drains[..cut] + dir.sh.lifelines + drains[cut..];
    }

    method HasTurn() returns (turn: bool)
      ensures turn == MyTurn(dir.sh, Value())
    {
      var queued := QueuedTicketNames();
      if queued == [] {
        return true;
      }
      if ticket.Some? {
        return queued[0].name == ticket.value;
      }
      for i := 0 to |queued|
        invariant forall j :: 0 <= j < i ==> IsLifeline(queued[j])
      {
        if !IsLifeline(queued[i]) {
          assert queued[i] in queued;
          return false;
        }
      }
      if waiting.None? {
        return false;
      }
      for i := 0 to |queued|
        invariant forall j :: 0 <= j < i ==> Before(waiting.value, queued[j].name)
      {
        if !Before(waiting.value, queued[i].name) {
          assert queued[i] in queued;
          return false;
        }
      }
      var bases := Bases();
      turn := weight + bases <= dir.sh.capacity;
    }

    method Bases() returns (sum: nat)
      ensures sum == Total(dir.sh.elastic)
    {
      sum := SumOf(dir.sh.elastic);
    }

    static method SumOf(r: seq<Entry<nat>>) returns (sum: nat)
      ensures sum == Total(r)
    {
      sum := 0;
      for i := 0 to |r|
        invariant sum + Total(r[i..]) == Total(r)
      {
        assert r[i..][1..] == r[i + 1..];
        sum := sum + r[i].value;
      }
    }

    /** The heads' unmet reservations together, and the largest need among them. */
    method HeadReservations() returns (unmet: nat, need: nat)
      ensures unmet == Unmet(dir.sh.heads) && need == LargestNeed(dir.sh.heads)
    {
      var heads := dir.sh.heads;
      unmet, need := 0, 0;
      for i := 0 to |heads|
        invariant unmet + Unmet(heads[i..]) == Unmet(heads)
        invariant Max(need, LargestNeed(heads[i..])) == LargestNeed(heads)
      {
        assert heads[i..][1..] == heads[i + 1..];
        unmet := unmet + heads[i].value.unmet;
        need := Max(need, heads[i].value.need);
      }
    }

    // --- Loops over the slots ---

    /** Tries every slot once, in order, until the goal of this phase is held. */
    method Scan(path: Path, ghost before: map<nat, Id>)
      requires phase == Scanning(path, 0) && naming.None?
      requires |held| <= Goal(Value(), path) && Loan(before, dir.sh.locks.slots, id, held)
      modifies this`held, this`phase, dir
      ensures phase == Scanning(path, dir.sh.capacity)
      ensures Loan(before, dir.sh.locks.slots, id, held)
      ensures forall k :: k in dir.sh.locks.slots ==> k in old(dir.sh.locks.slots) || k < dir.sh.capacity
      ensures |held| == Min(Goal(old(Value()), path),
          |old(held)| + FreeSlots(old(dir.sh.locks.slots), 0, dir.sh.capacity))
      ensures dir.sh == old(dir.sh).(locks := old(dir.sh.locks).(slots := dir.sh.locks.slots))
      ensures Leads(old(State()), State())
    {
      hide Loan, MyTurn;
      ghost var start := State();
      ScanIsARun(start, path, before);
      var goal := if path.AsBackfill? then path.need else weight;
      for k := 0 to dir.sh.capacity
        invariant dir.sh == start.sh.(locks := start.sh.locks.(slots := dir.sh.locks.slots))
        invariant ScanFrom(dir.sh.locks.slots, id, held, goal, k, start.sh.capacity)
               == ScanFrom(start.sh.locks.slots, id, start.g.held, goal, 0, start.sh.capacity)
      {
        if |held| < goal {
          var taken := dir.TryFlockSlot(k, id);
          if taken {
            held := held + [k];
          }
        }
      }
      phase := Scanning(path, dir.sh.capacity);
    }

    /** Gives slots back, the last taken first, until n are held. */
    method DropTo(n: nat, ghost before: map<nat, Id>)
      requires GivesBackTo(State(), n) && Loan(before, dir.sh.locks.slots, id, held)
      modifies this`held, dir
      ensures held == old(held)[..Min(n, |old(held)|)]
      ensures Loan(before, dir.sh.locks.slots, id, held)
      ensures dir.sh == old(dir.sh).(locks := old(dir.sh.locks).(slots := dir.sh.locks.slots))
      ensures forall k :: k in dir.sh.locks.slots ==> k in old(dir.sh.locks.slots)
      ensures Leads(old(State()), State())
    {
      ghost var start := State();
      DropIsARun(start, n, before);
      while |held| > n
        invariant dir.sh == start.sh.(locks := start.sh.locks.(slots := dir.sh.locks.slots))
        invariant DropDown(dir.sh.locks.slots, held, n) == DropDown(start.sh.locks.slots, start.g.held, n)
      {
        var slot := held[|held| - 1];
        dir.UnlockSlot(slot);
        held := held[..|held| - 1];
      }
    }

    // --- Admission ---

    /** Whether the registered excess stays within half the budget with this guard's. */
    method IsWithinBound() returns (ok: bool)
      ensures ok == WithinBound(dir.sh, Value())
    {
      var excess := SumOf(dir.sh.running);
      ok := 2 * (excess + Max(0, declared - weight)) <= dir.sh.capacity;
    }

    /** A workload that overcommits passes only within the bound; an elastic one only into room for its base. */
    method AdmitOvercommitted(ghost path: Path) returns (ok: bool)
      requires phase == Judging(path) && naming.None?
      modifies this, dir
      ensures ok == old(Passes(dir.sh, Value()))
      ensures State() == old(Judge(dir.sh, Value(), path))
      ensures Leads(old(State()), State())
    {
      JudgeIsARun(State(), path);
      if job.elastic {
        ok := RegisterElastic(path);
      } else if weight == declared || job.sub {
        phase := Admitted(path);
        ok := true;
      } else {
        ok := RegisterExcess(path);
      }
    }

    method RegisterElastic(ghost path: Path) returns (ok: bool)
      requires phase == Judging(path) && job.elastic
      modifies this, dir
      ensures ok == old(Passes(dir.sh, Value()))
      ensures State() == old(Judge(dir.sh, Value(), path))
    {
      var bases := Bases();
      ok := weight <= dir.sh.capacity - dir.sh.part - bases;
      if ok {
        var name := Name(dir.sh.clock, id, serial);
        dir.sh := dir.sh.(elastic := Publish(dir.sh.elastic, Entry(name, weight)));
        base, serial := Some(name), serial + 1;
      }
      phase := if ok then Admitted(path) else Undoing(path);
    }

    method RegisterExcess(ghost path: Path) returns (ok: bool)
      requires phase == Judging(path) && !job.elastic && !job.sub && weight != declared
      modifies this, dir
      ensures ok == old(WithinBound(dir.sh, Value()))
      ensures State() == old(Judge(dir.sh, Value(), path))
    {
      hide Max;
      ok := IsWithinBound();
      if ok {
        var name := Name(dir.sh.clock, id, serial);
        dir.sh := dir.sh.(running := Publish(dir.sh.running, Entry(name, Max(0, declared - weight))));
        registered, serial := Some(name), serial + 1;
        phase := Admitted(path);
      } else {
        weight := declared;
        phase := if path.AsHead? then Regrouping else Undoing(path);
      }
    }

    /** Free to run ahead: nothing of this guard's is in the lock table but its workspace. */
    ghost predicate Unburdened()
      reads this, dir
    {
      && naming.None? && held == [] && head.None?
      && dir.sh.locks.queue != Some(id) && dir.sh.locks.register != Some(id) && !dir.sh.locks.main.HeldBy(id)
      && (forall k :: k in dir.sh.locks.slots ==> k < dir.sh.capacity && dir.sh.locks.slots[k] != id)
    }

    /**
     A normal guard behind the head runs ahead of it: all its slots at once or nothing, and only if
     the head's unmet reservation stays free besides them and the free slots would not admit the
     head now.
     */
    method Backfill() returns (ok: bool)
      requires phase == Queueing && Unburdened()
      modifies this, dir
      ensures var free := FreeSlots(old(dir.sh.locks.slots), 0, old(dir.sh.capacity));
              ok <==> (&& old(CanBackfill(dir.sh, Value())) && old(dir.sh.locks.register).None?
                  && old(dir.sh.locks.main).CanShare()
                       && old(weight + Unmet(dir.sh.heads)) <= free < old(LargestNeed(dir.sh.heads))
                       && old(Passes(dir.sh, Value())))
      ensures ok ==> HoldsItsSlots(old(dir.sh), old(Value()), old(Unmet(dir.sh.heads)))
      ensures !ok ==> dir.sh == old(dir.sh) && Value() == old(Value()).(weight := weight)
      ensures !ok ==> weight == declared || weight == old(weight)
      ensures old(CanBackfill(dir.sh, Value())) ==> Leads(old(Both(dir.sh, StartBackfill(dir.sh, Value()))), State())
    {
      hide Judge, GiveBack, FreeSlots, Loan;
      var unmet, need := HeadReservations();
      var want := weight + unmet;
      if lane != Normal || dir.sh.heads == [] || dir.sh.drains != [] || want >= need {
        return false;
      }
      ghost var before := dir.sh;
      phase := Offering(want, need);
      ghost var start := State();
      NoStep(start);
      if dir.sh.locks.register.Some? {
        phase := Queueing;
        OneStep(start, start, State());
        return false;
      }
      ok := BackfillUnderRegister(want, need);
    }

    /** Under way: `register` is this guard's, and beside it only slots on loan and perhaps `<lock>`. */
    ghost predicate Attempting(before: Shared)
      reads this, dir
    {
      var t := dir.sh.locks;
      && naming.None? && head.None? && t.register == Some(id) && t.queue != Some(id) && before.locks.register.None?
      && dir.sh == before.(locks := before.locks.(register := t.register, main := t.main, slots := t.slots))
      && t.main.Leave(id) == before.locks.main
      && Loan(before.locks.slots, t.slots, id, held) && (forall k :: k in t.slots ==> k < before.capacity)
    }

    /** Admitted ahead of the head: it has its slots and `<lock>`, others may admit, and so many slots are left. */
    ghost predicate HoldsItsSlots(before: Shared, g: Guard, left: int)
      reads this, dir
    {
      && phase.Admitted? && weight == g.weight == |held| && id in dir.sh.locks.main.readers
      && dir.sh.locks.register.None?
      && Loan(before.locks.slots, dir.sh.locks.slots, id, held)
      && FreeSlots(dir.sh.locks.slots, 0, dir.sh.capacity) >= left
    }

    /** A refused attempt gives back its slots, `<lock>` and `register`: all is as it was. */
    method CloseBackfill(ghost path: Path, ghost before: Shared, ghost start: Both)
      requires phase == Undoing(path) && path.AsBackfill? && Attempting(before) && Leads(start, State())
      modifies this, dir
      ensures dir.sh == before && Value() == old(Value()).(phase := Queueing, held := [])
      ensures Leads(start, State())
    {
      hide Loan, Solo;
      ghost var entry := State();
      DropTo(0, before.locks.slots);
      LeadsOn(start, entry, State());
      LoanRepaid(before.locks.slots, dir.sh.locks.slots, id);
      BackfillCloses(start, State(), path);
      dir.sh := dir.sh.(locks := dir.sh.locks.(main := dir.sh.locks.main.Leave(id), register := None));
      phase := Queueing;
    }

    /** `register` taken, and `<lock>` if it can be shared. */
    method OpenBackfill(want: nat, need: nat, ghost before: Shared) returns (shared: bool)
      requires phase == Offering(want, need) && Unburdened() && dir.sh.locks.register.None? && dir.sh == before
      modifies this`phase, dir
      ensures shared == before.locks.main.CanShare()
      ensures Value() == old(Value()).(phase := if shared then Scanning(AsBackfill(want, need), 0)
                                                else Undoing(AsBackfill(want, need)))
      ensures Attempting(before) && dir.sh.locks.slots == before.locks.slots
      ensures shared ==> id in dir.sh.locks.main.readers
      ensures Leads(old(State()), State())
    {
      BackfillOpens(State(), want, need);
      assert before.locks.main.Leave(id) == before.locks.main;
      dir.sh := dir.sh.(locks := dir.sh.locks.(register := Some(id)));
      shared := dir.sh.locks.main.CanShare();
      if shared {
        dir.sh := dir.sh.(locks := dir.sh.locks.(main := dir.sh.locks.main.Share(id)));
        assert dir.sh.locks.main.Leave(id) == before.locks.main;
        phase := Scanning(AsBackfill(want, need), 0);
      } else {
        phase := Undoing(AsBackfill(want, need));
      }
    }

    method BackfillUnderRegister(want: nat, need: nat) returns (ok: bool)
      requires phase == Offering(want, need) && Unburdened() && dir.sh.locks.register.None? && weight <= want
      modifies this, dir
      ensures var free := FreeSlots(old(dir.sh.locks.slots), 0, old(dir.sh.capacity));
              ok <==> old(dir.sh.locks.main).CanShare() && want <= free < need && old(Passes(dir.sh, Value()))
      ensures ok ==> HoldsItsSlots(old(dir.sh), old(Value()), want - old(weight))
      ensures !ok ==> dir.sh == old(dir.sh) && Value() == old(Value()).(phase := Queueing, weight := weight)
      ensures !ok ==> weight == declared || weight == old(weight)
      ensures Leads(old(State()), State())
    {
      hide FreeSlots, MyTurn, Withdraw, Goal, Solo;
      ghost var before := dir.sh;
      ghost var start := State();
      ok := OpenBackfill(want, need, before);
      if ok {
        ghost var at := State();
        ok := BackfillScanned(want, need, before);
        LeadsOn(start, at, State());
      } else {
        CloseBackfill(AsBackfill(want, need), before, start);
      }
    }

    /** Under `register` and `<lock>`: the scan decides whether the free slots are enough, and not too many. */
    method BackfillScanned(want: nat, need: nat, ghost before: Shared) returns (ok: bool)
      requires phase == Scanning(AsBackfill(want, need), 0) && weight <= want && held == [] && Attempting(before)
      requires id in dir.sh.locks.main.readers && dir.sh.locks.slots == before.locks.slots
      modifies this, dir
      ensures ok <==> want <= FreeSlots(before.locks.slots, 0, before.capacity) < need && old(Passes(before, Value()))
      ensures ok ==> HoldsItsSlots(before, old(Value()), want - old(weight))
      ensures !ok ==> dir.sh == before && Value() == old(Value()).(phase := Queueing, weight := weight)
      ensures !ok ==> weight == declared || weight == old(weight)
      ensures Leads(old(State()), State())
    {
      ghost var start := State();
      var path := AsBackfill(want, need);
      ok := ScanForBackfill(path, before);
      if ok {
        ok := KeepAndJudge(path, before, start);
      } else {
        CloseBackfill(path, before, start);
      }
    }

    method ScanForBackfill(path: Path, ghost before: Shared) returns (enough: bool)
      requires path.AsBackfill? && phase == Scanning(path, 0) && held == [] && Attempting(before)
      requires dir.sh.locks.slots == before.locks.slots
      modifies this`held, this`phase, dir
      ensures |held| == Min(path.need, FreeSlots(before.locks.slots, 0, before.capacity))
      ensures enough <==> path.want <= |held| < path.need
      ensures Value() == old(Value()).(phase := if enough then Surplus(path) else Undoing(path), held := held)
      ensures Attempting(before) && dir.sh.locks.main == old(dir.sh.locks.main)
      ensures Leads(old(State()), State())
    {
      hide FreeSlots, Loan;
      ghost var start := State();
      Scan(path, before.locks.slots);
      enough := path.want <= |held| < path.need;
      EndBackfillScan(path, before, start, enough);
    }

    method EndBackfillScan(ghost path: Path, ghost before: Shared, ghost start: Both, ghost enough: bool)
      requires path.AsBackfill? && phase == Scanning(path, dir.sh.capacity) && Attempting(before)
          && Leads(start, State())
      requires enough == (path.want <= |held| < path.need)
      modifies this`phase
      ensures Value() == old(Value()).(phase := if enough then Surplus(path) else Undoing(path))
      ensures Attempting(before) && Leads(start, State())
    {
      ghost var scanned := State();
      phase := if enough then Surplus(path) else Undoing(path);
      OneStep(start, scanned, State());
    }

    /** It keeps its weight of the slots it found. */
    method KeepWeight(ghost path: Path, ghost before: Shared, ghost start: Both)
      requires phase == Surplus(path) && path.AsBackfill? && Attempting(before) && weight <= |held|
      requires Leads(start, State())
      modifies this, dir
      ensures Attempting(before) && Value() == old(Value()).(phase := Judging(path), held := old(held)[..old(weight)])
      ensures dir.sh.locks.main == old(dir.sh.locks.main)
      ensures Leads(start, State())
    {
      hide Loan, Reserve, WorkspaceOf;
      ghost var entry := State();
      DropTo(weight, before.locks.slots);
      LeadsOn(start, entry, State());
      ghost var trimmed := State();
      phase := Judging(path);
      OneStep(start, trimmed, State());
    }

    /** It keeps its weight, and the bound decides. */
    method KeepAndJudge(ghost path: Path, ghost before: Shared, ghost start: Both) returns (ok: bool)
      requires phase == Surplus(path) && path.AsBackfill? && Attempting(before) && weight <= |held|
      requires id in dir.sh.locks.main.readers && |held| <= FreeSlots(before.locks.slots, 0, before.capacity)
          && Leads(start, State())
      modifies this, dir
      ensures ok == old(Passes(before, Value()))
      ensures ok ==> HoldsItsSlots(before, old(Value()), |old(held)| - old(weight))
      ensures !ok ==> dir.sh == before && Value() == old(Value()).(phase := Queueing, held := [], weight := weight)
      ensures !ok ==> weight == declared || weight == old(weight)
      ensures Leads(start, State())
    {
      KeepWeight(path, before, start);
      ok := JudgeBackfill(path, before, start);
      if ok {
        LoanCount(before.locks.slots, dir.sh.locks.slots, id, held, dir.sh.capacity);
      }
    }

    method JudgeBackfill(ghost path: Path, ghost before: Shared, ghost start: Both) returns (ok: bool)
      requires phase == Judging(path) && path.AsBackfill? && Attempting(before) && |held| == weight
      requires id in dir.sh.locks.main.readers && Leads(start, State())
      modifies this, dir
      ensures ok == old(Passes(before, Value()))
      ensures ok ==> phase.Admitted? && weight == old(weight) && held == old(held)
      ensures ok ==> dir.sh.locks == LetCollect(old(dir.sh.locks), id) && dir.sh.capacity == old(dir.sh.capacity)
      ensures !ok ==> dir.sh == before && Value() == old(Value()).(phase := Queueing, held := [], weight := weight)
      ensures !ok ==> weight == declared || weight == old(weight)
      ensures Leads(start, State())
    {
      hide Solo;
      ghost var judging := State();
      JudgeIsARun(judging, path);
      ok := AdmitOvercommitted(path);
      LeadsOn(start, judging, State());
      if ok {
        ghost var judged := State();
        dir.sh := dir.sh.(locks := LetCollect(dir.sh.locks, id));
        OneStep(start, judged, State());
      } else {
        CloseBackfill(path, before, start);
      }
    }

    // --- The queue head ---

    /**
     The head says what it reserves and lacks: an entry with that is in the registry under its name and its older
     one is gone, no other entry is touched. The new one comes first: a reader may count both, never neither.
     */
    method PublishHead(keep: nat)
      requires phase == Dropping(keep) && |held| <= keep && naming.None? && Announces(dir.sh, Value())
      requires Sorted(dir.sh.heads) && Absent(dir.sh.heads, Name(dir.sh.clock, id, serial))
      modifies this, dir
      ensures phase == Deciding && held == old(held) && weight == old(weight) && head.Some?
      ensures reserved.unmet == keep - |held| && reserved.need == Max(0, weight - |held|)
      ensures IsAnnounced(old(dir.sh.heads), old(head), dir.sh.heads, Entry(head.value, reserved))
      ensures dir.sh == old(dir.sh).(heads := dir.sh.heads)
      ensures Leads(old(State()), State())
    {
      hide Loan, Announces, Solo;
      AnnounceSays(State(), keep);
      PublishHeadIsARun(State(), keep);
      var content := Reservation(keep - |held|, Max(0, weight - |held|));
      if head.Some? && reserved == content {
        phase := Deciding;
      } else {
        ReplaceHead(content);
      }
    }

    method ReplaceHead(content: Reservation)
      modifies this, dir
      ensures State() == old(Replaced(State(), content))
    {
      var name := Name(dir.sh.clock, id, serial);
      dir.sh := dir.sh.(heads := Withdraw(Publish(dir.sh.heads, Entry(name, content)), head));
      oldHead, head, reserved, serial, phase := None, Some(name), content, serial + 1, Deciding;
    }

    /** The state of a head as it starts another round of collecting. */
    ghost predicate Collecting(before: map<nat, Id>)
      reads this, dir
    {
      && naming.None? && dir.sh.locks.queue == Some(id) && |held| <= weight
      && Loan(before, dir.sh.locks.slots, id, held) && Announces(dir.sh, Value())
      && Sorted(dir.sh.heads) && Absent(dir.sh.heads, Name(dir.sh.clock, id, serial))
    }

    /** A head short of its weight: it holds `keep` of what it found, or all of it, and says what it lacks. */
    ghost predicate IsReserving(w: nat, keep: nat, found: nat)
      reads this, dir
    {
      && phase == Deciding && weight == w && |held| == Min(keep, found)
      && head.Some? && reserved == Reservation(Max(0, keep - found), Max(0, w - |held|))
      && Entry(head.value, reserved) in dir.sh.heads
    }

    /** The slots this head keeps now: its share by the time it has been the head. */
    function Keeps(): nat
      reads this, dir
    {
      Reserve(weight, job.ramp, if dir.sh.clock >= since then dir.sh.clock - since else 0)
    }

    /**
     One round of the head in its turn: it tries every slot it lacks. With its weight together it is admitted under
     `register` or, over the bound, goes on for its declared slots; short of it, it keeps its reservation and
     publishes what it lacks.
     */
    method CollectRound(ghost before: map<nat, Id>) returns (ok: bool)
      requires phase == Scanning(AsHead, 0) && Collecting(before)
      modifies this, dir
      ensures var found := |old(held)| + FreeSlots(old(dir.sh.locks.slots), 0, old(dir.sh.capacity));
              && (ok <==> old(weight) <= found && old(dir.sh.locks.register).None? && old(Passes(dir.sh, Value())))
              && (found < old(weight) ==> IsReserving(old(weight), old(Keeps()), found))
      ensures ok ==> phase == Admitted(AsHead) && |held| == weight == old(weight)
      ensures ok ==> dir.sh.locks.queue.None? && dir.sh.locks.register.None? && head.None?
      ensures Loan(before, dir.sh.locks.slots, id, held)
      ensures Leads(old(State()), State())
    {
      hide Loan, Sorted, Reserve, FreeSlots, LetCollect;
      ghost var start := State();
      Scan(AsHead, before);
      ghost var scanned := State();
      if |held| == weight {
        ok := EnterHead();
      } else {
        TrimAndPublish(before);
        ok := false;
      }
      LeadsOn(start, scanned, State());
    }

    /** With its weight together: it waits for `register`, or has it and is judged. */
    method EnterHead() returns (ok: bool)
      requires phase == Scanning(AsHead, dir.sh.capacity) && naming.None? && |held| == weight
          && dir.sh.locks.queue == Some(id)
      modifies this, dir
      ensures ok <==> old(dir.sh.locks.register).None? && old(Passes(dir.sh, Value()))
      ensures ok ==> phase == Admitted(AsHead) && weight == old(weight) && head.None?
      ensures ok ==> dir.sh.locks.queue.None? && dir.sh.locks.register.None?
      ensures held == old(held) && dir.sh.locks.slots == old(dir.sh.locks.slots)
      ensures Leads(old(State()), State())
    {
      hide Judge, Withdraw, GiveBack, Solo;
      ghost var start := State();
      NoStep(start);
      phase := Registering(AsHead);
      OneStep(start, start, State());
      ok := false;
      if dir.sh.locks.register.None? {
        ghost var at := State();
        ok := AdmitHead();
        LeadsOn(start, at, State());
      }
    }

    method TrimAndPublish(ghost before: map<nat, Id>)
      requires phase == Scanning(AsHead, dir.sh.capacity) && Collecting(before) && |held| < weight
      modifies this, dir
      ensures IsReserving(old(weight), old(Keeps()), |old(held)|)
      ensures Loan(before, dir.sh.locks.slots, id, held)
      ensures Leads(old(State()), State())
    {
      ghost var start := State();
      var keep := Keeps();
      Trim(keep, before);
      ghost var trimmed := State();
      PublishHead(keep);
      LeadsOn(start, trimmed, State());
    }

    method Trim(keep: nat, ghost before: map<nat, Id>)
      requires phase == Scanning(AsHead, dir.sh.capacity) && keep == Keeps() && |held| < weight && naming.None?
      requires Loan(before, dir.sh.locks.slots, id, held)
      modifies this, dir
      ensures Value() == old(Value()).(phase := Dropping(keep), held := old(held)[..Min(keep, |old(held)|)])
      ensures dir.sh == old(dir.sh).(locks := old(dir.sh.locks).(slots := dir.sh.locks.slots))
      ensures Loan(before, dir.sh.locks.slots, id, held)
      ensures Leads(old(State()), State())
    {
      ghost var start := State();
      NoStep(start);
      phase := Dropping(keep);
      OneStep(start, start, State());
      ghost var trimming := State();
      DropTo(keep, before);
      LeadsOn(start, trimming, State());
    }

    /** Under `register`, with its weight together. */
    method AdmitHead() returns (ok: bool)
      requires phase == Registering(AsHead) && naming.None? && dir.sh.locks.register.None?
          && dir.sh.locks.queue == Some(id)
      modifies this, dir
      ensures ok == old(Passes(dir.sh, Value()))
      ensures ok ==> phase == Admitted(AsHead) && weight == old(weight) && head.None? && dir.sh.locks.queue.None?
      ensures ok || !job.elastic ==> dir.sh.locks.register.None?
      ensures !ok ==> if job.elastic then phase == Undoing(AsHead) else phase == Deciding && weight == declared
      ensures held == old(held) && dir.sh.locks.slots == old(dir.sh.locks.slots)
      ensures Leads(old(State()), State())
    {
      ghost var start := State();
      NoStep(start);
      dir.sh := dir.sh.(locks := dir.sh.locks.(register := Some(id)));
      phase := Judging(AsHead);
      OneStep(start, start, State());
      ok := JudgeHead(start);
    }

    method JudgeHead(ghost start: Both) returns (ok: bool)
      requires phase == Judging(AsHead) && naming.None? && dir.sh.locks.register == Some(id)
          && dir.sh.locks.queue == Some(id)
      requires Leads(start, State())
      modifies this, dir
      ensures ok == old(Passes(dir.sh, Value()))
      ensures ok ==> phase == Admitted(AsHead) && weight == old(weight) && head.None? && dir.sh.locks.queue.None?
      ensures ok || !job.elastic ==> dir.sh.locks.register.None?
      ensures !ok ==> if job.elastic then phase == Undoing(AsHead) else phase == Deciding && weight == declared
      ensures held == old(held) && dir.sh.locks.slots == old(dir.sh.locks.slots)
      ensures Leads(start, State())
    {
      ghost var judging := State();
      JudgeIsARun(judging, AsHead);
      ok := AdmitOvercommitted(AsHead);
      LeadsOn(start, judging, State());
      ghost var judged := State();
      if ok {
        dir.sh := dir.sh.(locks := LetCollect(dir.sh.locks, id), heads := Withdraw(dir.sh.heads, head));
        head := None;
        OneStep(start, judged, State());
      } else if !job.elastic {
        Regroup();
        LeadsOn(start, judged, State());
      }
    }

    /** Over the bound: the head lets go of `register` and goes on for its declared slots. */
    method Regroup()
      requires phase == Regrouping && naming.None?
      modifies this`phase, dir
      ensures Value() == old(Value()).(phase := Deciding)
      ensures dir.sh == old(dir.sh).(locks := old(dir.sh.locks).(register := None))
      ensures Leads(old(State()), State())
    {
      ghost var start := State();
      NoStep(start);
      dir.sh := dir.sh.(locks := dir.sh.locks.(register := None));
      phase := Deciding;
      OneStep(start, start, State());
    }

    // --- Background ---

    /** An attempt that gave everything back would leave the locks as they were in `before`. */
    ghost predicate Trying(before: Shared)
      reads this, dir
    {
      var t := dir.sh.locks;
      && naming.None? && head.None? && dir.sh == before.(locks := t)
      && Agree(GiveBack(t, id, job, AsBackground).(slots := before.locks.slots), before.locks)
      && Loan(before.locks.slots, t.slots, id, held) && forall k :: k in t.slots ==> k < before.capacity
    }

    method TakeWorkspace(ghost before: Shared) returns (ok: bool)
      requires phase == TakingWorkspace && Trying(before) && !job.sub
          && !WorkspaceOf(dir.sh.locks, job.workspace).HeldBy(id)
      modifies this`phase, dir
      ensures State() == old(Advance(dir.sh, Value())) && Trying(before)
      ensures ok == CanTakeWorkspace(old(dir.sh.locks), job) && phase == if ok then TakingQueue
          else Undoing(AsBackground)
      ensures dir.sh.locks == old(dir.sh.locks).(workspaces := dir.sh.locks.workspaces)
    {
      var w := job.workspace;
      var lock := WorkspaceOf(dir.sh.locks, w);
      ok := if job.sharedWorkspace then lock.CanShare() else lock.CanOwn();
      if ok {
        var taken := if job.sharedWorkspace then lock.Share(id) else lock.Own(id);
        assert taken.Leave(id) == lock.Leave(id);
        dir.sh := dir.sh.(locks := dir.sh.locks.(workspaces := dir.sh.locks.workspaces[w := taken]));
        phase := TakingQueue;
      } else {
        phase := Undoing(AsBackground);
      }
    }

    method TakeQueue(ghost before: Shared) returns (ok: bool)
      requires phase == TakingQueue && Trying(before)
      modifies this`phase, dir
      ensures State() == old(Advance(dir.sh, Value())) && Trying(before)
      ensures ok == old(dir.sh.locks.queue).None? && phase == if ok then TakingMain(AsBackground)
          else Undoing(AsBackground)
      ensures dir.sh.locks == old(dir.sh.locks).(queue := if ok then Some(id) else old(dir.sh.locks.queue))
    {
      ok := dir.sh.locks.queue.None?;
      if ok {
        dir.sh := dir.sh.(locks := dir.sh.locks.(queue := Some(id)));
        phase := TakingMain(AsBackground);
      } else {
        phase := Undoing(AsBackground);
      }
    }

    method TakeMain(ghost before: Shared) returns (ok: bool)
      requires phase == TakingMain(AsBackground) && Trying(before)
      modifies this`phase, dir
      ensures State() == old(Advance(dir.sh, Value())) && Trying(before)
      ensures ok == old(dir.sh.locks.main).CanShare() && phase == if ok then Scanning(AsBackground, 0)
          else Undoing(AsBackground)
      ensures dir.sh.locks == old(dir.sh.locks).(main := dir.sh.locks.main)
    {
      ok := dir.sh.locks.main.CanShare();
      if ok {
        var main := dir.sh.locks.main;
        assert main.Share(id).Leave(id) == main.Leave(id);
        dir.sh := dir.sh.(locks := dir.sh.locks.(main := main.Share(id)));
        phase := Scanning(AsBackground, 0);
      } else {
        phase := Undoing(AsBackground);
      }
    }

    method TakeRegister(ghost before: Shared) returns (ok: bool)
      requires phase == Registering(AsBackground) && Trying(before)
      modifies this`phase, dir
      ensures State() == old(Advance(dir.sh, Value())) && Trying(before)
      ensures ok == old(dir.sh.locks.register).None? && phase == if ok then Judging(AsBackground)
          else Undoing(AsBackground)
      ensures dir.sh.locks == old(dir.sh.locks).(register := if ok then Some(id) else old(dir.sh.locks.register))
    {
      ok := dir.sh.locks.register.None?;
      if ok {
        dir.sh := dir.sh.(locks := dir.sh.locks.(register := Some(id)));
        phase := Judging(AsBackground);
      } else {
        phase := Undoing(AsBackground);
      }
    }

    method LetGo(ghost before: Shared, ghost start: Both)
      requires phase == Undoing(AsBackground) && Trying(before) && Leads(start, State())
      modifies dir
      ensures dir.sh == before.(locks := dir.sh.locks)
          && Agree(dir.sh.locks.(slots := before.locks.slots), before.locks)
      ensures dir.sh.locks.slots == old(dir.sh.locks.slots) && !HoldsLock(dir.sh.locks, id, job, AsBackground)
      ensures Leads(start, State())
    {
      if HoldsLock(dir.sh.locks, id, job, AsBackground) {
        ghost var entry := State();
        dir.sh := dir.sh.(locks := GiveBack(dir.sh.locks, id, job, AsBackground));
        BackgroundLetsGo(start, entry);
      } else {
        NothingToGive(dir.sh.locks, before.locks);
      }
    }

    lemma NothingToGive(t: Locks, before: Locks)
      requires !HoldsLock(t, id, job, AsBackground)
          && Agree(GiveBack(t, id, job, AsBackground).(slots := before.slots), before)
      ensures Agree(t.(slots := before.slots), before)
    {
      assert t.main.Leave(id) == t.main;
      var w := job.workspace;
      assert !job.sub ==> WorkspaceOf(t, w).Leave(id) == WorkspaceOf(t, w);
      var u := GiveBack(t, id, job, AsBackground).(slots := before.slots);
      assert forall x: nat :: WorkspaceOf(u, x) == WorkspaceOf(t.(slots := before.slots), x);
    }

    /** A failed attempt: the locks, then the slots, then it waits again. */
    method CloseBackground(ghost before: Shared, ghost start: Both)
      requires phase == Undoing(AsBackground) && Trying(before) && Leads(start, State())
      modifies this, dir
      ensures dir.sh == before.(locks := dir.sh.locks) && Agree(dir.sh.locks, before.locks)
      ensures Value() == old(Value()).(phase := Arrived, held := [])
      ensures Leads(start, State())
    {
      hide Loan, Withdraw, MyTurn, Agree, LetCollect, Solo;
      LetGo(before, start);
      ghost var unlocked := State();
      DropTo(0, before.locks.slots);
      LeadsOn(start, unlocked, State());
      LoanRepaid(before.locks.slots, dir.sh.locks.slots, id);
      ghost var dropped := State();
      phase := Arrived;
      OneStep(start, dropped, State());
    }

    /** Whether the locks a background guard takes at once are free, `register` aside. */
    ghost predicate AllOpen(t: Locks) {
      (job.sub || CanTakeWorkspace(t, job)) && t.queue.None? && t.main.CanShare()
    }

    /**
     A background guard is admitted only while no other guard waits, and with its workspace, the queue, `<lock>` and
     all its slots at once; else everything it took is back.
     */
    method TryBackground() returns (ok: bool)
      requires phase == Arrived && lane == Background && Unburdened()
      requires !WorkspaceOf(dir.sh.locks, job.workspace).HeldBy(id)
      modifies this, dir
      ensures ok <==> (&& old(CanTryBackground(dir.sh, Value())) && AllOpen(old(dir.sh.locks))
          && old(dir.sh.locks.register).None?
                       && old(weight) <= FreeSlots(old(dir.sh.locks.slots), 0, old(dir.sh.capacity))
                       && old(Passes(dir.sh, Value())))
      ensures ok ==> HasAll(old(dir.sh.locks), old(Value()))
      ensures !ok ==> dir.sh == old(dir.sh).(locks := dir.sh.locks) && Agree(dir.sh.locks, old(dir.sh.locks))
      ensures !ok ==> Value() == old(Value()).(weight := weight)
      ensures old(CanTryBackground(dir.sh, Value())) ==> Leads(old(Both(dir.sh, StartBackground(Value()))), State())
    {
      hide Solo, AllOpen, MyTurn;
      ok := NobodyWaits();
      if ok {
        phase := if job.sub then TakingQueue else TakingWorkspace;
        ok := TryNow();
      }
    }

    method NobodyWaits() returns (yes: bool)
      requires naming.None? && phase == Arrived && lane == Background
      ensures yes == CanTryBackground(dir.sh, Value())
    {
      var turn := HasTurn();
      yes := turn && dir.sh.waiting == [];
    }

    method TryNow() returns (ok: bool)
      requires phase == (if job.sub then TakingQueue else TakingWorkspace) && Unburdened()
      requires !WorkspaceOf(dir.sh.locks, job.workspace).HeldBy(id)
      modifies this, dir
      ensures ok <==> (&& AllOpen(old(dir.sh.locks)) && old(dir.sh.locks.register).None?
                       && old(weight) <= FreeSlots(old(dir.sh.locks.slots), 0, old(dir.sh.capacity))
                       && old(Passes(dir.sh, Value())))
      ensures ok ==> HasAll(old(dir.sh.locks), old(Value()))
      ensures !ok ==> dir.sh == old(dir.sh).(locks := dir.sh.locks) && Agree(dir.sh.locks, old(dir.sh.locks))
      ensures !ok ==> Value() == old(Value()).(phase := Arrived, weight := weight)
      ensures Leads(old(State()), State())
    {
      hide Loan, WorkspaceOf, Solo;
      ghost var before := dir.sh;
      ghost var start := State();
      NoStep(start);
      NothingTaken();
      ok := TakeOrClose(before, start);
      if ok {
        ok := CollectAtOnce(before, start);
      }
    }

    method TakeOrClose(ghost before: Shared, ghost start: Both) returns (ok: bool)
      requires phase == (if job.sub then TakingQueue else TakingWorkspace) && held == [] && Trying(before)
      requires !WorkspaceOf(dir.sh.locks, job.workspace).HeldBy(id) && Leads(start, State()) && dir.sh == before
      modifies this, dir
      ensures ok == AllOpen(before.locks)
      ensures ok ==> Trying(before) && dir.sh.locks.slots == before.locks.slots
      ensures ok ==> dir.sh.locks.register == before.locks.register
      ensures ok ==> dir.sh.locks.queue == Some(id) && Value() == old(Value()).(phase := Scanning(AsBackground, 0))
      ensures !ok ==> dir.sh == before.(locks := dir.sh.locks) && Agree(dir.sh.locks, before.locks)
      ensures !ok ==> Value() == old(Value()).(phase := Arrived)
      ensures Leads(start, State())
    {
      hide Solo;
      ok := TakeAtOnce(before, start);
      if !ok {
        CloseBackground(before, start);
      }
    }

    lemma NothingTaken()
      requires Unburdened() && !WorkspaceOf(dir.sh.locks, job.workspace).HeldBy(id)
      ensures Trying(dir.sh)
    {
      var t := dir.sh.locks;
      var u := GiveBack(t, id, job, AsBackground).(slots := t.slots);
      assert t.main.Leave(id) == t.main;
      assert WorkspaceOf(t, job.workspace).Leave(id) == WorkspaceOf(t, job.workspace);
      assert Agree(u, t);
    }

    /** Admitted in the background: all its slots, and the next acquirer may collect. */
    ghost predicate HasAll(before: Locks, g: Guard)
      reads this, dir
    {
      && phase == Admitted(AsBackground) && weight == g.weight == |held|
      && Loan(before.slots, dir.sh.locks.slots, id, held) && dir.sh.locks.queue.None? && dir.sh.locks.register.None?
    }

    method TakeAtOnce(ghost before: Shared, ghost start: Both) returns (ok: bool)
      requires phase == (if job.sub then TakingQueue else TakingWorkspace) && held == [] && Trying(before)
      requires !WorkspaceOf(dir.sh.locks, job.workspace).HeldBy(id) && Leads(start, State())
      modifies this`phase, dir
      ensures Trying(before) && dir.sh.locks.slots == old(dir.sh.locks.slots)
          && dir.sh.locks.register == old(dir.sh.locks.register)
      ensures ok == AllOpen(old(dir.sh.locks)) && phase == if ok then Scanning(AsBackground, 0)
          else Undoing(AsBackground)
      ensures ok ==> dir.sh.locks.queue == Some(id)
      ensures Leads(start, State())
    {
      ghost var at := State();
      ok := true;
      if !job.sub {
        ok := TakeWorkspace(before);
        OneStep(start, at, State());
      }
      if ok {
        at := State();
        ok := TakeQueue(before);
        OneStep(start, at, State());
      }
      if ok {
        at := State();
        ok := TakeMain(before);
        OneStep(start, at, State());
      }
    }

    method CollectAtOnce(ghost before: Shared, ghost start: Both) returns (ok: bool)
      requires phase == Scanning(AsBackground, 0) && held == [] && Trying(before) && Leads(start, State())
      requires dir.sh.locks.slots == before.locks.slots && dir.sh.locks.queue == Some(id)
      requires dir.sh.locks.register == before.locks.register
      modifies this, dir
      ensures ok <==> (&& before.locks.register.None?
          && old(weight) <= FreeSlots(before.locks.slots, 0, before.capacity)
                       && old(Passes(before, Value())))
      ensures ok ==> HasAll(before.locks, old(Value()))
      ensures !ok ==> dir.sh == before.(locks := dir.sh.locks) && Agree(dir.sh.locks, before.locks)
      ensures !ok ==> Value() == old(Value()).(phase := Arrived, weight := weight)
      ensures Leads(start, State())
    {
      ok := ScanToEnd(before, start);
      if ok {
        ok := RegisterAtOnce(before, start);
      } else {
        CloseBackground(before, start);
      }
    }

    method ScanToEnd(ghost before: Shared, ghost start: Both) returns (enough: bool)
      requires phase == Scanning(AsBackground, 0) && held == [] && Trying(before) && Leads(start, State())
      requires dir.sh.locks.slots == before.locks.slots
      modifies this`held, this`phase, dir
      ensures enough <==> weight <= FreeSlots(before.locks.slots, 0, before.capacity)
      ensures Value() == old(Value()).(phase := if enough then Registering(AsBackground)
          else Undoing(AsBackground), held := held)
      ensures (enough ==> |held| == weight) && Trying(before)
      ensures dir.sh.locks == old(dir.sh.locks).(slots := dir.sh.locks.slots)
      ensures Leads(start, State())
    {
      ScanAtOnce(before, start);
      enough := |held| == weight;
      EndScan(before, start, enough);
    }

    method EndScan(ghost before: Shared, ghost start: Both, ghost enough: bool)
      requires phase == Scanning(AsBackground, dir.sh.capacity) && Trying(before) && Leads(start, State())
      requires enough == (|held| == weight)
      modifies this`phase
      ensures Value() == old(Value()).(phase := if enough then Registering(AsBackground) else Undoing(AsBackground))
      ensures Trying(before) && Leads(start, State())
    {
      ghost var at := State();
      phase := if enough then Registering(AsBackground) else Undoing(AsBackground);
      OneStep(start, at, State());
    }

    method ScanAtOnce(ghost before: Shared, ghost start: Both)
      requires phase == Scanning(AsBackground, 0) && held == [] && Trying(before) && Leads(start, State())
      requires dir.sh.locks.slots == before.locks.slots
      modifies this`held, this`phase, dir
      ensures Value() == old(Value()).(phase := Scanning(AsBackground, before.capacity), held := held)
      ensures |held| == Min(weight, FreeSlots(before.locks.slots, 0, before.capacity)) && Trying(before)
      ensures dir.sh.locks == old(dir.sh.locks).(slots := dir.sh.locks.slots)
      ensures Leads(start, State())
    {
      ghost var at := State();
      Scan(AsBackground, before.locks.slots);
      LeadsOn(start, at, State());
      assert GiveBack(dir.sh.locks, id, job, AsBackground).(slots := before.locks.slots)
          == GiveBack(at.sh.locks, id, job, AsBackground).(slots := before.locks.slots);
    }

    method RegisterAtOnce(ghost before: Shared, ghost start: Both) returns (ok: bool)
      requires phase == Registering(AsBackground) && Trying(before) && |held| == weight && Leads(start, State())
      requires dir.sh.locks.queue == Some(id) && dir.sh.locks.register == before.locks.register
      modifies this, dir
      ensures ok <==> before.locks.register.None? && old(Passes(before, Value()))
      ensures ok ==> HasAll(before.locks, old(Value()))
      ensures !ok ==> dir.sh == before.(locks := dir.sh.locks) && Agree(dir.sh.locks, before.locks)
      ensures !ok ==> Value() == old(Value()).(phase := Arrived, held := [], weight := weight)
      ensures Leads(start, State())
    {
      hide Judge, Withdraw, MyTurn, WorkspaceOf, Agree, Loan, Solo, FreeSlots;
      ghost var at := State();
      ok := TakeRegister(before);
      OneStep(start, at, State());
      if ok {
        ok := JudgeBackground(before, start);
      } else {
        CloseBackground(before, start);
      }
    }

    method JudgeBackground(ghost before: Shared, ghost start: Both) returns (ok: bool)
      requires phase == Judging(AsBackground) && Trying(before) && |held| == weight && Leads(start, State())
      requires dir.sh.locks.queue == Some(id) == dir.sh.locks.register
      modifies this, dir
      ensures ok == old(Passes(before, Value()))
      ensures ok ==> HasAll(before.locks, old(Value()))
      ensures !ok ==> dir.sh == before.(locks := dir.sh.locks) && Agree(dir.sh.locks, before.locks)
      ensures !ok ==> Value() == old(Value()).(phase := Arrived, held := [], weight := weight)
      ensures Leads(start, State())
    {
      ghost var judging := State();
      JudgeIsARun(judging, AsBackground);
      ok := AdmitOvercommitted(AsBackground);
      LeadsOn(start, judging, State());
      if ok {
        ghost var judged := State();
        dir.sh := dir.sh.(locks := LetCollect(dir.sh.locks, id));
        OneStep(start, judged, State());
      } else {
        CloseBackground(before, start);
      }
    }
  }
}
