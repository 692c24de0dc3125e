/**
 A guard on its own: what its program does while no other guard moves, and what one scan over the
 slots collects.
 */
module Scans {
  import opened Charge
  import opened Machine

  /** n steps of one guard's program. */
  function Solo(sh: Shared, g: Guard, n: nat): Both
    decreases n
  {
    if n == 0 then Both(sh, g) else
      var b := Advance(sh, g);
      Solo(b.sh, b.g, n - 1)
  }

  lemma {:induction false} SoloSplit(sh: Shared, g: Guard, m: nat, n: nat)
    ensures var b := Solo(sh, g, m); Solo(sh, g, m + n) == Solo(b.sh, b.g, n)
    decreases m
  {
    hide Advance;
    if m > 0 {
      var b := Advance(sh, g);
      SoloSplit(b.sh, b.g, m - 1, n);
    }
  }

  /** The guard's program alone leads from one state to the other. */
  ghost predicate Leads(a: Both, b: Both) {
    exists n: nat :: Solo(a.sh, a.g, n) == b
  }

  lemma LeadsByOne(a: Both)
    ensures Leads(a, Advance(a.sh, a.g))
  {
    var b := Advance(a.sh, a.g);
    assert Solo(b.sh, b.g, 0) == b;
    assert Solo(a.sh, a.g, 1) == b;
  }

  lemma LeadsOn(a: Both, b: Both, c: Both)
    requires Leads(a, b) && Leads(b, c)
    ensures Leads(a, c)
  {
    var m: nat :| Solo(a.sh, a.g, m) == b;
    var n: nat :| Solo(b.sh, b.g, n) == c;
    SoloSplit(a.sh, a.g, m, n);
  }

  // --- One scan ---

  datatype Haul = Haul(slots: map<nat, Id>, held: seq<nat>)

  /** Tries the slots from k on, in order, until the goal is held. */
  function ScanFrom(slots: map<nat, Id>, id: Id, held: seq<nat>, goal: nat, k: nat, capacity: nat): Haul
    requires k <= capacity
    decreases capacity - k
  {
    if k == capacity then Haul(slots, held)
    else if |held| < goal && k !in slots then ScanFrom(slots[k := id], id, held + [k], goal, k + 1, capacity)
    else ScanFrom(slots, id, held, goal, k + 1, capacity)
  }

  /** How many of the slots from k on nobody holds. */
  function FreeSlots(slots: map<nat, Id>, k: nat, capacity: nat): nat
    requires k <= capacity
    decreases capacity - k
  {
    if k == capacity then 0 else (if k in slots then 0 else 1) + FreeSlots(slots, k + 1, capacity)
  }

  lemma {:induction false} FreeBeyond(slots: map<nat, Id>, slot: nat, id: Id, k: nat, capacity: nat)
    requires slot < k <= capacity
    ensures FreeSlots(slots[slot := id], k, capacity) == FreeSlots(slots, k, capacity)
    decreases capacity - k
  {
    if k < capacity {
      FreeBeyond(slots, slot, id, k + 1, capacity);
    }
  }

  /** A scan collects what it can: the goal, or every slot it found free. */
  lemma {:induction false} ScanCollects(slots: map<nat, Id>, id: Id, held: seq<nat>, goal: nat, k: nat, capacity: nat)
    requires k <= capacity && |held| <= goal
    ensures |ScanFrom(slots, id, held, goal, k, capacity).held| == Min(goal, |held| + FreeSlots(slots, k, capacity))
    decreases capacity - k
  {
    if k < capacity {
      if |held| < goal && k !in slots {
        ScanCollects(slots[k := id], id, held + [k], goal, k + 1, capacity);
        FreeBeyond(slots, k, id, k + 1, capacity);
      } else {
        ScanCollects(slots, id, held, goal, k + 1, capacity);
      }
    }
  }

  /** It adds free slots to those held and leaves every other guard its own. */
  lemma {:induction false} ScanTakesOnlyFree(slots: map<nat, Id>, id: Id, held: seq<nat>, goal: nat, k: nat,
      capacity: nat)
    requires k <= capacity
    ensures var h := ScanFrom(slots, id, held, goal, k, capacity);
            && held <= h.held
            && (forall j :: j in slots ==> j in h.slots && h.slots[j] == slots[j])
            && (forall j :: j in h.slots && j !in slots ==> h.slots[j] == id && j in h.held)
    decreases capacity - k
  {
    if k < capacity {
      if |held| < goal && k !in slots {
        ScanTakesOnlyFree(slots[k := id], id, held + [k], goal, k + 1, capacity);
        var h := ScanFrom(slots, id, held, goal, k, capacity);
        assert h.held[|held|] == k;
      } else {
        ScanTakesOnlyFree(slots, id, held, goal, k + 1, capacity);
      }
    }
  }

  lemma {:induction false} TakingOneLeavesOneLess(slots: map<nat, Id>, slot: nat, id: Id, k: nat, capacity: nat)
    requires k <= slot < capacity && slot !in slots
    ensures FreeSlots(slots[slot := id], k, capacity) + 1 == FreeSlots(slots, k, capacity)
    decreases slot - k
  {
    if k == slot {
      FreeBeyond(slots, slot, id, k + 1, capacity);
    } else {
      TakingOneLeavesOneLess(slots, slot, id, k + 1, capacity);
    }
  }

  /** What a scan takes is no longer free, and nothing else changes. */
  lemma {:induction false} ScanConserves(slots: map<nat, Id>, id: Id, held: seq<nat>, goal: nat, k: nat, capacity: nat)
    requires k <= capacity
    ensures var h := ScanFrom(slots, id, held, goal, k, capacity);
            FreeSlots(h.slots, 0, capacity) + |h.held| == FreeSlots(slots, 0, capacity) + |held|
    decreases capacity - k
  {
    if k < capacity {
      if |held| < goal && k !in slots {
        TakingOneLeavesOneLess(slots, k, id, 0, capacity);
        ScanConserves(slots[k := id], id, held + [k], goal, k + 1, capacity);
      } else {
        ScanConserves(slots, id, held, goal, k + 1, capacity);
      }
    }
  }

  lemma {:induction false} FreeCount(slots: map<nat, Id>, k: nat, capacity: nat)
    requires k <= capacity && forall j :: j in slots ==> j < capacity
    ensures FreeSlots(slots, k, capacity) + |set j | j in slots && j >= k| == capacity - k
    decreases capacity - k
  {
    var s := set j | j in slots && j >= k;
    if k == capacity {
      assert s == {};
    } else {
      FreeCount(slots, k + 1, capacity);
      var t := set j | j in slots && j >= k + 1;
      if k in slots {
        assert s == t + {k};
      } else {
        assert s == t;
      }
    }
  }

  /** The free slots are those of the budget nobody holds. */
  lemma FreeIsTheRest(slots: map<nat, Id>, capacity: nat)
    requires forall j :: j in slots ==> j < capacity
    ensures FreeSlots(slots, 0, capacity) + |slots| == capacity
  {
    FreeCount(slots, 0, capacity);
    assert (set j | j in slots && j >= 0) == slots.Keys;
  }

  /** Alone, a guard's scan takes one step per slot and collects what ScanFrom says. */
  lemma {:induction false} SoloScan(sh: Shared, g: Guard, path: Path, k: nat)
    requires g.phase == Scanning(path, k) && g.naming.None? && k <= sh.capacity
    ensures var h := ScanFrom(sh.locks.slots, g.id, g.held, Goal(g, path), k, sh.capacity);
            Solo(sh, g, sh.capacity - k)
            == Both(sh.(locks := sh.locks.(slots := h.slots)), g.(held := h.held, phase := Scanning(path, sh.capacity)))
    decreases sh.capacity - k
  {
    if k == sh.capacity {
      assert sh.(locks := sh.locks.(slots := sh.locks.slots)) == sh;
    } else {
      var b := Advance(sh, g);
      assert b == StepScanning(sh, g, path, k);
      SoloScan(b.sh, b.g, path, k + 1);
    }
  }
}
