/**
 What a guard asks for: the slots of its declared limit, and the slots it is charged
 (`Admission.slots`, `Admission.plan`, `history_charge`, `margin_charge`).
 */
module Charge {

  const SLOT_MIB := 1024.0
  const PROCESS_MIB := 11000.0   // the declared bound of one part of an elastic workload
  const CHARGE_MARGIN := 1.3
  const HISTORY_RUNS := 5
  const KILLED := 137            // the exit code of a SIGKILLed workload

  datatype Lane = Normal | Merge | Background | Exclusive | Leaf

  datatype Outcome = Success | RssLimit | Preempted | Other

  datatype Run = Run(outcome: Outcome, exitCode: int, measured: bool, peakMib: real)

  /**
   The arguments of one guard. `pinned` gathers the other reasons never to overcommit
   (--no-overcommit, --lock-wait 0, no MemAvailable, a cgroup limit); `ramp` is
   --backfill-ramp in nanoseconds; `workload` is the enclosing elastic admission of a
   sub-admission.
   */
  datatype Args = Args(
    exclusive: bool, elastic: bool, sub: bool, pinned: bool, priority: Lane,
    rssMib: real, chargeMib: real, runs: seq<Run>,
    workspace: nat, sharedWorkspace: bool, ramp: nat, workload: nat)

  /** What argument parsing guarantees. */
  predicate Parsed(a: Args) {
    && a.rssMib > 0.0
    && a.priority in {Normal, Merge, Background}
    && (a.sub ==>
          && !a.elastic && !a.exclusive && !a.sharedWorkspace
          && a.rssMib <= PROCESS_MIB && 0.0 < a.chargeMib <= a.rssMib)
  }

  function Ceil(x: real): int {
    -((-x).Floor)
  }

  function Min(a: int, b: int): int { if a <= b then a else b }

  function Max(a: int, b: int): int { if a <= b then b else a }

  function RMin(a: real, b: real): real { if a <= b then a else b }

  function RMax(a: real, b: real): real { if a <= b then b else a }

  /** The slots of `mib` of a budget of `capacity` slots. */
  function Slots(capacity: nat, mib: real): nat {
    Min(capacity, Max(1, Ceil(mib / SLOT_MIB)))
  }

  function MarginCharge(peakMib: real, declaredMib: real): real {
    RMin(declaredMib, RMax(SLOT_MIB, Ceil(CHARGE_MARGIN * peakMib) as real))
  }

  function Recent(runs: seq<Run>): seq<Run> {
    if |runs| <= HISTORY_RUNS then runs else runs[|runs| - HISTORY_RUNS..]
  }

  predicate Unsafe(r: Run) {
    r.outcome == RssLimit || r.outcome == Preempted || r.exitCode == KILLED
  }

  function Peaks(runs: seq<Run>): seq<real> {
    if runs == [] then []
    else (if runs[0].outcome == Success && runs[0].measured then [runs[0].peakMib] else []) + Peaks(runs[1..])
  }

  function Largest(peaks: seq<real>): real
    requires peaks != []
  {
    if |peaks| == 1 then peaks[0] else RMax(peaks[0], Largest(peaks[1..]))
  }

  /** The MiB charged for a command with this history. */
  function HistoryCharge(runs: seq<Run>, declaredMib: real): real {
    var recent := Recent(runs);
    var peaks := Peaks(recent);
    if exists r :: r in recent && Unsafe(r) then declaredMib
    else if |peaks| < 2 then declaredMib
    else MarginCharge(Largest(peaks), declaredMib)
  }

  function Declared(capacity: nat, a: Args): nat {
    if a.exclusive then capacity else Slots(capacity, a.rssMib)
  }

  /** The slots `plan` charges before admission. */
  function Planned(capacity: nat, a: Args): nat {
    if a.sub then Slots(capacity, a.chargeMib)
    else if a.exclusive || a.elastic || a.pinned then Declared(capacity, a)
    else Slots(capacity, HistoryCharge(a.runs, a.rssMib))
  }

  function LaneOf(a: Args): Lane {
    if a.exclusive then Exclusive else a.priority
  }

  lemma CeilBounds(x: real)
    ensures x <= Ceil(x) as real < x + 1.0
  {
  }

  lemma CeilIsLeast(x: real, n: int)
    ensures x <= n as real ==> Ceil(x) <= n
  {
  }

  /** More memory never needs fewer slots. */
  lemma SlotsMonotone(capacity: nat, a: real, b: real)
    requires a <= b
    ensures Slots(capacity, a) <= Slots(capacity, b)
  {
    CeilBounds(a / SLOT_MIB);
    CeilBounds(b / SLOT_MIB);
    assert a / SLOT_MIB <= b / SLOT_MIB;
  }

  /** The slots of a limit are the fewest whose memory covers it, within the budget. */
  lemma SlotsCover(capacity: nat, mib: real, n: nat)
    requires 0.0 < mib && n <= capacity
    ensures Slots(capacity, mib) <= n <==> n == capacity || (1 <= n && mib <= n as real * SLOT_MIB)
  {
    CeilBounds(mib / SLOT_MIB);
    var c := Ceil(mib / SLOT_MIB);
    assert (mib / SLOT_MIB) * SLOT_MIB == mib;
    if mib <= n as real * SLOT_MIB {
      assert mib / SLOT_MIB <= n as real;
      assert c <= n;
    } else {
      assert n as real < mib / SLOT_MIB;
      assert c > n;
    }
  }

  /**
   A guard is charged at least one slot and never more than it declares; elastic and exclusive
   guards are charged what they declare; a part of an elastic workload declares at most PROCESS_MIB.
   */
  lemma PlanWithinDeclared(capacity: nat, a: Args)
    requires 1 <= capacity && Parsed(a)
    ensures 1 <= Planned(capacity, a) <= Declared(capacity, a) <= capacity
    ensures a.exclusive ==> Planned(capacity, a) == capacity
    ensures a.elastic ==> Planned(capacity, a) == Declared(capacity, a)
    ensures a.sub ==> Declared(capacity, a) <= Slots(capacity, PROCESS_MIB)
  {
    if a.sub {
      SlotsMonotone(capacity, a.chargeMib, a.rssMib);
      SlotsMonotone(capacity, a.rssMib, PROCESS_MIB);
    } else {
      assert HistoryCharge(a.runs, a.rssMib) <= a.rssMib;
      SlotsMonotone(capacity, HistoryCharge(a.runs, a.rssMib), a.rssMib);
    }
  }

  /**
   What a guard is charged, in slots: all of the budget if it is exclusive; else the fewest slots that cover a part's
   own charge, the declared limit of a guard that may not overcommit, or what its history asks for.
   */
  lemma PlannedIsLeast(capacity: nat, a: Args, n: nat)
    requires 1 <= capacity && Parsed(a) && n <= capacity
    ensures Planned(capacity, a) <= n <==>
              || n == capacity
              || (&& 1 <= n && !a.exclusive
                  && (if a.sub then a.chargeMib
                      else if a.elastic || a.pinned then a.rssMib
                      else HistoryCharge(a.runs, a.rssMib)) <= n as real * 1024.0)
    ensures Declared(capacity, a) <= n <==> n == capacity || (1 <= n && !a.exclusive && a.rssMib <= n as real * 1024.0)
  {
    SlotsCover(capacity, a.rssMib, n);
    if a.sub {
      SlotsCover(capacity, a.chargeMib, n);
    } else if !a.exclusive && !a.elastic && !a.pinned {
      ChargeIsPositive(a.runs, a.rssMib);
      SlotsCover(capacity, HistoryCharge(a.runs, a.rssMib), n);
    }
  }

  lemma ChargeIsPositive(runs: seq<Run>, declaredMib: real)
    requires 0.0 < declaredMib
    ensures 0.0 < HistoryCharge(runs, declaredMib)
  {
  }

  lemma {:induction false} PeakAtMostLargest(runs: seq<Run>, r: Run)
    requires r in runs && r.outcome == Success && r.measured
    ensures Peaks(runs) != [] && r.peakMib <= Largest(Peaks(runs))
  {
    if runs[0] == r {
      assert Peaks(runs)[0] == r.peakMib;
      assert Peaks(runs) == [r.peakMib] + Peaks(runs[1..]);
    } else {
      assert r in runs[1..];
      PeakAtMostLargest(runs[1..], r);
      if runs[0].outcome == Success && runs[0].measured {
        assert Peaks(runs) == [runs[0].peakMib] + Peaks(runs[1..]);
        assert Peaks(runs)[1..] == Peaks(runs[1..]);
      } else {
        assert Peaks(runs) == Peaks(runs[1..]);
      }
    }
  }

  /** One of the last five runs of a history. */
  predicate IsRecent(runs: seq<Run>, k: int) {
    0 <= k < |runs| && |runs| - 5 <= k
  }

  /** A run that says how much memory the command needs. */
  predicate Measures(r: Run) {
    r.outcome == Success && r.measured
  }

  /** Where the recent runs lie in the history. */
  lemma RecentPlaces(runs: seq<Run>, k: int)
    ensures var from := |runs| - |Recent(runs)|;
            && (IsRecent(runs, k) <==> from <= k < |runs|)
            && (IsRecent(runs, k) ==> runs[k] == Recent(runs)[k - from])
  {
  }

  lemma RecentAt(runs: seq<Run>, r: Run)
    ensures r in Recent(runs) <==> exists k :: IsRecent(runs, k) && runs[k] == r
  {
    var from := |runs| - |Recent(runs)|;
    if r in Recent(runs) {
      var i :| 0 <= i < |Recent(runs)| && Recent(runs)[i] == r;
      RecentPlaces(runs, from + i);
    }
    if k :| IsRecent(runs, k) && runs[k] == r {
      RecentPlaces(runs, k);
    }
  }

  lemma {:induction false} LargestIsAPeak(runs: seq<Run>)
    requires Peaks(runs) != []
    ensures exists r :: r in runs && Measures(r) && r.peakMib == Largest(Peaks(runs))
  {
    if Measures(runs[0]) {
      assert Peaks(runs) == [runs[0].peakMib] + Peaks(runs[1..]);
      assert Peaks(runs)[1..] == Peaks(runs[1..]);
      if Peaks(runs[1..]) != [] {
        LargestIsAPeak(runs[1..]);
      }
    } else {
      assert Peaks(runs) == Peaks(runs[1..]);
      LargestIsAPeak(runs[1..]);
    }
  }

  /** Two runs at different places of a list, both measured, or fewer. */
  lemma {:induction false} TwoPeaks(runs: seq<Run>)
    ensures |Peaks(runs)| >= 1 <==> exists i :: 0 <= i < |runs| && Measures(runs[i])
    ensures |Peaks(runs)| >= 2 <==> exists i, j :: 0 <= i < j < |runs| && Measures(runs[i]) && Measures(runs[j])
  {
    if runs != [] {
      var rest := runs[1..];
      TwoPeaks(rest);
      assert forall i :: 1 <= i < |runs| ==> runs[i] == rest[i - 1];
      assert forall i :: 0 <= i < |rest| ==> rest[i] == runs[i + 1];
    }
  }

  ghost predicate HasTwoRecent(runs: seq<Run>) {
    exists i, j :: i < j && IsRecent(runs, i) && IsRecent(runs, j) && Measures(runs[i]) && Measures(runs[j])
  }

  lemma RecentPair(runs: seq<Run>)
    ensures |Peaks(Recent(runs))| >= 2 <==> HasTwoRecent(runs)
  {
    var recent := Recent(runs);
    var from := |runs| - |recent|;
    TwoPeaks(recent);
    forall k
      ensures IsRecent(runs, k) <==> from <= k < |runs|
      ensures IsRecent(runs, k) ==> runs[k] == recent[k - from]
    {
      RecentPlaces(runs, k);
    }
    hide Recent, Peaks, Measures;
    if HasTwoRecent(runs) {
      var i, j :| i < j && IsRecent(runs, i) && IsRecent(runs, j) && Measures(runs[i]) && Measures(runs[j]);
      assert Measures(recent[i - from]) && Measures(recent[j - from]);
    }
    if i, j :| 0 <= i < j < |recent| && Measures(recent[i]) && Measures(recent[j]) {
      assert IsRecent(runs, from + i) && IsRecent(runs, from + j);
      assert recent[from + i - from] == recent[i] && recent[from + j - from] == recent[j];
    }
  }

  /** Memory that covers every recent measured success with the margin, and a slot. */
  ghost predicate Covers(runs: seq<Run>, mib: real) {
    1024.0 <= mib && forall k :: IsRecent(runs, k) && Measures(runs[k]) ==> 1.3 * runs[k].peakMib <= mib
  }

  lemma UnsafeIsRecent(runs: seq<Run>)
    ensures (exists r :: r in Recent(runs) && Unsafe(r)) <==> exists k :: IsRecent(runs, k) && Unsafe(runs[k])
  {
    hide Recent, Unsafe;
    if r :| r in Recent(runs) && Unsafe(r) {
      RecentAt(runs, r);
    }
    if k :| IsRecent(runs, k) && Unsafe(runs[k]) {
      RecentAt(runs, runs[k]);
    }
  }

  /** The largest recent peak, and the recent runs it covers. */
  lemma LargestRecent(runs: seq<Run>)
    requires Peaks(Recent(runs)) != []
    ensures exists k :: IsRecent(runs, k) && Measures(runs[k]) && runs[k].peakMib == Largest(Peaks(Recent(runs)))
    ensures forall k :: IsRecent(runs, k) && Measures(runs[k]) ==> runs[k].peakMib <= Largest(Peaks(Recent(runs)))
  {
    hide Recent, Peaks, Largest;
    LargestIsAPeak(Recent(runs));
    var r :| r in Recent(runs) && Measures(r) && r.peakMib == Largest(Peaks(Recent(runs)));
    RecentAt(runs, r);
    forall k | IsRecent(runs, k) && Measures(runs[k])
      ensures runs[k].peakMib <= Largest(Peaks(Recent(runs)))
    {
      RecentAt(runs, runs[k]);
      PeakAtMostLargest(Recent(runs), runs[k]);
    }
  }

  predicate IsWhole(mib: real) {
    mib.Floor as real == mib
  }

  lemma MarginIsLeast(peak: real, declaredMib: real, mib: int)
    ensures MarginCharge(peak, declaredMib) <= declaredMib
    ensures MarginCharge(peak, declaredMib) < declaredMib ==>
              && 1024.0 <= MarginCharge(peak, declaredMib) && 1.3 * peak <= MarginCharge(peak, declaredMib)
              && IsWhole(MarginCharge(peak, declaredMib))
    ensures 1024.0 <= mib as real && 1.3 * peak <= mib as real ==> MarginCharge(peak, declaredMib) <= mib as real
  {
    CeilBounds(CHARGE_MARGIN * peak);
    CeilIsLeast(CHARGE_MARGIN * peak, mib);
    hide Ceil;
  }

  /**
   A command is charged what it declared if one of its last five runs ran out of memory or fewer than two of them
   were measured successes. Else it is charged the least whole number of MiB that covers those, or what it declared.
   */
  lemma HistoryChargeIsLeast(runs: seq<Run>, declaredMib: real, mib: int)
    ensures (exists k :: IsRecent(runs, k) && Unsafe(runs[k])) || !HasTwoRecent(runs) ==>
              HistoryCharge(runs, declaredMib) == declaredMib
    ensures (forall k :: IsRecent(runs, k) ==> !Unsafe(runs[k])) && HasTwoRecent(runs) ==>
              && HistoryCharge(runs, declaredMib) <= declaredMib
              && (HistoryCharge(runs, declaredMib) < declaredMib ==>
                    Covers(runs, HistoryCharge(runs, declaredMib)) && IsWhole(HistoryCharge(runs, declaredMib)))
              && (Covers(runs, mib as real) ==> HistoryCharge(runs, declaredMib) <= mib as real)
  {
    hide Recent, Peaks, Largest, HasTwoRecent, Unsafe, MarginCharge, Measures;
    RecentPair(runs);
    UnsafeIsRecent(runs);
    if (forall k :: IsRecent(runs, k) ==> !Unsafe(runs[k])) && HasTwoRecent(runs) {
      LargestRecent(runs);
      MarginIsLeast(Largest(Peaks(Recent(runs))), declaredMib, mib);
    }
  }

  /**
   A charge below the declared limit rests on two successes among the last five runs, none of which ran out of
   memory, and covers every measured one with the margin.
   */
  lemma HistoryChargeIsSafe(runs: seq<Run>, declaredMib: real)
    requires HistoryCharge(runs, declaredMib) < declaredMib
    ensures HasTwoRecent(runs)
    ensures forall k :: IsRecent(runs, k) ==>
              runs[k].outcome != RssLimit && runs[k].outcome != Preempted && runs[k].exitCode != 137
    ensures forall k :: IsRecent(runs, k) && Measures(runs[k]) ==>
              1.3 * runs[k].peakMib <= HistoryCharge(runs, declaredMib)
  {
    HistoryChargeIsLeast(runs, declaredMib, 0);
  }
}
