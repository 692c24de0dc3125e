/**
 What a waiting queue head reserves, and what it leaves to guards that want to run ahead of it.
 */
module Reservations {
  import opened Registries
  import opened Machine
  import opened Powers

  lemma CeilDivIsLeast(a: nat, b: nat, k: nat)
    requires b > 0
    ensures CeilDiv(a, b) <= k <==> a <= k * b
  {
    var q := CeilDiv(a, b);
    assert q * b <= a + b - 1 < q * b + b by {
      var r := (a + b - 1) % b;
      assert a + b - 1 == q * b + r;
    }
    MultiplesApart(k, q, b);
    MultiplesApart(q, k, b);
  }

  /** Within the ramp, the fewest slots that are at least the waited share of the weight. */
  lemma ReserveIsTheShare(weight: nat, ramp: nat, waited: nat, k: nat)
    requires waited < ramp
    ensures Reserve(weight, ramp, waited) <= k <==> weight * waited <= k * ramp
  {
    CeilDivIsLeast(weight * waited, ramp, k);
    CeilDivIsLeast(weight * waited, ramp, weight);
    assert weight * waited <= weight * ramp;
  }

  /** A reservation never shrinks while the head waits, and is all of its weight from the ramp on. */
  lemma ReserveGrows(weight: nat, ramp: nat, earlier: nat, later: nat)
    requires earlier <= later
    ensures Reserve(weight, ramp, earlier) <= Reserve(weight, ramp, later) <= weight
    ensures later >= ramp ==> Reserve(weight, ramp, later) == weight
  {
    if later < ramp {
      var k := Reserve(weight, ramp, later);
      ReserveIsTheShare(weight, ramp, later, k);
      assert weight * earlier <= weight * later;
      ReserveIsTheShare(weight, ramp, earlier, k);
    } else if earlier < ramp {
      ReserveIsTheShare(weight, ramp, earlier, weight);
      assert weight * earlier <= weight * ramp;
    }
  }

  /** A head of any weight keeps something once it has waited at all. */
  lemma ReserveStartsAtOne(weight: nat, ramp: nat, waited: nat)
    requires 1 <= weight && 0 < waited
    ensures 1 <= Reserve(weight, ramp, waited)
  {
    if waited < ramp {
      ReserveIsTheShare(weight, ramp, waited, 0);
      assert weight * waited > 0;
    }
  }

  // --- What the reservations leave ---

  /** No backfill starts where the reservations leave less than it weighs of what a head lacks. */
  lemma {:induction false} BackfillFitsBeside(heads: seq<Entry<Reservation>>, weight: nat)
    requires weight + Unmet(heads) < LargestNeed(heads)
    ensures exists e :: e in heads && weight + e.value.unmet < e.value.need
  {
    if heads != [] {
      if LargestNeed(heads) == heads[0].value.need {
        assert heads[0] in heads;
      } else {
        BackfillFitsBeside(heads[1..], weight);
      }
    }
  }
}
