/**
 Values of one float format in a wider one: where they lie among the wider format's values, and when the
 distance that the report measures between two such values is the distance in the narrow format.
 */
module Widening {
  import opened Powers
  import opened Floats

  lemma {:induction false} ShiftShift(m: nat, a: nat, b: nat)
    ensures Shift(Shift(m, a), b) == Shift(m, a + b)
    decreases b
  {
    if b > 0 {
      ShiftShift(m, a, b - 1);
    }
  }

  lemma {:induction false} ShiftAdd(m: nat, n: nat, k: nat)
    ensures Shift(m + n, k) == Shift(m, k) + Shift(n, k)
    decreases k
  {
    if k > 0 {
      ShiftAdd(m, n, k - 1);
    }
  }

  lemma {:induction false} ShiftGrows(m: nat, n: nat, k: nat)
    ensures m < n ==> Shift(m, k) < Shift(n, k)
    decreases k
  {
    if k > 0 {
      ShiftGrows(m, n, k - 1);
    }
  }

  lemma {:induction false} ShiftOfPow2(a: nat, b: nat)
    ensures Shift(Pow2(a), b) == Pow2(a + b)
    decreases b
  {
    if b > 0 {
      ShiftOfPow2(a, b - 1);
    }
  }

  /**
   How many steps of the narrow format's spacing lie below the value of ordinal `o`, counted in the wide format
   whose exponents are biased by `k` more; a subnormal is normal there.
   */
  function Rank(fraction: nat, k: nat, o: nat): nat
    requires k >= fraction
  {
    if o == 0 then 0
    else if o >= Pow2(fraction) then o + Shift(k, fraction)
    else
      var l := Log2(o);
      Pow2Grows(fraction, l);
      Shift(l + k + 1 - fraction, fraction) + Shift(o - Pow2(l), fraction - l)
  }

  // --- Where a widened value lies ---

  lemma WidenedNormal(fraction: nat, s: nat, k: nat, o: nat)
    requires k >= fraction && o >= Pow2(fraction)
    ensures Magnitude(fraction + s, Shift(Rank(fraction, k, o), s)) == Shift(Magnitude(fraction, o), k + s)
  {
    var d := Pow2(fraction);
    var e, m := o / d, o % d;
    NormalParts(fraction, k, o, e, m);
    WidenedParts(fraction, s, e + k, m, Rank(fraction, k, o));
    ShiftShift(d + m, s, e + k - 1);
    ShiftShift(d + m, e - 1, k + s);
    MagnitudeIs(fraction, o, e, m);
  }

  lemma NormalParts(fraction: nat, k: nat, o: nat, e: nat, m: nat)
    requires k >= fraction && o >= Pow2(fraction) && e == o / Pow2(fraction) && m == o % Pow2(fraction)
    ensures e >= 1 && m < Pow2(fraction) && Rank(fraction, k, o) == (e + k) * Pow2(fraction) + m
  {
    var d := Pow2(fraction);
    QuotientAndRemainder(o, d);
    MultiplesApart(e, 1, d);
    assert (e + k) * d == e * d + k * d;
  }

  /** Widening the spacing keeps the exponent and shifts the fraction. */
  lemma WidenedParts(fraction: nat, s: nat, e: nat, m: nat, r: nat)
    requires m < Pow2(fraction) && r == e * Pow2(fraction) + m && e >= 1
    ensures Magnitude(fraction + s, Shift(r, s)) == Shift(Shift(Pow2(fraction) + m, s), e - 1)
  {
    ShiftOfPow2(fraction, s);
    ShiftGrows(m, Pow2(fraction), s);
    ShiftOfParts(e, Pow2(fraction), m, s);
    ShiftAdd(Pow2(fraction), m, s);
    SignificandIsMagnitude(fraction + s, e, Shift(m, s));
  }

  lemma ShiftOfParts(e: nat, d: nat, m: nat, s: nat)
    ensures Shift(e * d + m, s) == e * Shift(d, s) + Shift(m, s)
  {
    ShiftAdd(e * d, m, s);
    ShiftOfProduct(e, d, s);
  }

  lemma {:induction false} ShiftOfProduct(e: nat, d: nat, s: nat)
    ensures Shift(e * d, s) == e * Shift(d, s)
    decreases s
  {
    if s > 0 {
      ShiftOfProduct(e, d, s - 1);
      assert 2 * (e * Shift(d, s - 1)) == e * (2 * Shift(d, s - 1));
    }
  }

  lemma WidenedSubnormal(fraction: nat, s: nat, k: nat, o: nat)
    requires k >= fraction && 0 < o < Pow2(fraction)
    ensures Magnitude(fraction + s, Shift(Rank(fraction, k, o), s)) == Shift(Magnitude(fraction, o), k + s)
  {
    hide Magnitude, Pow2, Shift;
    var l := Log2(o);
    Pow2Grows(fraction, l);
    var e, m := l + k + 1 - fraction, Shift(o - Pow2(l), fraction - l);
    Normalized(fraction, l, o);
    WidenedParts(fraction, s, e, m, Rank(fraction, k, o));
    ThreeShifts(o, fraction - l, s, e - 1);
    SubnormalMagnitude(fraction, o);
  }

  lemma ThreeShifts(m: nat, a: nat, b: nat, c: nat)
    ensures Shift(Shift(Shift(m, a), b), c) == Shift(m, a + b + c)
  {
    ShiftShift(m, a, b);
    ShiftShift(m, a + b, c);
  }

  lemma SubnormalMagnitude(fraction: nat, o: nat)
    requires o < Pow2(fraction)
    ensures Magnitude(fraction, o) == o
  {
    Divides(0, o, Pow2(fraction));
    MagnitudeIs(fraction, o, 0, o);
  }

  /** A subnormal's fraction, shifted up to where its first bit is the integer bit. */
  lemma Normalized(fraction: nat, l: nat, o: nat)
    requires Pow2(l) <= o < 2 * Pow2(l) && l <= fraction
    ensures Shift(o - Pow2(l), fraction - l) < Pow2(fraction)
    ensures Pow2(fraction) + Shift(o - Pow2(l), fraction - l) == Shift(o, fraction - l)
  {
    ShiftOfPow2(l, fraction - l);
    ShiftGrows(o - Pow2(l), Pow2(l), fraction - l);
    ShiftAdd(Pow2(l), o - Pow2(l), fraction - l);
  }

  /** The value of ordinal `o`, in the wide format's units, has the widened ordinal there. */
  lemma WidenedValue(fraction: nat, s: nat, k: nat, o: nat)
    requires k >= fraction
    ensures Magnitude(fraction + s, Shift(Rank(fraction, k, o), s)) == Shift(Magnitude(fraction, o), k + s)
  {
    if o == 0 {
      MagnitudesOrdered(fraction, 0, 0);
      MagnitudesOrdered(fraction + s, 0, 0);
    } else if o < Pow2(fraction) {
      WidenedSubnormal(fraction, s, k, o);
    } else {
      WidenedNormal(fraction, s, k, o);
    }
  }

  // --- Distances ---

  lemma RankOfSubnormal(fraction: nat, k: nat, o: nat, l: nat)
    requires k >= fraction > l && Pow2(l) <= o < 2 * Pow2(l)
    ensures o < Pow2(fraction)
    ensures Rank(fraction, k, o) == (l + k + 1 - fraction) * Pow2(fraction) + Shift(o - Pow2(l), fraction - l)
  {
    Log2Is(o, l);
    Pow2Grows(l, fraction);
  }

  /** Below the normals the next value is at least two steps on. */
  lemma SubnormalStep(fraction: nat, k: nat, o: nat)
    requires k >= fraction >= 1 && o < Pow2(fraction)
    ensures Rank(fraction, k, o + 1) - Rank(fraction, k, o) >= 2
  {
    if o == 0 {
      FirstStep(fraction, k);
    } else {
      Pow2Grows(fraction, Log2(o));
      StepInBinade(fraction, k, o, Log2(o));
    }
  }

  lemma StepInBinade(fraction: nat, k: nat, o: nat, l: nat)
    requires k >= fraction > l && Pow2(l) <= o < 2 * Pow2(l)
    ensures Rank(fraction, k, o + 1) - Rank(fraction, k, o) >= 2
  {
    RankOfSubnormal(fraction, k, o, l);
    var m, n := o - Pow2(l), fraction - l;
    ShiftStep(m, n);
    Pow2Grows(1, n);
    if o + 1 < 2 * Pow2(l) {
      RankOfSubnormal(fraction, k, o + 1, l);
    } else {
      LastStepInBinade(fraction, k, l);
    }
  }

  lemma LastStepInBinade(fraction: nat, k: nat, l: nat)
    requires k >= fraction > l
    ensures Rank(fraction, k, 2 * Pow2(l)) - Rank(fraction, k, 2 * Pow2(l) - 1) == Pow2(fraction - l)
  {
    var m, n := Pow2(l) - 1, fraction - l;
    RankOfSubnormal(fraction, k, Pow2(l) + m, l);
    BinadeEnds(fraction, k, l, l + k + 2 - fraction);
    ShiftStep(m, n);
    ShiftOfPow2(l, n);
    MultipleStep(l + k + 1 - fraction, Pow2(fraction));
  }

  lemma FirstStep(fraction: nat, k: nat)
    requires k >= fraction >= 1
    ensures Rank(fraction, k, 1) >= 2
  {
    Pow2Grows(1, fraction);
    RankOfSubnormal(fraction, k, 1, 0);
    MultiplesApart(0, k + 1 - fraction, Pow2(fraction));
  }

  lemma ShiftOfZero(n: nat)
    ensures Shift(0, n) == 0
  {
  }

  lemma BinadeStarts(fraction: nat, k: nat, l: nat, e: nat)
    requires k >= fraction > l && e == l + k + 1 - fraction
    ensures Rank(fraction, k, Pow2(l)) == e * Pow2(fraction)
  {
    hide *;
    RankOfSubnormal(fraction, k, Pow2(l), l);
    ShiftOfZero(fraction - l);
  }

  lemma NormalsStart(fraction: nat, k: nat, e: nat)
    requires k >= fraction && e == k + 1
    ensures Rank(fraction, k, Pow2(fraction)) == e * Pow2(fraction)
  {
    MultipleStep(k, Pow2(fraction));
  }

  /** The value after the last of a binade starts the next one. */
  lemma BinadeEnds(fraction: nat, k: nat, l: nat, e: nat)
    requires k >= fraction > l && e == l + k + 2 - fraction
    ensures Rank(fraction, k, Pow2(l + 1)) == e * Pow2(fraction)
  {
    if l + 1 < fraction {
      BinadeStarts(fraction, k, l + 1, e);
    } else {
      NormalsStart(fraction, k, e);
    }
  }

  /** Among the normals steps and ordinals agree; a distance that starts below them is longer in steps. */
  lemma {:induction false} RankGap(fraction: nat, k: nat, a: nat, b: nat)
    requires k >= fraction >= 1 && a < b
    ensures Rank(fraction, k, b) - Rank(fraction, k, a) >= b - a
    ensures Rank(fraction, k, b) - Rank(fraction, k, a) == b - a <==> a >= Pow2(fraction)
    decreases b
  {
    var c := b - 1;
    if c < Pow2(fraction) {
      SubnormalStep(fraction, k, c);
    }
    if a < c {
      RankGap(fraction, k, a, c);
    }
  }

  lemma RankIsMore(fraction: nat, k: nat, o: nat)
    requires k >= fraction >= 1 && o > 0
    ensures Rank(fraction, k, o) > o
  {
    RankGap(fraction, k, 0, o);
  }

  // --- Encodings ---

  /** How much more the wide format's exponents are biased. */
  function BiasGap(g: Format, f: Format): int
    requires g.Valid() && f.Valid()
  {
    Pow2(f.exponent - 1) - Pow2(g.exponent - 1)
  }

  /** The wide format has more exponents and fraction bits than the narrow one. */
  ghost predicate IsWider(g: Format, f: Format) {
    g.Valid() && f.Valid() && f.fraction > g.fraction && BiasGap(g, f) >= g.fraction
  }

  /** Both encode one real number; each format counts values in its own smallest subnormal. */
  ghost predicate SameValue(g: Format, x: Fields, f: Format, p: Fields)
    requires IsWider(g, f)
  {
    && IsNumber(g, x) && IsNumber(f, p)
    && ValueOf(f, p) == ValueOf(g, x) * Pow2(BiasGap(g, f) + f.fraction - g.fraction)
  }

  function RankOf(g: Format, f: Format, o: int): int
    requires IsWider(g, f)
  {
    Signed(o < 0, Rank(g.fraction, BiasGap(g, f), Abs(o)))
  }

  lemma SignedScale(negative: bool, m: nat, n: nat, d: nat)
    requires n == m * d
    ensures Signed(negative, n) == Signed(negative, m) * d
  {
  }

  lemma SignsAgree(a: bool, m: nat, b: bool, n: nat, d: nat)
    requires Signed(a, n) == Signed(b, m) * d && d > 0
    ensures n == m * d && (n > 0 ==> a == b)
  {
    SignedScale(b, m, m * d, d);
    MultiplesApart(0, m, d);
  }

  /** The ordinal of a widened value. */
  lemma WidenedOrdinal(g: Format, x: Fields, f: Format, p: Fields)
    requires IsWider(g, f) && SameValue(g, x, f, p)
    ensures OrdinalOf(f, p) == RankOf(g, f, OrdinalOf(g, x)) * Pow2(f.fraction - g.fraction)
  {
    var s, k := f.fraction - g.fraction, BiasGap(g, f);
    var o := ValueIsMagnitude(g, x);
    var w := ValueIsMagnitude(f, p);
    SignsAgree(p.negative, Magnitude(g.fraction, o), x.negative, Magnitude(f.fraction, w), Pow2(k + s));
    WidenedValue(g.fraction, s, k, o);
    MagnitudesOrdered(f.fraction, w, Shift(Rank(g.fraction, k, o), s));
    MagnitudesOrdered(f.fraction, Shift(Rank(g.fraction, k, o), s), w);
    MagnitudesOrdered(g.fraction, o, 0);
    SignedScale(OrdinalOf(g, x) < 0, Rank(g.fraction, k, o), w, Pow2(s));
    if o == 0 {
      ShiftOfZero(s);
    }
  }

  /** The magnitude of an ordinal of a normal number. */
  predicate IsNormal(g: Format, o: int) {
    Abs(o) >= Pow2(g.fraction)
  }

  lemma RanksApart(g: Format, f: Format, a: int, b: int)
    requires IsWider(g, f)
    ensures Abs(RankOf(g, f, a) - RankOf(g, f, b)) == Abs(a - b)
            <==> a == b || ((a < 0) == (b < 0) && IsNormal(g, a) && IsNormal(g, b))
  {
    var k := BiasGap(g, f);
    var m, n := Abs(a), Abs(b);
    if m < n {
      RankGap(g.fraction, k, m, n);
    } else if n < m {
      RankGap(g.fraction, k, n, m);
    }
    if m > 0 {
      RankIsMore(g.fraction, k, m);
    }
    if n > 0 {
      RankIsMore(g.fraction, k, n);
    }
  }

  lemma WholeSteps(a: int, b: int, d: nat)
    requires d > 0
    ensures (a * d) % d == 0 && Steps(Abs(a * d - b * d), d) == Abs(a - b)
  {
    Divides(a, 0, d);
    assert a * d - b * d == (a - b) * d;
    SignedScale(a < b, Abs(a - b), Abs(a - b) * d, d);
    Divides(Abs(a - b), 0, d);
  }

  /**
   Of two wide numbers that are values of the 64-bit format, the distance measured is that format's own
   exactly if they are the same value, or both normal there and of one sign.
   */
  lemma WideDistance(x: Fields, y: Fields, f: Format, p: Fields, q: Fields)
    requires IsWider(F64, f) && SameValue(F64, x, f, p) && SameValue(F64, y, f, q)
    ensures var a, b := OrdinalOf(F64, x), OrdinalOf(F64, y);
            UlpsApart(f, OrdinalOf(f, p), OrdinalOf(f, q)) == Abs(a - b)
            <==> a == b || ((a < 0) == (b < 0) && IsNormal(F64, a) && IsNormal(F64, b))
  {
    hide OrdinalOf, RankOf, UlpsApart, Pow2, ValueOf;
    var a, b := OrdinalOf(F64, x), OrdinalOf(F64, y);
    WidenedOrdinal(F64, x, f, p);
    WidenedOrdinal(F64, y, f, q);
    MeasuredInSteps(f, RankOf(F64, f, a), RankOf(F64, f, b));
    RanksApart(F64, f, a, b);
  }

  lemma MeasuredInSteps(f: Format, a: int, b: int)
    requires f.fraction > F64.fraction
    ensures var d := Pow2(f.fraction - F64.fraction); UlpsApart(f, a * d, b * d) == Abs(a - b)
  {
    WholeSteps(a, b, Pow2(f.fraction - F64.fraction));
    WholeSteps(b, a, Pow2(f.fraction - F64.fraction));
  }

  lemma RankBelow(fraction: nat, k: nat, o: nat, t: nat)
    requires k >= fraction >= 1 && t >= 2 && o < t * Pow2(fraction)
    ensures Rank(fraction, k, o) < (t + k) * Pow2(fraction)
  {
    var d := Pow2(fraction);
    var last := t * d - 1;
    MultiplesApart(2, t, d);
    if o < last {
      RankGap(fraction, k, o, last);
    }
    assert Rank(fraction, k, last) == last + k * d;
    assert (t + k) * d == t * d + k * d;
  }

  lemma ScaledBelow(r: nat, t: nat, u: nat, d: nat, e: nat)
    requires r < t * d && t <= u && e > 0
    ensures r * e < u * (d * e)
  {
    MultiplesApart(t, u, d);
    MultiplesApart(r, u * d, e);
    assert (u * d) * e == u * (d * e);
  }

  lemma RanksEnd(g: Format, f: Format, o: nat)
    requires IsWider(g, f) && g.exponent <= f.exponent && o <= MaxOrdinal(g)
    ensures Rank(g.fraction, BiasGap(g, f), o) * Pow2(f.fraction - g.fraction) <= MaxOrdinal(f)
  {
    var s, k := f.fraction - g.fraction, BiasGap(g, f);
    Pow2Grows(2, g.exponent);
    RankBelow(g.fraction, k, o, g.Top());
    Pow2Grows(g.exponent - 1, f.exponent - 1);
    Pow2Add(g.fraction, s);
    ScaledBelow(Rank(g.fraction, k, o), g.Top() + k, f.Top(), Pow2(g.fraction), Pow2(s));
  }

  /** Every number of the narrow format is one of the wide format too. */
  lemma EveryValueWidens(g: Format, x: Fields, f: Format) returns (p: Fields)
    requires IsWider(g, f) && g.exponent <= f.exponent && IsNumber(g, x)
    ensures SameValue(g, x, f, p)
  {
    var s, k := f.fraction - g.fraction, BiasGap(g, f);
    var o := ValueIsMagnitude(g, x);
    OrdinalsEnd(g, x);
    RanksEnd(g, f, o);
    var w := Shift(Rank(g.fraction, k, o), s);
    p := Encode(f, Signed(x.negative, w));
    EveryOrdinalIsUsed(f, Signed(x.negative, w));
    var v := ValueIsMagnitude(f, p);
    WidenedValue(g.fraction, s, k, o);
    SignedScale(x.negative, Magnitude(g.fraction, o), Magnitude(f.fraction, w), Pow2(k + s));
    if w == 0 {
      MagnitudesOrdered(f.fraction, 0, 0);
    }
  }

  // --- Which pairs are measured in steps ---

  /** The value is one of the 64-bit format's. */
  ghost predicate IsF64Value(f: Format, p: Fields)
    requires IsWider(F64, f)
  {
    exists x :: SameValue(F64, x, f, p)
  }

  /** The smallest positive value of the 64-bit format, in the wide format's units. */
  function Smallest(f: Format): nat
    requires IsWider(F64, f)
  {
    Pow2(BiasGap(F64, f) + f.fraction - F64.fraction)
  }

  /** A multiple of the 64-bit format's smallest positive value, and at most its largest value. */
  predicate InRange(f: Format, p: Fields)
    requires IsWider(F64, f)
  {
    && Abs(ValueOf(f, p)) % Smallest(f) == 0
    && Abs(ValueOf(f, p)) <= Magnitude(F64.fraction, MaxOrdinal(F64)) * Smallest(f)
  }

  lemma F64ValueIsShort(f: Format, x: Fields, p: Fields)
    requires IsWider(F64, f) && SameValue(F64, x, f, p)
    ensures IsShort(f, p)
  {
    WidenedOrdinal(F64, x, f, p);
    Divides(RankOf(F64, f, OrdinalOf(F64, x)), 0, Pow2(f.fraction - F64.fraction));
    ShortOrdinal(f, p);
  }

  lemma AbsOfProduct(a: int, d: nat)
    ensures Abs(a * d) == Abs(a) * d
  {
    MultiplesApart(0, a, d);
    MultiplesApart(a, 0, d);
  }

  lemma F64ValueIsInRange(f: Format, x: Fields, p: Fields)
    requires IsWider(F64, f) && SameValue(F64, x, f, p)
    ensures InRange(f, p)
  {
    hide BiasGap, Pow2, OrdinalOf, Magnitude, ClassOf;
    var o := ValueIsMagnitude(F64, x);
    OrdinalsEnd(F64, x);
    MagnitudesOrdered(F64.fraction, MaxOrdinal(F64), o);
    var n, d := Abs(ValueOf(F64, x)), Smallest(f);
    assert n <= Magnitude(F64.fraction, MaxOrdinal(F64));
    AbsOfProduct(ValueOf(F64, x), d);
    hide *;
    MultipleOf(n * d, n, d);
    MultiplesApart(n, Magnitude(F64.fraction, MaxOrdinal(F64)), d);
    IsInRange(f, p, n);
  }

  lemma IsInRange(f: Format, p: Fields, n: nat)
    requires IsWider(F64, f) && Abs(ValueOf(f, p)) == n * Smallest(f)
    requires (n * Smallest(f)) % Smallest(f) == 0
    requires n * Smallest(f) <= Magnitude(F64.fraction, MaxOrdinal(F64)) * Smallest(f)
    ensures InRange(f, p)
  {
  }

  /** Below the normals every multiple of the smallest value is a value; above them every short one. */
  lemma OrdinalOfMultiple(fraction: nat, s: nat, k: nat, o: nat, n: nat) returns (y: nat)
    requires o % Pow2(s) == 0 && Magnitude(fraction + s, o) == n * Pow2(k + s)
    ensures Magnitude(fraction, y) == n
  {
    if n < Pow2(fraction) {
      y := n;
      SubnormalMagnitude(fraction, n);
    } else {
      y := OrdinalOfNormal(fraction, s, k, o, n);
    }
  }

  /** The significand of a whole number of steps, in steps. */
  lemma StepsOfNormal(fraction: nat, s: nat, o: nat, e: nat) returns (m: nat)
    requires o % Pow2(s) == 0 && e == o / Pow2(fraction + s) && e > 0
    ensures m < Pow2(fraction) && Magnitude(fraction + s, o) == (Pow2(fraction) + m) * Pow2(s + e - 1)
  {
    var d := Pow2(fraction + s);
    QuotientAndRemainder(o, d);
    var r := o % d;
    Pow2Add(fraction, s);
    MultipleOfProduct(e, Pow2(fraction), r, Pow2(s));
    m := WholeQuotient(r, Pow2(s));
    MultiplesApart(Pow2(fraction), m, Pow2(s));
    MultiplesApart(m, -1, Pow2(s));
    MagnitudeIs(fraction + s, o, e, r);
    assert d + r == (Pow2(fraction) + m) * Pow2(s);
    Pow2Add(s, e - 1);
    TimesTwice(Pow2(fraction) + m, Pow2(s), Pow2(e - 1));
  }

  lemma TimesTwice(a: nat, b: nat, c: nat)
    ensures (a * b) * c == a * (b * c)
  {
  }

  lemma SmallMagnitude(fraction: nat, o: nat)
    ensures o / Pow2(fraction) == 0 ==> Magnitude(fraction, o) < Pow2(fraction)
  {
    QuotientAndRemainder(o, Pow2(fraction));
  }

  lemma NormalsNeedExponents(fraction: nat, s: nat, k: nat, o: nat, n: nat)
    requires Magnitude(fraction + s, o) == n * Pow2(k + s) && n >= Pow2(fraction)
    ensures o / Pow2(fraction + s) > 0
  {
    Pow2Add(fraction, k + s);
    Pow2Grows(fraction + s, fraction + (k + s));
    MultiplesApart(Pow2(fraction), n, Pow2(k + s));
    QuotientAndRemainder(o, Pow2(fraction + s));
    SmallMagnitude(fraction + s, o);
  }

  lemma BelowNextPower(c: nat, fraction: nat, x: nat, y: nat, n: nat)
    requires c < 2 * Pow2(fraction) && c * Pow2(x) == n * Pow2(y) && n >= Pow2(fraction)
    ensures y <= x
  {
    if x < y {
      Pow2Add(y - x, x);
      Pow2Grows(0, y - x);
      TimesTwice(n, Pow2(y - x), Pow2(x));
      MultiplesApart(2, Pow2(y - x), n);
      MultiplesApart(c, n * Pow2(y - x), Pow2(x));
    }
  }

  lemma CancelPower(c: nat, n: nat, x: nat, y: nat)
    requires y <= x && c * Pow2(x) == n * Pow2(y)
    ensures n == c * Pow2(x - y)
  {
    Pow2Add(x - y, y);
    TimesTwice(c, Pow2(x - y), Pow2(y));
    MultiplesApart(n, c * Pow2(x - y), Pow2(y));
    MultiplesApart(c * Pow2(x - y), n, Pow2(y));
  }

  /** What the steps leave of a power of two when they are narrowed. */
  lemma StepsLeave(fraction: nat, s: nat, k: nat, e: nat, m: nat, n: nat)
    requires m < Pow2(fraction) && e > 0 && n >= Pow2(fraction)
    requires (Pow2(fraction) + m) * Pow2(s + e - 1) == n * Pow2(k + s)
    ensures k < e && n == (Pow2(fraction) + m) * Pow2(e - k - 1)
  {
    hide *;
    BelowNextPower(Pow2(fraction) + m, fraction, s + e - 1, k + s, n);
    CancelPower(Pow2(fraction) + m, n, s + e - 1, k + s);
    assert s + e - 1 - (k + s) == e - k - 1;
  }

  lemma MagnitudeOfNormal(fraction: nat, e: nat, m: nat)
    requires m < Pow2(fraction) && e > 0
    ensures Magnitude(fraction, e * Pow2(fraction) + m) == (Pow2(fraction) + m) * Pow2(e - 1)
  {
    hide *;
    SignificandIsMagnitude(fraction, e, m);
  }

  lemma OrdinalAt(fraction: nat, s: nat, k: nat, o: nat, n: nat, e: nat) returns (y: nat)
    requires o % Pow2(s) == 0 && Magnitude(fraction + s, o) == n * Pow2(k + s) && n >= Pow2(fraction)
    requires e == o / Pow2(fraction + s) && e > 0
    ensures Magnitude(fraction, y) == n
  {
    hide *;
    var m := StepsOfNormal(fraction, s, o, e);
    StepsLeave(fraction, s, k, e, m, n);
    MagnitudeOfNormal(fraction, e - k, m);
    y := (e - k) * Pow2(fraction) + m;
  }

  lemma OrdinalOfNormal(fraction: nat, s: nat, k: nat, o: nat, n: nat) returns (y: nat)
    requires o % Pow2(s) == 0 && Magnitude(fraction + s, o) == n * Pow2(k + s) && n >= Pow2(fraction)
    ensures Magnitude(fraction, y) == n
  {
    hide *;
    NormalsNeedExponents(fraction, s, k, o, n);
    y := OrdinalAt(fraction, s, k, o, n, o / Pow2(fraction + s));
  }

  /** Which wide numbers are values of the 64-bit format: the short ones in its range. */
  lemma F64ValuesAreShortInRange(f: Format, p: Fields)
    requires IsWider(F64, f) && IsNumber(f, p)
    ensures IsF64Value(f, p) <==> IsShort(f, p) && InRange(f, p)
  {
    if x :| SameValue(F64, x, f, p) {
      F64ValueIsShort(f, x, p);
      F64ValueIsInRange(f, x, p);
    }
    if IsShort(f, p) && InRange(f, p) {
      var x := NarrowEncoding(f, p);
    }
  }

  /** The ordinal in the 64-bit format of a short value in its range. */
  lemma NarrowOrdinal(f: Format, p: Fields) returns (y: nat)
    requires IsWider(F64, f) && IsNumber(f, p) && IsShort(f, p) && InRange(f, p)
    ensures y <= MaxOrdinal(F64) && Abs(ValueOf(f, p)) == Magnitude(F64.fraction, y) * Smallest(f)
  {
    hide Pow2, ClassOf, ValueOf, OrdinalOf, MaxOrdinal, Magnitude, Place;
    var s, k := f.fraction - F64.fraction, BiasGap(F64, f);
    var o := ValueIsMagnitude(f, p);
    WholeStepsAreShort(f.fraction, s, o);
    var n := Quotient(Magnitude(f.fraction, o), Smallest(f));
    y := OrdinalOfMultiple(F64.fraction, s, k, o, n);
    AtMostMax(y, n, Smallest(f));
  }

  lemma Quotient(v: nat, d: nat) returns (n: nat)
    requires d > 0 && v % d == 0
    ensures v == n * d
  {
    n := v / d;
  }

  lemma AtMostMax(y: nat, n: nat, d: nat)
    requires d > 0 && Magnitude(F64.fraction, y) == n && n * d <= Magnitude(F64.fraction, MaxOrdinal(F64)) * d
    ensures y <= MaxOrdinal(F64)
  {
    MultiplesApart(Magnitude(F64.fraction, MaxOrdinal(F64)), n, d);
    MagnitudesOrdered(F64.fraction, MaxOrdinal(F64), y);
  }

  lemma NarrowEncoding(f: Format, p: Fields) returns (x: Fields)
    requires IsWider(F64, f) && IsNumber(f, p) && IsShort(f, p) && InRange(f, p)
    ensures SameValue(F64, x, f, p)
  {
    hide Pow2, Magnitude, InRange, BiasGap;
    var y := NarrowOrdinal(f, p);
    var o := ValueIsMagnitude(f, p);
    x := Encode(F64, Signed(p.negative, y));
    EveryOrdinalIsUsed(F64, Signed(p.negative, y));
    var z := ValueIsMagnitude(F64, x);
    assert z == y && (y == 0 || x.negative == p.negative);
    MagnitudesOrdered(F64.fraction, y, y);
    SignedProduct(p.negative, Magnitude(F64.fraction, y), Smallest(f));
  }

  lemma SignedProduct(negative: bool, m: nat, d: nat)
    ensures Signed(negative, m * d) == Signed(negative, m) * d
  {
  }

  /**
   Two wide numbers are measured in steps exactly if both are short. That they are so exactly if both are
   values of the 64-bit format, as documented, holds exactly if they are not both short or both in its range.
   */
  lemma StepsAreForF64Values(f: Format, p: Fields, q: Fields)
    requires IsWider(F64, f) && IsNumber(f, p) && IsNumber(f, q)
    ensures var steps := InSteps(f, OrdinalOf(f, p), OrdinalOf(f, q));
            && (steps <==> IsShort(f, p) && IsShort(f, q))
            && ((steps <==> IsF64Value(f, p) && IsF64Value(f, q))
                <==> !IsShort(f, p) || !IsShort(f, q) || (InRange(f, p) && InRange(f, q)))
  {
    MeasuredInStepsIfShort(f, p, q);
    F64ValuesAreShortInRange(f, p);
    F64ValuesAreShortInRange(f, q);
  }

  /** Two values below the 64-bit format's range that are two steps apart, and many ordinals. */
  lemma TinyValuesAreInSteps(f: Format) returns (p: Fields, q: Fields)
    requires IsWider(F64, f)
    ensures IsNumber(f, p) && IsNumber(f, q) && !IsF64Value(f, p)
    ensures InSteps(f, OrdinalOf(f, p), OrdinalOf(f, q)) && UlpsApart(f, OrdinalOf(f, p), OrdinalOf(f, q)) == LIBM_ULPS
    ensures OrdinalOf(f, q) - OrdinalOf(f, p) == 2 * Pow2(f.fraction - F64.fraction) > LIBM_ULPS
  {
    hide OrdinalOf, Magnitude, Smallest;
    var s := f.fraction - F64.fraction;
    var d := Pow2(s);
    Pow2Grows(2, f.exponent);
    Pow2Grows(s + 2, f.fraction);
    Pow2Grows(1, s);
    MultiplesApart(1, f.Top(), Pow2(f.fraction));
    p, q := Encode(f, d), Encode(f, 3 * d);
    EveryOrdinalIsUsed(f, d);
    EveryOrdinalIsUsed(f, 3 * d);
    Divides(1, 0, d);
    Divides(3, 0, d);
    StepsApart(1, 3, d);
    F64ValuesAreShortInRange(f, p);
    TinyValue(f, p);
  }

  lemma TinyValue(f: Format, p: Fields)
    requires IsWider(F64, f) && IsNumber(f, p) && OrdinalOf(f, p) == Pow2(f.fraction - F64.fraction)
    ensures !InRange(f, p)
  {
    hide Pow2, ValueOf, Magnitude, ClassOf, BiasGap;
    var s := f.fraction - F64.fraction;
    Pow2Grows(s, f.fraction);
    var o := ValueIsMagnitude(f, p);
    SubnormalMagnitude(f.fraction, o);
    Pow2Grows(s, BiasGap(F64, f) + s);
    Divides(0, Pow2(s), Smallest(f));
  }

  /** Both wide formats of a report are wider in this sense. */
  lemma ReportedFormatsAreWider()
    ensures IsWider(F64, F80) && IsWider(F64, F128)
  {
    Pow2Grows(10, 14);
    Pow2Grows(10, 11);
    Pow2Grows(11, 14);
  }
}
