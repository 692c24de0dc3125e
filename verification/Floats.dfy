/**
 The floats of a differential report, as their bits: class and ordinal, and what ordinals say about
 values. A value is counted in units of its format's smallest subnormal (section 3.4 of IEEE
 754-2019; the 80-bit format has an explicit integer bit).
 */
module Floats {
  import opened Wrappers
  import opened Powers

  /** `fraction` counts the bits below the integer bit, explicit or not. */
  datatype Format = Format(digits: nat, exponent: nat, fraction: nat, explicit: bool) {
    /** Significant bits stored below the exponent. */
    function Stored(): nat { fraction + if explicit then 1 else 0 }

    predicate Valid() { 2 <= exponent && 1 <= fraction }

    /** The exponent field of infinities and NaNs. */
    function Top(): nat
      requires Valid()
    {
      Pow2(exponent) - 1
    }
  }

  const F16 := Format(4, 5, 10, false)
  const F32 := Format(8, 8, 23, false)
  const F64 := Format(16, 11, 52, false)
  const F80 := Format(20, 15, 63, true)
  const F128 := Format(32, 15, 112, false)

  const FORMATS := [F16, F32, F64, F80, F128]

  datatype Class = NaN | Infinite | Zero | Finite | Invalid

  datatype Fields = Fields(negative: bool, exponent: nat, stored: nat)

  /** The three fields of an encoding. */
  function Split(f: Format, bits: nat): (r: Fields)
    ensures r.exponent < Pow2(f.exponent) && r.stored < Pow2(f.Stored())
  {
    var above := bits / Pow2(f.Stored());
    Fields(above / Pow2(f.exponent) != 0, above % Pow2(f.exponent), bits % Pow2(f.Stored()))
  }

  function ClassOf(f: Format, p: Fields): Class
    requires f.Valid()
  {
    var integer := p.stored / Pow2(f.fraction);
    var fraction := p.stored % Pow2(f.fraction);
    if f.explicit && (integer == 1) != (p.exponent != 0) then Invalid
    else if p.exponent == f.Top() then (if fraction == 0 then Infinite else NaN)
    else if p.exponent == 0 && fraction == 0 then Zero
    else Finite
  }

  function Signed(negative: bool, magnitude: nat): int {
    if negative then -(magnitude as int) else magnitude
  }

  /** Exponent and fraction as one number, with the sign: what the report measures distances in. */
  function OrdinalOf(f: Format, p: Fields): int {
    Signed(p.negative, p.exponent * Pow2(f.fraction) + p.stored % Pow2(f.fraction))
  }

  predicate IsReal(c: Class) {
    c == Zero || c == Finite
  }

  /** The value of an encoding, in units of the smallest subnormal: sign, integer and fraction bits, exponent. */
  function ValueOf(f: Format, p: Fields): int {
    var significand := if f.explicit then p.stored else p.stored + if p.exponent > 0 then Pow2(f.fraction) else 0;
    Signed(p.negative, Shift(significand, if p.exponent > 0 then p.exponent - 1 else 0))
  }

  // --- Ordinals and values ---

  /** The value whose ordinal is `o`. */
  function Magnitude(fraction: nat, o: nat): nat {
    QuotientAndRemainder(o, Pow2(fraction));
    var e, m := o / Pow2(fraction), o % Pow2(fraction);
    if e == 0 then m else Shift(Pow2(fraction) + m, e - 1)
  }

  /** One unit in the last place at ordinal `o`. */
  function Ulp(fraction: nat, o: nat): nat {
    QuotientAndRemainder(o, Pow2(fraction));
    var e := o / Pow2(fraction);
    Pow2(if e == 0 then 0 else e - 1)
  }

  /** The next ordinal's value is one unit in the last place further. */
  lemma MagnitudeStep(fraction: nat, o: nat)
    ensures Magnitude(fraction, o) + Ulp(fraction, o) == Magnitude(fraction, o + 1)
  {
    var d := Pow2(fraction);
    var e, m := o / d, o % d;
    QuotientAndRemainder(o, d);
    if m + 1 < d {
      Divides(e, m + 1, d);
      MagnitudeIs(fraction, o + 1, e, m + 1);
      if e > 0 {
        ShiftStep(d + m, e - 1);
      }
    } else {
      Divides(e + 1, 0, d);
      MultipleStep(e, d);
      MagnitudeIs(fraction, o + 1, e + 1, 0);
      if e > 0 {
        ShiftStep(d + m, e - 1);
        ShiftTwice(d, e - 1);
      }
    }
  }

  lemma MultipleStep(e: nat, d: nat)
    ensures (e + 1) * d == e * d + d
  {
  }

  lemma MagnitudeIs(fraction: nat, o: nat, e: nat, m: nat)
    requires o / Pow2(fraction) == e && o % Pow2(fraction) == m
    ensures Magnitude(fraction, o) == if e == 0 then m else Shift(Pow2(fraction) + m, e - 1)
  {
  }

  lemma ShiftStep(m: nat, n: nat)
    ensures Shift(m + 1, n) == Shift(m, n) + Pow2(n)
  {
  }

  lemma {:induction false} ShiftTwice(m: nat, n: nat)
    ensures Shift(2 * m, n) == Shift(m, n + 1)
    decreases n
  {
    if n > 0 {
      ShiftTwice(m, n - 1);
    }
  }

  lemma {:induction false} MagnitudeGrows(fraction: nat, a: nat, b: nat)
    ensures a < b ==> Magnitude(fraction, a) < Magnitude(fraction, b)
    decreases b
  {
    if a < b {
      MagnitudeStep(fraction, b - 1);
      MagnitudeGrows(fraction, a, b - 1);
    }
  }

  function Abs(x: int): nat {
    if x < 0 then -x else x
  }

  /** The integer bit of a valid encoding says whether its exponent is not zero. */
  function Significand(f: Format, p: Fields): nat {
    p.stored % Pow2(f.fraction) + if p.exponent > 0 then Pow2(f.fraction) else 0
  }

  lemma IntegerBitFollows(f: Format, p: Fields)
    requires f.Valid() && p.stored < Pow2(f.Stored()) && IsReal(ClassOf(f, p))
    ensures Significand(f, p) == if f.explicit then p.stored else p.stored + if p.exponent > 0 then Pow2(f.fraction)
        else 0
  {
    if f.explicit {
      TopBit(p.stored, Pow2(f.fraction));
    } else {
      Divides(0, p.stored, Pow2(f.fraction));
    }
  }

  lemma SignificandIsMagnitude(fraction: nat, e: nat, m: nat)
    requires m < Pow2(fraction)
    ensures var s := m + if e > 0 then Pow2(fraction) else 0;
            Magnitude(fraction, e * Pow2(fraction) + m) == Shift(s, if e > 0 then e - 1 else 0)
  {
    Divides(e, m, Pow2(fraction));
    MagnitudeIs(fraction, e * Pow2(fraction) + m, e, m);
  }

  /** A finite encoding's value is that of its ordinal, and they have one sign. */
  lemma ValueIsMagnitude(f: Format, p: Fields) returns (o: nat)
    requires f.Valid() && p.stored < Pow2(f.Stored()) && IsReal(ClassOf(f, p))
    ensures OrdinalOf(f, p) == Signed(p.negative, o) && ValueOf(f, p) == Signed(p.negative, Magnitude(f.fraction, o))
  {
    var m := p.stored % Pow2(f.fraction);
    o := p.exponent * Pow2(f.fraction) + m;
    IntegerBitFollows(f, p);
    SignificandIsMagnitude(f.fraction, p.exponent, m);
  }

  // --- Order ---

  ghost predicate IsNumber(f: Format, p: Fields) {
    f.Valid() && p.exponent < Pow2(f.exponent) && p.stored < Pow2(f.Stored()) && IsReal(ClassOf(f, p))
  }

  lemma MagnitudesOrdered(fraction: nat, a: nat, b: nat)
    ensures Magnitude(fraction, a) < Magnitude(fraction, b) <==> a < b
    ensures Magnitude(fraction, a) == 0 <==> a == 0
  {
    MagnitudeGrows(fraction, a, b);
    MagnitudeGrows(fraction, b, a);
    MagnitudeGrows(fraction, 0, a);
    Divides(0, 0, Pow2(fraction));
  }

  /** Ordinals are ordered as the values are; only the two zeros share one. */
  lemma OrdinalsOrderValues(f: Format, p: Fields, q: Fields)
    requires IsNumber(f, p) && IsNumber(f, q)
    ensures ValueOf(f, p) < ValueOf(f, q) <==> OrdinalOf(f, p) < OrdinalOf(f, q)
    ensures ValueOf(f, p) == ValueOf(f, q) <==> OrdinalOf(f, p) == OrdinalOf(f, q)
  {
    var a := ValueIsMagnitude(f, p);
    var b := ValueIsMagnitude(f, q);
    MagnitudesOrdered(f.fraction, a, b);
    MagnitudesOrdered(f.fraction, b, a);
  }

  /** The largest ordinal of a finite value. */
  function MaxOrdinal(f: Format): int
    requires f.Valid()
  {
    f.Top() * Pow2(f.fraction) - 1
  }

  /** The encoding with this ordinal. */
  function Encode(f: Format, k: int): Fields {
    EncodeMagnitude(f, k < 0, Abs(k))
  }

  function EncodeMagnitude(f: Format, negative: bool, o: nat): Fields {
    QuotientAndRemainder(o, Pow2(f.fraction));
    var e, m := o / Pow2(f.fraction), o % Pow2(f.fraction);
    Fields(negative, e, m + if f.explicit && e > 0 then Pow2(f.fraction) else 0)
  }

  lemma QuotientBelow(n: nat, d: nat, t: int)
    requires d > 0 && n < t * d
    ensures n / d < t
  {
    QuotientAndRemainder(n, d);
    MultiplesApart(t, n / d, d);
  }

  /** Every ordinal up to the largest is that of a number. */
  lemma EveryOrdinalIsUsed(f: Format, k: int)
    requires f.Valid() && Abs(k) <= MaxOrdinal(f)
    ensures IsNumber(f, Encode(f, k)) && OrdinalOf(f, Encode(f, k)) == k
  {
    var d, p := Pow2(f.fraction), Encode(f, k);
    var e, m := Abs(k) / d, Abs(k) % d;
    QuotientAndRemainder(Abs(k), d);
    QuotientBelow(Abs(k), d, f.Top());
    if f.explicit {
      Divides(if e > 0 then 1 else 0, m, d);
    } else {
      Divides(0, m, d);
    }
  }

  lemma OrdinalsEnd(f: Format, p: Fields)
    requires IsNumber(f, p)
    ensures Abs(OrdinalOf(f, p)) <= MaxOrdinal(f)
  {
    var d := Pow2(f.fraction);
    QuotientAndRemainder(p.stored, d);
    MultiplesApart(p.exponent, f.Top(), d);
  }

  ghost predicate IsBetween(f: Format, p: Fields, r: Fields, q: Fields) {
    IsNumber(f, r) && ValueOf(f, p) < ValueOf(f, r) < ValueOf(f, q)
  }

  /** What lies between two numbers is what their ordinals leave between them. */
  lemma BetweenOrdinals(f: Format, p: Fields, q: Fields, k: int)
    requires IsNumber(f, p) && IsNumber(f, q) && OrdinalOf(f, p) < k < OrdinalOf(f, q)
    ensures IsBetween(f, p, Encode(f, k), q) && OrdinalOf(f, Encode(f, k)) == k
  {
    OrdinalsEnd(f, p);
    OrdinalsEnd(f, q);
    EveryOrdinalIsUsed(f, k);
    OrdinalsOrderValues(f, p, Encode(f, k));
    OrdinalsOrderValues(f, Encode(f, k), q);
  }

  /** Ordinals are one apart exactly when no number lies between the values. */
  lemma NeighboursAreOneApart(f: Format, p: Fields, q: Fields)
    requires IsNumber(f, p) && IsNumber(f, q) && ValueOf(f, p) < ValueOf(f, q)
    ensures OrdinalOf(f, q) == OrdinalOf(f, p) + 1 <==> forall r :: !IsBetween(f, p, r, q)
  {
    OrdinalsOrderValues(f, p, q);
    if OrdinalOf(f, p) + 1 < OrdinalOf(f, q) {
      BetweenOrdinals(f, p, q, OrdinalOf(f, p) + 1);
    }
    forall r | IsBetween(f, p, r, q)
      ensures OrdinalOf(f, p) < OrdinalOf(f, r) < OrdinalOf(f, q)
    {
      OrdinalsOrderValues(f, p, r);
      OrdinalsOrderValues(f, r, q);
    }
  }

  /** And at most two apart exactly when no two numbers with different values do. */
  lemma CloseMeansFewBetween(f: Format, p: Fields, q: Fields)
    requires IsNumber(f, p) && IsNumber(f, q) && ValueOf(f, p) <= ValueOf(f, q)
    ensures Abs(OrdinalOf(f, p) - OrdinalOf(f, q)) <= 2
            <==> forall r, s :: IsBetween(f, p, r, q) && IsBetween(f, p, s, q) ==> ValueOf(f, r) == ValueOf(f, s)
  {
    OrdinalsOrderValues(f, p, q);
    var k := OrdinalOf(f, p);
    if OrdinalOf(f, q) > k + 2 {
      BetweenOrdinals(f, p, q, k + 1);
      BetweenOrdinals(f, p, q, k + 2);
      OrdinalsOrderValues(f, Encode(f, k + 1), Encode(f, k + 2));
      assert IsBetween(f, p, Encode(f, k + 1), q) && IsBetween(f, p, Encode(f, k + 2), q);
    } else {
      forall r, s | IsBetween(f, p, r, q) && IsBetween(f, p, s, q)
        ensures ValueOf(f, r) == ValueOf(f, s)
      {
        OrdinalsOrderValues(f, p, r);
        OrdinalsOrderValues(f, r, q);
        OrdinalsOrderValues(f, p, s);
        OrdinalsOrderValues(f, s, q);
        OrdinalsOrderValues(f, r, s);
      }
    }
  }

  // --- Leaves of a report ---

  datatype Leaf = Leaf(format: Format, cls: Class, ordinal: int)

  datatype HostKind = NanPayload | ZeroSign | LibmUlp

  predicate IsHexDigit(c: char) {
    '0' <= c <= '9' || 'a' <= c <= 'f'
  }

  function HexValue(s: string): nat
    requires forall c :: c in s ==> IsHexDigit(c)
  {
    if s == "" then 0 else
      var n := |s| - 1;
      16 * HexValue(s[..n]) + DigitValue(s[n])
  }

  function DigitValue(c: char): nat
    requires IsHexDigit(c)
  {
    if '0' <= c <= '9' then c as int - '0' as int else c as int - 'a' as int + 10
  }

  /** The format whose encodings have so many hex digits. */
  function FormatOf(digits: nat): (r: Option<Format>)
    ensures r.Some? ==> r.value.digits == digits && r.value in FORMATS && r.value.Valid()
  {
    match digits
    case 4 => Some(F16)
    case 8 => Some(F32)
    case 16 => Some(F64)
    case 20 => Some(F80)
    case 32 => Some(F128)
    case _ => None
  }

  predicate IsHex(leaf: string) {
    |leaf| > 2 && leaf[..2] == "0x" && forall c :: c in leaf[2..] ==> IsHexDigit(c)
  }

  /** Format, class and ordinal of a float leaf; anything else is none. */
  function FloatLeaf(leaf: string): Option<Leaf> {
    if !IsHex(leaf) || FormatOf(|leaf| - 2).None? then None else
      var f := FormatOf(|leaf| - 2).value;
      var p := Split(f, HexValue(leaf[2..]));
      Some(Leaf(f, ClassOf(f, p), OrdinalOf(f, p)))
  }

  const LIBM_ULPS := 2

  /** Both ordinals of a wide format are whole steps of F64's spacing. */
  predicate InSteps(f: Format, a: int, b: int) {
    f.fraction > F64.fraction && a % Pow2(f.fraction - F64.fraction) == 0 && b % Pow2(f.fraction - F64.fraction) == 0
  }

  /** The distance of two ordinals, in steps of F64 when both are whole steps. */
  function UlpsApart(f: Format, a: int, b: int): nat {
    if InSteps(f, a, b) then Steps(Abs(a - b), Pow2(f.fraction - F64.fraction)) else Abs(a - b)
  }

  function Steps(n: nat, d: nat): nat
    requires d > 0
  {
    QuotientAndRemainder(n, d);
    n / d
  }

  /** The kinds of host difference that explain two differing leaves. */
  function LeafHostKinds(native: string, model: string): set<HostKind> {
    var n, m := FloatLeaf(native), FloatLeaf(model);
    if n.None? || m.None? || n.value.format.digits != m.value.format.digits then {}
    else if n.value.cls == NaN && m.value.cls == NaN then {NanPayload}
    else if n.value.cls == Zero && m.value.cls == Zero then {ZeroSign}
    else if IsReal(n.value.cls) && IsReal(m.value.cls) then
      if UlpsApart(n.value.format, n.value.ordinal, m.value.ordinal) <= LIBM_ULPS then {LibmUlp} else {}
    else {}
  }

  ghost predicate IsLeafOf(leaf: string, f: Format, p: Fields) {
    IsHex(leaf) && |leaf| - 2 == f.digits && p == Split(f, HexValue(leaf[2..])) && FormatOf(f.digits) == Some(f)
  }

  // --- Short values: no more significant bits than F64 has ---

  /** The binary place of the last digit at ordinal `o`. */
  function Place(fraction: nat, o: nat): nat {
    QuotientAndRemainder(o, Pow2(fraction));
    var e := o / Pow2(fraction);
    if e == 0 then 0 else e - 1
  }

  /** A value of a wide format whose last places, those F64 does not have, are zero. */
  predicate IsShort(f: Format, p: Fields) {
    && f.fraction > F64.fraction
    && Abs(ValueOf(f, p)) % Pow2(f.fraction - F64.fraction + Place(f.fraction, Abs(OrdinalOf(f, p)))) == 0
  }

  lemma MultipleOf(n: nat, q: nat, d: nat)
    requires n == q * d && d > 0
    ensures n % d == 0 && n / d == q
  {
    Divides(q, 0, d);
  }

  lemma ScaledMultiple(n: nat, d: nat, p: nat)
    requires d > 0 && p > 0 && d * p > 0
    ensures (n * p) % (d * p) == 0 <==> n % d == 0
  {
    QuotientAndRemainder(n, d);
    var q, r := n / d, n % d;
    assert n * p == q * (d * p) + r * p by {
      assert (q * d) * p == q * (d * p);
    }
    MultiplesApart(r, d, p);
    Divides(q, r * p, d * p);
    if r > 0 {
      MultiplesApart(0, r, p);
    }
  }

  lemma SameRemainder(q: nat, m: nat, d: nat)
    requires d > 0
    ensures (q * d + m) % d == m % d
  {
    QuotientAndRemainder(m, d);
    assert q * d + m == (q + m / d) * d + m % d;
    Divides(q + m / d, m % d, d);
  }

  lemma MultipleOfProduct(a: nat, b: nat, m: nat, d: nat)
    requires d > 0
    ensures (a * (b * d) + m) % d == m % d
  {
    assert a * (b * d) == (a * b) * d;
    SameRemainder(a * b, m, d);
  }

  /** An ordinal is a whole number of steps exactly if its value's last places are zero. */
  lemma WholeStepsAreShort(fraction: nat, s: nat, o: nat)
    requires s <= fraction
    ensures o % Pow2(s) == 0 <==> Magnitude(fraction, o) % Pow2(s + Place(fraction, o)) == 0
  {
    var d := Pow2(fraction);
    QuotientAndRemainder(o, d);
    var e, m := o / d, o % d;
    MagnitudeIs(fraction, o, e, m);
    var c := m + if e > 0 then d else 0;
    Pow2Add(fraction - s, s);
    MultipleOfProduct(e, Pow2(fraction - s), m, Pow2(s));
    MultipleOfProduct(if e > 0 then 1 else 0, Pow2(fraction - s), m, Pow2(s));
    assert c % Pow2(s) == o % Pow2(s);
    Pow2Add(s, Place(fraction, o));
    ScaledMultiple(c, Pow2(s), Pow2(Place(fraction, o)));
    assert Magnitude(fraction, o) == c * Pow2(Place(fraction, o));
  }

  lemma WholeQuotient(o: int, d: nat) returns (k: int)
    requires d > 0 && o % d == 0
    ensures o == k * d
  {
    k := o / d;
  }

  lemma NegatedMultiple(o: int, d: nat)
    requires d > 0
    ensures (-o) % d == 0 <==> o % d == 0
  {
    if o % d == 0 {
      var k := WholeQuotient(o, d);
      assert -o == (-k) * d;
      Divides(-k, 0, d);
    }
    if (-o) % d == 0 {
      var k := WholeQuotient(-o, d);
      assert o == (-k) * d;
      Divides(-k, 0, d);
    }
  }

  lemma ShortOrdinal(f: Format, p: Fields)
    requires IsNumber(f, p) && f.fraction > F64.fraction
    ensures IsShort(f, p) <==> OrdinalOf(f, p) % Pow2(f.fraction - F64.fraction) == 0
  {
    var o := ValueIsMagnitude(f, p);
    WholeStepsAreShort(f.fraction, f.fraction - F64.fraction, o);
    NegatedMultiple(o, Pow2(f.fraction - F64.fraction));
  }

  /** A pair is measured in steps exactly if both are short values of a wide format. */
  lemma MeasuredInStepsIfShort(f: Format, p: Fields, q: Fields)
    requires IsNumber(f, p) && IsNumber(f, q)
    ensures InSteps(f, OrdinalOf(f, p), OrdinalOf(f, q)) <==> IsShort(f, p) && IsShort(f, q)
  {
    if f.fraction > F64.fraction {
      ShortOrdinal(f, p);
      ShortOrdinal(f, q);
    }
  }

  lemma StepsApart(a: int, b: int, d: nat)
    requires d > 0
    ensures Steps(Abs(a * d - b * d), d) == Abs(a - b)
  {
    var n := Abs(a - b);
    assert a * d - b * d == (a - b) * d;
    assert Abs(a * d - b * d) == n * d;
    MultipleOf(n * d, n, d);
  }

  lemma ShortBetween(f: Format, p: Fields, q: Fields, a: int, b: int, k: int)
    requires IsNumber(f, p) && IsNumber(f, q) && f.fraction > F64.fraction && a < k < b
    requires OrdinalOf(f, p) == a * Pow2(f.fraction - F64.fraction)
        && OrdinalOf(f, q) == b * Pow2(f.fraction - F64.fraction)
    ensures var r := Encode(f, k * Pow2(f.fraction - F64.fraction));
            IsBetween(f, p, r, q) && IsShort(f, r) && OrdinalOf(f, r) == k * Pow2(f.fraction - F64.fraction)
  {
    var d := Pow2(f.fraction - F64.fraction);
    MultiplesApart(a, k, d);
    MultiplesApart(k, b, d);
    BetweenOrdinals(f, p, q, k * d);
    Divides(k, 0, d);
    ShortOrdinal(f, Encode(f, k * d));
  }

  lemma ShortIsBetween(f: Format, p: Fields, r: Fields, q: Fields, a: int, b: int) returns (k: int)
    requires IsNumber(f, p) && IsNumber(f, q) && f.fraction > F64.fraction && IsBetween(f, p, r, q) && IsShort(f, r)
    requires OrdinalOf(f, p) == a * Pow2(f.fraction - F64.fraction)
        && OrdinalOf(f, q) == b * Pow2(f.fraction - F64.fraction)
    ensures OrdinalOf(f, r) == k * Pow2(f.fraction - F64.fraction) && a < k < b
  {
    var d := Pow2(f.fraction - F64.fraction);
    ShortOrdinal(f, r);
    k := WholeQuotient(OrdinalOf(f, r), d);
    OrdinalsOrderValues(f, p, r);
    OrdinalsOrderValues(f, r, q);
    hide *;
    MultiplesApart(k, a, d);
    MultiplesApart(b, k, d);
  }

  /** Two short values are at most two steps apart exactly when no two different short ones lie between. */
  lemma CloseStepsMeanFewBetween(f: Format, p: Fields, q: Fields)
    requires IsNumber(f, p) && IsNumber(f, q) && IsShort(f, p) && IsShort(f, q) && ValueOf(f, p) <= ValueOf(f, q)
    ensures UlpsApart(f, OrdinalOf(f, p), OrdinalOf(f, q)) <= 2
            <==> forall r, s :: IsBetween(f, p, r, q) && IsBetween(f, p, s, q) && IsShort(f, r) && IsShort(f, s) ==>
                   ValueOf(f, r) == ValueOf(f, s)
  {
    var d := Pow2(f.fraction - F64.fraction);
    ShortOrdinal(f, p);
    ShortOrdinal(f, q);
    var a := WholeQuotient(OrdinalOf(f, p), d);
    var b := WholeQuotient(OrdinalOf(f, q), d);
    OrdinalsOrderValues(f, p, q);
    StepsApart(a, b, d);
    MultiplesApart(b, a, d);
    assert UlpsApart(f, OrdinalOf(f, p), OrdinalOf(f, q)) == Abs(a - b);
    assert a <= b;
    hide OrdinalOf, ValueOf, IsShort, IsNumber, UlpsApart, Pow2;
    if b > a + 2 {
      ShortBetween(f, p, q, a, b, a + 1);
      ShortBetween(f, p, q, a, b, a + 2);
      MultiplesApart(a + 1, a + 2, d);
      OrdinalsOrderValues(f, Encode(f, (a + 1) * d), Encode(f, (a + 2) * d));
    } else {
      forall r, s | IsBetween(f, p, r, q) && IsBetween(f, p, s, q) && IsShort(f, r) && IsShort(f, s)
        ensures ValueOf(f, r) == ValueOf(f, s)
      {
        var k := ShortIsBetween(f, p, r, q, a, b);
        var l := ShortIsBetween(f, p, s, q, a, b);
        OrdinalsOrderValues(f, r, s);
      }
    }
  }

  /** At most one value lies strictly between; of a short pair, at most one short value. */
  ghost predicate FewBetween(f: Format, p: Fields, q: Fields) {
    forall r, s ::
      && IsBetween(f, p, r, q) && IsBetween(f, p, s, q)
      && (IsShort(f, p) && IsShort(f, q) ==> IsShort(f, r) && IsShort(f, s))
      ==> ValueOf(f, r) == ValueOf(f, s)
  }

  /** A pair of one format counts as a libm difference exactly if at most one value that matters lies between. */
  lemma LibmMeansFewBetween(native: string, model: string, f: Format, p: Fields, q: Fields)
    requires IsLeafOf(native, f, p) && IsLeafOf(model, f, q)
    requires IsNumber(f, p) && IsNumber(f, q) && !(ClassOf(f, p) == Zero && ClassOf(f, q) == Zero)
    requires ValueOf(f, p) <= ValueOf(f, q)
    ensures LibmUlp in LeafHostKinds(native, model) <==> FewBetween(f, p, q)
  {
    MeasuredInStepsIfShort(f, p, q);
    if IsShort(f, p) && IsShort(f, q) {
      CloseStepsMeanFewBetween(f, p, q);
    } else {
      CloseMeansFewBetween(f, p, q);
    }
  }

  // --- What the kinds mean ---

  /** All ones in the exponent field, under the integer bit if that is stored. */
  ghost predicate IsTop(f: Format, p: Fields)
    requires f.Valid()
  {
    p.exponent == Pow2(f.exponent) - 1 && (f.explicit ==> p.stored / Pow2(f.fraction) == 1)
  }

  ghost predicate IsNaN(f: Format, p: Fields)
    requires f.Valid()
  {
    IsTop(f, p) && p.stored % Pow2(f.fraction) != 0
  }

  /** An encoding of a number: a smaller exponent, and an integer bit that agrees with it. */
  ghost predicate EncodesNumber(f: Format, p: Fields)
    requires f.Valid()
  {
    && p.exponent < Pow2(f.exponent) - 1
    && (f.explicit ==> (p.stored / Pow2(f.fraction) == 1 <==> p.exponent > 0))
  }

  lemma ClassesMean(f: Format, bits: nat)
    requires f.Valid()
    ensures var p := Split(f, bits);
            && (IsNumber(f, p) <==> EncodesNumber(f, p))
            && (ClassOf(f, p) == NaN <==> IsNaN(f, p))
            && (ClassOf(f, p) == Zero <==> EncodesNumber(f, p) && ValueOf(f, p) == 0)
  {
    var p := Split(f, bits);
    if IsNumber(f, p) {
      var o := ValueIsMagnitude(f, p);
      MagnitudesOrdered(f.fraction, o, 0);
      ZeroOrdinal(p.exponent, p.stored % Pow2(f.fraction), Pow2(f.fraction));
    }
    if f.exponent > 0 {
      ExponentsDiffer(f);
    }
  }

  lemma ExponentsDiffer(f: Format)
    requires f.Valid()
    ensures f.Top() > 0
  {
    assert Pow2(f.exponent) == 2 * Pow2(f.exponent - 1);
  }

  lemma ZeroOrdinal(e: nat, m: nat, d: nat)
    requires d > 0
    ensures e * d + m == 0 <==> e == 0 && m == 0
  {
    if e > 0 {
      assert e * d >= d;
    }
  }

  /**
   Two leaves of one format differ as NaN payloads exactly if both are NaNs, as zero signs exactly if both are zero,
   as libm differences exactly if both are numbers, not both zero, with few between; anything else explains nothing.
   */
  lemma KindsMean(native: string, model: string, f: Format, p: Fields, q: Fields)
    requires IsLeafOf(native, f, p) && IsLeafOf(model, f, q)
    ensures NanPayload in LeafHostKinds(native, model) <==> IsNaN(f, p) && IsNaN(f, q)
    ensures ZeroSign in LeafHostKinds(native, model)
        <==> EncodesNumber(f, p) && EncodesNumber(f, q) && ValueOf(f, p) == 0 && ValueOf(f, q) == 0
    ensures LibmUlp in LeafHostKinds(native, model)
        <==> && EncodesNumber(f, p) && EncodesNumber(f, q) && !(ValueOf(f, p) == 0 && ValueOf(f, q) == 0)
             && if ValueOf(f, p) <= ValueOf(f, q) then FewBetween(f, p, q) else FewBetween(f, q, p)
  {
    ClassesMean(f, HexValue(native[2..]));
    ClassesMean(f, HexValue(model[2..]));
    if IsNumber(f, p) && IsNumber(f, q) && !(ClassOf(f, p) == Zero && ClassOf(f, q) == Zero) {
      if ValueOf(f, p) <= ValueOf(f, q) {
        LibmMeansFewBetween(native, model, f, p, q);
      } else {
        LibmMeansFewBetween(model, native, f, q, p);
        KindsAreSymmetric(native, model);
      }
    }
  }

  lemma KindsAreSymmetric(native: string, model: string)
    ensures LeafHostKinds(native, model) == LeafHostKinds(model, native)
  {
    hide Split, ClassOf, OrdinalOf, HexValue, UlpsApart;
    var n, m := FloatLeaf(native), FloatLeaf(model);
    if n.Some? && m.Some? {
      UlpsAreSymmetric(n.value.format, n.value.ordinal, m.value.ordinal);
    }
  }

  lemma UlpsAreSymmetric(f: Format, a: int, b: int)
    ensures UlpsApart(f, a, b) == UlpsApart(f, b, a)
  {
  }

  // --- Bits and leaves ---

  function DigitOf(d: nat): (c: char)
    requires d < 16
    ensures IsHexDigit(c) && DigitValue(c) == d
  {
    if d < 10 then ('0' as int + d) as char else ('a' as int + (d - 10)) as char
  }

  /** A number in k hex digits. */
  function HexOf(n: nat, k: nat): (s: string)
    ensures |s| == k && forall c :: c in s ==> IsHexDigit(c)
    decreases k
  {
    if k == 0 then "" else HexOf(n / 16, k - 1) + [DigitOf(n % 16)]
  }

  lemma {:induction false} HexReadsBack(n: nat, k: nat)
    requires n < Pow2(4 * k)
    ensures HexValue(HexOf(n, k)) == n
    decreases k
  {
    if k > 0 {
      assert Pow2(4 * k) == 16 * Pow2(4 * (k - 1)) by {
        Pow2Add(4, 4 * (k - 1));
        assert Pow2(4) == 16;
      }
      HexReadsBack(n / 16, k - 1);
      var s := HexOf(n, k);
      assert s[..k - 1] == HexOf(n / 16, k - 1);
    }
  }

  /** The fields are the bits: sign, exponent, and the rest below it. */
  lemma SplitJoins(f: Format, bits: nat)
    requires bits < 2 * Pow2(f.exponent) * Pow2(f.Stored())
    ensures var p := Split(f, bits);
            bits == ((if p.negative then Pow2(f.exponent) else 0) + p.exponent) * Pow2(f.Stored()) + p.stored
  {
    var above := bits / Pow2(f.Stored());
    QuotientAndRemainder(bits, Pow2(f.Stored()));
    QuotientAndRemainder(above, Pow2(f.exponent));
    QuotientBelow(bits, Pow2(f.Stored()), 2 * Pow2(f.exponent));
    QuotientBelow(above, Pow2(f.exponent), 2);
  }

  /** Every bit pattern of a format is that of one leaf. */
  lemma EveryPatternHasALeaf(f: Format, bits: nat)
    requires f in FORMATS && bits < Pow2(4 * f.digits)
    ensures IsLeafOf("0x" + HexOf(bits, f.digits), f, Split(f, bits))
    ensures 4 * f.digits == 1 + f.exponent + f.Stored()
  {
    var leaf := "0x" + HexOf(bits, f.digits);
    HexReadsBack(bits, f.digits);
    assert leaf[..2] == "0x" && leaf[2..] == HexOf(bits, f.digits);
    hide HexOf, HexValue, Split, Pow2;
    assert f == F16 || f == F32 || f == F64 || f == F80 || f == F128;
  }
}
