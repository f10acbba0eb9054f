/** Monetary rounding: the tie rules of `RoundingPolicy` over exact decimals.

    A decimal is a `real`; rounding to `decimalPlaces` places counts quanta of
    10^-decimalPlaces, rounds that count to an integer and scales back. */
module PayrollRounding {

  datatype TieRule = RoundHalfUp | RoundHalfDown | RoundHalfEven

  function PowerOfTen(n: nat): (p: real)
    ensures p >= 1.0
  {
    if n == 0 then 1.0 else 10.0 * PowerOfTen(n - 1)
  }

  /** `quantize` keeps the sign apart and decides on the digits it cuts off:
      more than half goes away from zero, exactly half follows the method. */
  function RoundMagnitude(x: real, tie: TieRule): nat
    requires x >= 0.0
  {
    var whole := x.Floor;
    var cut := x - whole as real;
    if cut > 0.5 then whole + 1
    else if cut == 0.5 && (tie == RoundHalfUp || (tie == RoundHalfEven && whole % 2 == 1)) then whole + 1
    else whole
  }

  function RoundToInt(x: real, tie: TieRule): int {
    if x < 0.0 then 0 - RoundMagnitude(-x, tie) else RoundMagnitude(x, tie)
  }

  /** The policy counts a value in quanta (`Units`) and turns a count of quanta
      back into a value (`Quanta`). */
  datatype RoundingPolicy = RoundingPolicy(tie: TieRule, decimalPlaces: nat) {

    function Quantum(): (q: real)
      ensures q > 0.0
    {
      1.0 / PowerOfTen(decimalPlaces)
    }

    function Units(value: real): real {
      Product(value, PowerOfTen(decimalPlaces))
    }

    function Quanta(k: int): real {
      Product(k as real, Quantum())
    }

    function Apply(value: real): real {
      Quanta(RoundToInt(Units(value), tie))
    }

    ghost predicate IsMultiple(value: real) {
      exists k: int :: value == Quanta(k)
    }
  }

  function Product(a: real, b: real): real { a * b }

  function Abs(x: real): real { if x < 0.0 then -x else x }

  /** What rounding to an integer means, said without computing it: the nearest
      integer, and on an exact tie the one the method names. */
  ghost predicate IsRounding(x: real, r: int, tie: TieRule) {
    var error := Abs(x - r as real);
    || error < 0.5
    || (error == 0.5 && match tie
                        case RoundHalfUp => Abs(r as real) > Abs(x)
                        case RoundHalfDown => Abs(r as real) < Abs(x)
                        case RoundHalfEven => r % 2 == 0)
  }

  /** A policy without decimal places counts in units, each further place in tenths of
      the quantum before: two places are hundredths. */
  lemma QuantumSays(tie: TieRule, places: nat)
    ensures RoundingPolicy(tie, 0).Quantum() == 1.0
    ensures RoundingPolicy(tie, places + 1).Quantum() == RoundingPolicy(tie, places).Quantum() / 10.0
    ensures RoundingPolicy(tie, 2).Quantum() == 0.01
  {
    var p := PowerOfTen(places);
    assert 1.0 / (10.0 * p) == 1.0 / p / 10.0;
    assert PowerOfTen(2) == 100.0;
  }

  lemma RoundToIntMeaning(x: real, r: int, tie: TieRule)
    ensures IsRounding(x, r, tie) <==> r == RoundToInt(x, tie)
  {
    var m := Abs(x);
    var whole := m.Floor;
    assert whole as real <= m < whole as real + 1.0;
    assert IsRounding(x, RoundToInt(x, tie), tie);
    if IsRounding(x, r, tie) {
      var d := RoundToInt(x, tie);
      assert -1.0 <= (r - d) as real <= 1.0;
      assert r == d || r == d + 1 || r == d - 1;
    }
  }

  lemma RoundToIntOnIntegers(k: int, tie: TieRule)
    ensures RoundToInt(k as real, tie) == k
  {
    RoundToIntMeaning(k as real, k, tie);
  }

  lemma RoundToIntMonotone(x: real, y: real, tie: TieRule)
    requires x <= y
    ensures RoundToInt(x, tie) <= RoundToInt(y, tie)
  {
    var r, s := RoundToInt(x, tie), RoundToInt(y, tie);
    RoundToIntMeaning(x, r, tie);
    RoundToIntMeaning(y, s, tie);
    // rounding up past the other needs both values on the same tie
    assert r as real <= x + 0.5 && s as real >= y - 0.5;
    assert r > s ==> x == y;
  }

  lemma ScaleOrder(a: real, b: real, q: real)
    requires a <= b && q > 0.0
    ensures Product(a, q) <= Product(b, q)
    ensures a < b ==> Product(a, q) < Product(b, q)
  {
    assert (b - a) * q >= 0.0;
    assert b * q == a * q + (b - a) * q;
  }

  lemma ScaleLinear(a: real, b: real, q: real)
    ensures Product(a + b, q) == Product(a, q) + Product(b, q)
    ensures Product(a - b, q) == Product(a, q) - Product(b, q)
    ensures Product(-a, q) == -Product(a, q)
  {
  }

  lemma ScaleInverse(a: real, p: real)
    requires p > 0.0
    ensures Product(Product(a, p), 1.0 / p) == a
    ensures Product(Product(a, 1.0 / p), p) == a
  {
    assert p * (1.0 / p) == 1.0;
    assert a * p * (1.0 / p) == a * (p * (1.0 / p));
    assert a * (1.0 / p) * p == a * (p * (1.0 / p));
  }

  lemma UnitsOfQuanta(policy: RoundingPolicy, k: int)
    ensures policy.Units(policy.Quanta(k)) == k as real
  {
    ScaleInverse(k as real, PowerOfTen(policy.decimalPlaces));
  }

  /** A distance counted in quanta is that many quanta. */
  lemma QuantaDistance(policy: RoundingPolicy, value: real, k: int)
    ensures Abs(value - policy.Quanta(k)) == Product(Abs(policy.Units(value) - k as real), policy.Quantum())
  {
    var d := policy.Units(value) - k as real;
    ScaleInverse(value, PowerOfTen(policy.decimalPlaces));
    ScaleLinear(policy.Units(value), k as real, policy.Quantum());
    ScaleLinear(d, 0.0, policy.Quantum());
    if d < 0.0 { ScaleOrder(d, 0.0, policy.Quantum()); } else { ScaleOrder(0.0, d, policy.Quantum()); }
  }

  /** Main result: the rounded amount is a multiple of the quantum, no further
      than half a quantum away, and no multiple is nearer. */
  lemma ApplyIsNearestMultiple(policy: RoundingPolicy, value: real)
    ensures policy.IsMultiple(policy.Apply(value))
    ensures Abs(value - policy.Apply(value)) <= policy.Quantum() / 2.0
    ensures forall k: int :: Abs(value - policy.Apply(value)) <= Abs(value - policy.Quanta(k))
  {
    var x := policy.Units(value);
    var r := RoundToInt(x, policy.tie);
    RoundToIntMeaning(x, r, policy.tie);
    QuantaDistance(policy, value, r);
    ScaleOrder(Abs(x - r as real), 0.5, policy.Quantum());
    assert Product(0.5, policy.Quantum()) == policy.Quantum() / 2.0;
    forall k: int
      ensures Abs(value - policy.Apply(value)) <= Abs(value - policy.Quanta(k))
    {
      QuantaDistance(policy, value, k);
      assert r == k || Abs((r - k) as real) >= 1.0;
      ScaleOrder(Abs(x - r as real), Abs(x - k as real), policy.Quantum());
    }
  }

  lemma ApplyMonotone(policy: RoundingPolicy, a: real, b: real)
    requires a <= b
    ensures policy.Apply(a) <= policy.Apply(b)
  {
    ScaleOrder(a, b, PowerOfTen(policy.decimalPlaces));
    var r, s := RoundToInt(policy.Units(a), policy.tie), RoundToInt(policy.Units(b), policy.tie);
    RoundToIntMonotone(policy.Units(a), policy.Units(b), policy.tie);
    ScaleOrder(r as real, s as real, policy.Quantum());
  }

  lemma ApplyOfMultiple(policy: RoundingPolicy, k: int)
    ensures policy.Apply(policy.Quanta(k)) == policy.Quanta(k)
  {
    UnitsOfQuanta(policy, k);
    RoundToIntOnIntegers(k, policy.tie);
  }

  /** The policy leaves exactly the multiples of its quantum alone, so applying
      it twice is applying it once. */
  lemma ApplyFixesMultiples(policy: RoundingPolicy, value: real)
    ensures policy.Apply(value) == value <==> policy.IsMultiple(value)
    ensures policy.Apply(policy.Apply(value)) == policy.Apply(value)
  {
    ApplyOfMultiple(policy, RoundToInt(policy.Units(value), policy.tie));
    if policy.IsMultiple(value) {
      var k: int :| value == policy.Quanta(k);
      ApplyOfMultiple(policy, k);
    }
  }

  /** Rounding a debit is rounding the credit with the sign turned. */
  lemma ApplyIsOdd(policy: RoundingPolicy, value: real)
    ensures policy.Apply(-value) == -policy.Apply(value)
  {
    ScaleLinear(value, 0.0, PowerOfTen(policy.decimalPlaces));
    var r := RoundToInt(policy.Units(value), policy.tie);
    assert RoundToInt(policy.Units(-value), policy.tie) == -r;
    ScaleLinear(r as real, 0.0, policy.Quantum());
  }

  /** The value lies exactly halfway between two neighbouring multiples. */
  ghost predicate IsTie(policy: RoundingPolicy, value: real) {
    exists k: int :: Abs(value - policy.Quanta(k)) == Abs(value - policy.Quanta(k + 1))
  }

  predicate IsHalfway(x: real, k: int) {
    x == k as real + 0.5
  }

  lemma CountsDifferOnTies(x: real, a: TieRule, b: TieRule)
    ensures RoundToInt(x, a) != RoundToInt(x, b) ==> exists k: int :: IsHalfway(x, k)
    ensures (exists k: int :: IsHalfway(x, k)) ==> RoundToInt(x, RoundHalfUp) != RoundToInt(x, RoundHalfDown)
  {
    var r, s := RoundToInt(x, a), RoundToInt(x, b);
    RoundToIntMeaning(x, r, a);
    RoundToIntMeaning(x, s, b);
    if r != s {
      var k := if r < s then r else s;
      assert IsHalfway(x, k);
    }
    if k: int :| IsHalfway(x, k) {
      RoundToIntMeaning(x, if x > 0.0 then k + 1 else k, RoundHalfUp);
      RoundToIntMeaning(x, if x > 0.0 then k else k + 1, RoundHalfDown);
    }
  }

  lemma QuantaApart(policy: RoundingPolicy, r: int, s: int)
    ensures policy.Quanta(r) == policy.Quanta(s) <==> r == s
  {
    if r < s { ScaleOrder(r as real, s as real, policy.Quantum()); }
    if s < r { ScaleOrder(s as real, r as real, policy.Quantum()); }
  }

  /** Any two methods can disagree only on an exact tie, and there half-up and
      half-down always do. */
  lemma MethodsDifferOnlyOnTies(policy: RoundingPolicy, other: TieRule, value: real)
    ensures policy.Apply(value) != policy.(tie := other).Apply(value) ==> IsTie(policy, value)
    ensures policy.(tie := RoundHalfUp).Apply(value) != policy.(tie := RoundHalfDown).Apply(value) <==> IsTie(policy, value)
  {
    hide RoundToInt, RoundingPolicy.Quanta, RoundingPolicy.Quantum;
    var x := policy.Units(value);
    CountsDifferOnTies(x, policy.tie, other);
    CountsDifferOnTies(x, RoundHalfUp, RoundHalfDown);
    UnitsTie(policy, value);
    QuantaApart(policy, RoundToInt(x, RoundHalfUp), RoundToInt(x, RoundHalfDown));
    SameQuanta(policy, other, RoundToInt(x, other));
    SameQuanta(policy, RoundHalfUp, RoundToInt(x, RoundHalfUp));
    SameQuanta(policy, RoundHalfDown, RoundToInt(x, RoundHalfDown));
  }

  lemma SameQuanta(policy: RoundingPolicy, other: TieRule, k: int)
    ensures policy.(tie := other).Quanta(k) == policy.Quanta(k)
  {
  }

  lemma UnitsTie(policy: RoundingPolicy, value: real)
    ensures IsTie(policy, value) <==> exists k: int :: IsHalfway(policy.Units(value), k)
  {
    hide RoundingPolicy.Quanta, RoundingPolicy.Units;
    if k: int :| Abs(value - policy.Quanta(k)) == Abs(value - policy.Quanta(k + 1)) { TieInUnits(policy, value, k); }
    if k: int :| IsHalfway(policy.Units(value), k) { TieInUnits(policy, value, k); }
  }

  lemma TieInUnits(policy: RoundingPolicy, value: real, k: int)
    ensures IsHalfway(policy.Units(value), k) <==> Abs(value - policy.Quanta(k)) == Abs(value - policy.Quanta(k + 1))
  {
    var a, b := Abs(policy.Units(value) - k as real), Abs(policy.Units(value) - (k + 1) as real);
    QuantaDistance(policy, value, k);
    QuantaDistance(policy, value, k + 1);
    if a < b { ScaleOrder(a, b, policy.Quantum()); }
    if b < a { ScaleOrder(b, a, policy.Quantum()); }
  }

  /** Sums and differences of multiples are multiples. */
  lemma MultiplesAreClosed(policy: RoundingPolicy, a: real, b: real)
    requires policy.IsMultiple(a) && policy.IsMultiple(b)
    ensures policy.IsMultiple(a + b) && policy.IsMultiple(a - b)
  {
    var i: int :| a == policy.Quanta(i);
    var j: int :| b == policy.Quanta(j);
    ScaleLinear(i as real, j as real, policy.Quantum());
    assert a + b == policy.Quanta(i + j);
    assert a - b == policy.Quanta(i - j);
  }

  lemma ZeroIsMultiple(policy: RoundingPolicy)
    ensures policy.IsMultiple(0.0)
  {
    assert 0.0 == policy.Quanta(0);
  }
}
