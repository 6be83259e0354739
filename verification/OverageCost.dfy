/**
 The overage charge in cents, computed in binary64 step by step, against the exact
 rational charge.
 */
module OverageCost {
  import opened Store
  import opened Rounding

  const I64_MAX := 0x7fff_ffff_ffff_ffff

  // bytes per GB, milliseconds per hour, and MB-seconds per GB-hour (1024.0 * 3600.0)
  const GB: real := 1073741824.0
  const HOUR: real := 3600000.0
  const GB_HOUR: real := 3686400.0

  /** No overage rate is negative. Limits and usage may be any integers. */
  predicate Priced(p: Plan) {
    p.rates.bandwidth >= 0 && p.rates.cpu >= 0 && p.rates.memory >= 0
  }

  function Over(used: int, limit: int): nat {
    if used > limit then used - limit else 0
  }

  function Ceil(x: real): int {
    -((-x).Floor)
  }

  /** `as i64` clamps to the ends of the range. */
  function Saturate(n: int): int {
    if n > I64_MAX then I64_MAX else if n < -I64_MAX - 1 then -I64_MAX - 1 else n
  }

  // -- Binary64 operations: the exact result, rounded -------------------------------------

  function Convert(n: int): (r: real)
    ensures n >= 0 ==> r >= 0.0
    ensures r == 0.0 <==> n == 0
  {
    Sign(n as real);
    Round(n as real)
  }

  function Divide(a: real, b: real): (r: real)
    requires b > 0.0
    ensures a >= 0.0 ==> r >= 0.0
    ensures r == 0.0 <==> a == 0.0
  {
    Sign(a / b);
    Round(a / b)
  }

  function Multiply(a: real, b: real): (r: real)
    ensures a == 0.0 ==> r == 0.0
    ensures a >= 0.0 && b >= 0.0 ==> r >= 0.0 && (r == 0.0 <==> a == 0.0 || b == 0.0)
  {
    ProductSign(a, b);
    Sign(a * b);
    Round(a * b)
  }

  lemma ProductSign(a: real, b: real)
    ensures a == 0.0 ==> a * b == 0.0
    ensures a >= 0.0 && b >= 0.0 ==> a * b >= 0.0 && (a * b == 0.0 <==> a == 0.0 || b == 0.0)
  {
    if a >= 0.0 && b >= 0.0 {
      Product(0.0, a, 0.0, b);
    }
  }

  function Add(a: real, b: real): (r: real)
    ensures a == 0.0 && b == 0.0 ==> r == 0.0
    ensures a >= 0.0 && b >= 0.0 ==> r >= 0.0 && (r == 0.0 <==> a == 0.0 && b == 0.0)
  {
    Sign(a + b);
    Round(a + b)
  }

  /** over as f64 / unit * rate as f64 */
  function AxisCost(over: nat, unit: real, rate: int): (c: real)
    requires unit > 0.0
    ensures over == 0 ==> c == 0.0
    ensures rate >= 0 ==> c >= 0.0 && (c == 0.0 <==> over == 0 || rate == 0)
  {
    Multiply(Divide(Convert(over), unit), Convert(rate))
  }

  /** The three axis costs of a plan. */
  function BandwidthCost(p: Plan, u: Usage): real {
    AxisCost(Over(u.bandwidth, p.limits.bandwidth), GB, p.rates.bandwidth)
  }

  function CpuCost(p: Plan, u: Usage): real {
    AxisCost(Over(u.cpu, p.limits.cpu), HOUR, p.rates.cpu)
  }

  function MemoryCost(p: Plan, u: Usage): real {
    AxisCost(Over(u.memory, p.limits.memory), GB_HOUR, p.rates.memory)
  }

  function FloatCost(p: Plan, u: Usage): (c: real)
    ensures Priced(p) ==> c >= 0.0
  {
    Add(Add(BandwidthCost(p, u), CpuCost(p, u)), MemoryCost(p, u))
  }

  function OverageCostCents(p: Plan, u: Usage): int {
    Saturate(Ceil(FloatCost(p, u)))
  }

  // -- Monotonicity ---------------------------------------------------------------

  predicate AtMost(a: Usage, b: Usage) {
    a.bandwidth <= b.bandwidth && a.cpu <= b.cpu && a.memory <= b.memory
  }

  lemma Quotient(a: real, b: real, unit: real)
    requires 0.0 <= a <= b && unit > 0.0
    ensures 0.0 <= a / unit <= b / unit
  {
    assert b / unit - a / unit == (b - a) / unit;
  }

  lemma ConvertMonotone(m: int, n: int)
    requires m <= n
    ensures Convert(m) <= Convert(n)
  {
    Monotone(m as real, n as real);
  }

  lemma DivideMonotone(a: real, a': real, b: real)
    requires 0.0 <= a <= a' && b > 0.0
    ensures Divide(a, b) <= Divide(a', b)
  {
    Quotient(a, a', b);
    Monotone(a / b, a' / b);
  }

  lemma MultiplyMonotone(a: real, a': real, b: real, b': real)
    requires 0.0 <= a <= a' && 0.0 <= b <= b'
    ensures Multiply(a, b) <= Multiply(a', b')
  {
    Product(a, a', b, b');
    Monotone(a * b, a' * b');
  }

  lemma AddMonotone(a: real, a': real, b: real, b': real)
    requires 0.0 <= a <= a' && 0.0 <= b <= b'
    ensures Add(a, b) <= Add(a', b')
  {
    Monotone(a + b, a' + b');
  }

  lemma AxisMonotone(over: nat, over': nat, unit: real, rate: nat, rate': nat)
    requires over <= over' && rate <= rate' && unit > 0.0
    ensures AxisCost(over, unit, rate) <= AxisCost(over', unit, rate')
  {
    ConvertMonotone(over, over');
    DivideMonotone(Convert(over), Convert(over'), unit);
    ConvertMonotone(rate, rate');
    MultiplyMonotone(Divide(Convert(over), unit), Divide(Convert(over'), unit), Convert(rate), Convert(rate'));
  }

  /** More usage, lower limits or higher rates never cost less. */
  lemma CostMonotone(p: Plan, u: Usage, p': Plan, u': Usage)
    requires Priced(p) && Priced(p')
    requires AtMost(u, u') && AtMost(p'.limits, p.limits) && AtMost(p.rates, p'.rates)
    ensures OverageCostCents(p, u) <= OverageCostCents(p', u')
  {
    AxisMonotone(Over(u.bandwidth, p.limits.bandwidth), Over(u'.bandwidth, p'.limits.bandwidth),
                 GB, p.rates.bandwidth, p'.rates.bandwidth);
    AxisMonotone(Over(u.cpu, p.limits.cpu), Over(u'.cpu, p'.limits.cpu), HOUR, p.rates.cpu, p'.rates.cpu);
    AxisMonotone(Over(u.memory, p.limits.memory), Over(u'.memory, p'.limits.memory),
                 GB_HOUR, p.rates.memory, p'.rates.memory);
    AddMonotone(BandwidthCost(p, u), BandwidthCost(p', u'), CpuCost(p, u), CpuCost(p', u'));
    AddMonotone(Add(BandwidthCost(p, u), CpuCost(p, u)), Add(BandwidthCost(p', u'), CpuCost(p', u')),
                MemoryCost(p, u), MemoryCost(p', u'));
    CeilMonotone(FloatCost(p, u), FloatCost(p', u'));
  }

  lemma CeilMonotone(x: real, y: real)
    requires x <= y
    ensures Ceil(x) <= Ceil(y)
  {
  }

  // -- Zero ---------------------------------------------------------------------------

  predicate Free(used: int, limit: int, rate: int) {
    used <= limit || rate == 0
  }

  /** The charge is zero exactly when every axis is within its limit or has no price. */
  lemma CostZeroIff(p: Plan, u: Usage)
    requires Priced(p)
    ensures OverageCostCents(p, u) >= 0
    ensures OverageCostCents(p, u) == 0 <==>
              && Free(u.bandwidth, p.limits.bandwidth, p.rates.bandwidth)
              && Free(u.cpu, p.limits.cpu, p.rates.cpu)
              && Free(u.memory, p.limits.memory, p.rates.memory)
  {
    CentsOf(FloatCost(p, u));
  }

  /** Whatever the rates, nothing over a limit costs nothing. */
  lemma WithinCostsNothing(p: Plan, u: Usage)
    requires AtMost(u, p.limits)
    ensures OverageCostCents(p, u) == 0
  {
    CentsOf(0.0);
  }

  lemma CentsOf(x: real)
    requires x >= 0.0
    ensures Saturate(Ceil(x)) >= 0 && (Saturate(Ceil(x)) == 0 <==> x == 0.0)
  {
  }

  // -- Error ------------------------------------------------------------------------

  function ExactAxis(over: nat, unit: real, rate: nat): real
    requires unit > 0.0
  {
    over as real / unit * rate as real
  }

  /** The exact rational charge: per 2^30 bytes, per 3600000 ms, and per 1024 MB for 3600 s. */
  function ExactCost(p: Plan, u: Usage): real
    requires Priced(p)
  {
    ExactAxis(Over(u.bandwidth, p.limits.bandwidth), 1073741824.0, p.rates.bandwidth)
    + ExactAxis(Over(u.cpu, p.limits.cpu), 3600000.0, p.rates.cpu)
    + ExactAxis(Over(u.memory, p.limits.memory), 3686400.0, p.rates.memory)
  }

  const DOWN: real := 9007199254740991.0 / 9007199254740992.0   // 1 - 2^-53
  const UP: real := 9007199254740993.0 / 9007199254740992.0     // 1 + 2^-53

  function Pow(base: real, n: nat): real {
    if n == 0 then 1.0 else Pow(base, n - 1) * base
  }

  lemma {:induction false} PowAdds(base: real, m: nat, n: nat)
    ensures Pow(base, m + n) == Pow(base, m) * Pow(base, n)
  {
    if n > 0 {
      PowAdds(base, m, n - 1);
      assert Pow(base, m) * (Pow(base, n - 1) * base) == (Pow(base, m) * Pow(base, n - 1)) * base;
    }
  }

  lemma {:induction false} PowSign(n: nat)
    ensures 0.0 < Pow(DOWN, n) <= 1.0 <= Pow(UP, n)
  {
    if n > 0 {
      PowSign(n - 1);
      Product(0.0, Pow(DOWN, n - 1), 0.0, DOWN);
      Product(Pow(DOWN, n - 1), 1.0, DOWN, 1.0);
      Product(1.0, Pow(UP, n - 1), 1.0, UP);
      assert Pow(DOWN, n - 1) * DOWN > 0.0;
    }
  }

  /** y is x after n roundings: off by at most n factors of 1 + 2^-53 or 1 - 2^-53. */
  ghost predicate Near(y: real, x: real, n: nat) {
    x >= 0.0 && y >= 0.0 && x * Pow(DOWN, n) <= y <= x * Pow(UP, n)
  }

  lemma NearRound(y: real, x: real, n: nat)
    requires Near(y, x, n)
    ensures Near(Round(y), x, n + 1)
  {
    RelativeError(y);
    Sign(y);
    assert y - Tolerance(y) == y * DOWN && y + Tolerance(y) == y * UP;
    PowSign(n);
    Product(0.0, x, 0.0, Pow(DOWN, n));
    Product(x * Pow(DOWN, n), y, DOWN, DOWN);
    Product(y, x * Pow(UP, n), UP, UP);
    assert x * Pow(DOWN, n + 1) == (x * Pow(DOWN, n)) * DOWN;
    assert x * Pow(UP, n + 1) == (x * Pow(UP, n)) * UP;
  }

  lemma NearStart(x: real)
    requires x >= 0.0
    ensures Near(x, x, 0)
  {
  }

  lemma NearProduct(y: real, x: real, m: nat, z: real, w: real, n: nat)
    requires Near(y, x, m) && Near(z, w, n)
    ensures Near(y * z, x * w, m + n)
  {
    PowSign(m);
    PowSign(n);
    PowAdds(DOWN, m, n);
    PowAdds(UP, m, n);
    Product(0.0, x, 0.0, Pow(DOWN, m));
    Product(0.0, w, 0.0, Pow(DOWN, n));
    Product(0.0, x, 0.0, w);
    Product(x * Pow(DOWN, m), y, w * Pow(DOWN, n), z);
    Product(y, x * Pow(UP, m), z, w * Pow(UP, n));
    Regroup(x, Pow(DOWN, m), w, Pow(DOWN, n));
    Regroup(x, Pow(UP, m), w, Pow(UP, n));
  }

  lemma Regroup(a: real, b: real, c: real, d: real)
    ensures (a * b) * (c * d) == (a * c) * (b * d)
  {
    assert (a * b) * (c * d) == a * (b * (c * d));
    assert b * (c * d) == c * (b * d);
    assert a * (c * (b * d)) == (a * c) * (b * d);
  }

  lemma NearSum(y: real, x: real, z: real, w: real, n: nat)
    requires Near(y, x, n) && Near(z, w, n)
    ensures Near(y + z, x + w, n)
  {
    assert (x + w) * Pow(DOWN, n) == x * Pow(DOWN, n) + w * Pow(DOWN, n);
    assert (x + w) * Pow(UP, n) == x * Pow(UP, n) + w * Pow(UP, n);
  }

  lemma NearWeaker(y: real, x: real, n: nat)
    requires Near(y, x, n)
    ensures Near(y, x, n + 1)
  {
    PowSign(n);
    Product(0.0, x, 0.0, Pow(DOWN, n));
    Product(Pow(DOWN, n + 1), Pow(DOWN, n), x, x) by {
      PowSign(n + 1);
      Product(Pow(DOWN, n), Pow(DOWN, n), DOWN, 1.0);
    }
    Product(Pow(UP, n), Pow(UP, n + 1), x, x) by {
      Product(Pow(UP, n), Pow(UP, n), 1.0, UP);
    }
  }

  lemma NearQuotient(y: real, x: real, n: nat, unit: real)
    requires Near(y, x, n) && unit > 0.0
    ensures Near(y / unit, x / unit, n)
  {
    PowSign(n);
    Product(0.0, x, 0.0, Pow(DOWN, n));
    Quotient(x * Pow(DOWN, n), y, unit);
    Quotient(y, x * Pow(UP, n), unit);
    Swap(x, Pow(DOWN, n), unit);
    Swap(x, Pow(UP, n), unit);
  }

  lemma Swap(a: real, b: real, c: real)
    requires c > 0.0
    ensures (a * b) / c == (a / c) * b
  {
    var q := a / c;
    assert q * c == a;
    assert (q * b) * c == a * b;
  }

  lemma ConvertNear(n: nat)
    ensures Near(Convert(n), n as real, 1)
  {
    NearStart(n as real);
    NearRound(n as real, n as real, 0);
  }

  lemma DivideNear(y: real, x: real, n: nat, unit: real)
    requires Near(y, x, n) && unit > 0.0
    ensures Near(Divide(y, unit), x / unit, n + 1)
  {
    NearQuotient(y, x, n, unit);
    NearRound(y / unit, x / unit, n);
  }

  lemma MultiplyNear(y: real, x: real, m: nat, z: real, w: real, n: nat)
    requires Near(y, x, m) && Near(z, w, n)
    ensures Near(Multiply(y, z), x * w, m + n + 1)
  {
    NearProduct(y, x, m, z, w, n);
    NearRound(y * z, x * w, m + n);
  }

  lemma AddNear(y: real, x: real, z: real, w: real, n: nat)
    requires Near(y, x, n) && Near(z, w, n)
    ensures Near(Add(y, z), x + w, n + 1)
  {
    NearSum(y, x, z, w, n);
    NearRound(y + z, x + w, n);
  }

  lemma AxisNear(over: nat, unit: real, rate: nat)
    requires unit > 0.0
    ensures Near(AxisCost(over, unit, rate), ExactAxis(over, unit, rate), 4)
  {
    ConvertNear(over);
    DivideNear(Convert(over), over as real, 1, unit);
    ConvertNear(rate);
    MultiplyNear(Divide(Convert(over), unit), over as real / unit, 2, Convert(rate), rate as real, 1);
  }

  /** Six roundings lie between the exact charge and the computed one. */
  lemma SixRoundings(p: Plan, u: Usage)
    requires Priced(p)
    ensures Near(FloatCost(p, u), ExactCost(p, u), 6)
  {
    var xb := ExactAxis(Over(u.bandwidth, p.limits.bandwidth), GB, p.rates.bandwidth);
    var xc := ExactAxis(Over(u.cpu, p.limits.cpu), HOUR, p.rates.cpu);
    var xm := ExactAxis(Over(u.memory, p.limits.memory), GB_HOUR, p.rates.memory);
    AxisNear(Over(u.bandwidth, p.limits.bandwidth), GB, p.rates.bandwidth);
    AxisNear(Over(u.cpu, p.limits.cpu), HOUR, p.rates.cpu);
    AxisNear(Over(u.memory, p.limits.memory), GB_HOUR, p.rates.memory);
    AddNear(BandwidthCost(p, u), xb, CpuCost(p, u), xc, 4);
    NearWeaker(MemoryCost(p, u), xm, 4);
    AddNear(Add(BandwidthCost(p, u), CpuCost(p, u)), xb + xc, MemoryCost(p, u), xm, 5);
  }

  lemma SixthPowers()
    ensures Pow(DOWN, 6) >= 1.0 - 7.0 / 9007199254740992.0
    ensures Pow(UP, 6) <= 1.0 + 7.0 / 9007199254740992.0
  {
    var d2, u2 := DOWN * DOWN, UP * UP;
    assert Pow(DOWN, 1) == DOWN && Pow(UP, 1) == UP;
    PowAdds(DOWN, 1, 1);
    PowAdds(DOWN, 2, 2);
    PowAdds(DOWN, 4, 2);
    PowAdds(UP, 1, 1);
    PowAdds(UP, 2, 2);
    PowAdds(UP, 4, 2);
  }

  /**
   While the exact charge is below 2^50 cents, the cents charged and the exact charge
   rounded up differ by at most one.
   */
  lemma CostWithinOneCent(p: Plan, u: Usage)
    requires Priced(p)
    requires ExactCost(p, u) < 1125899906842624.0
    ensures Ceil(ExactCost(p, u)) - 1 <= OverageCostCents(p, u) <= Ceil(ExactCost(p, u)) + 1
  {
    var x, y := ExactCost(p, u), FloatCost(p, u);
    SixRoundings(p, u);
    SixthPowers();
    Product(x, x, 0.0, Pow(UP, 6));
    assert x * Pow(UP, 6) <= x * (1.0 + 7.0 / 9007199254740992.0) by {
      Product(x, x, Pow(UP, 6), 1.0 + 7.0 / 9007199254740992.0);
    }
    assert x * Pow(DOWN, 6) >= x * (1.0 - 7.0 / 9007199254740992.0) by {
      Product(x, x, 1.0 - 7.0 / 9007199254740992.0, Pow(DOWN, 6));
    }
    assert x - 1.0 < y < x + 1.0;
    CeilMonotone(x - 1.0, y);
    CeilMonotone(y, x + 1.0);
  }

  // -- Exact charges --------------------------------------------------------------------

  /** Of at most 53 bits. */
  predicate Small(n: int) {
    -9007199254740992 <= n <= 9007199254740992
  }

  /** This many whole units over the limit, or inside it if none. */
  predicate WholeUnits(used: int, limit: int, units: nat, size: nat) {
    if units == 0 then used <= limit else used == limit + units * size && Small(units * size)
  }

  /** A representable value is its own rounding. */
  predicate Kept(x: real) {
    Round(x) == x
  }

  /** When no step of the axis needs rounding, none happens. */
  lemma AxisWithoutRounding(over: nat, unit: real, rate: int, units: real, cost: real)
    requires unit > 0.0 && over as real / unit == units && units * (rate as real) == cost
    requires Kept(over as real) && Kept(units) && Kept(rate as real) && Kept(cost)
    ensures AxisCost(over, unit, rate) == cost
  {
    hide Round;
    assert Convert(over) == over as real && Convert(rate) == rate as real;
    assert Divide(over as real, unit) == units;
    MultiplyKept(units, rate as real, cost);
  }

  lemma MultiplyKept(a: real, b: real, c: real)
    requires a * b == c && Kept(c)
    ensures Multiply(a, b) == c
  {
  }

  lemma AxisOfWholeUnits(used: int, limit: int, units: nat, size: nat, unit: real, rate: int)
    requires size > 0 && unit == size as real && WholeUnits(used, limit, units, size)
    requires Small(rate) && Small(units * rate)
    ensures AxisCost(Over(used, limit), unit, rate) == (units * rate) as real
  {
    if units == 0 {
      assert Over(used, limit) == 0 && units * rate == 0;
    } else {
      hide Round, AxisCost;
      var over, cost := units * size, units * rate;
      AtLeastUnits(units, size);
      assert Over(used, limit) == over;
      IntegersExact(over);
      IntegersExact(units);
      IntegersExact(rate);
      IntegersExact(cost);
      UnitsOf(units, size);
      RealProduct(units, rate);
      AxisWithoutRounding(over, unit, rate, units as real, cost as real);
    }
  }

  lemma RealProduct(m: int, n: int)
    ensures (m as real) * (n as real) == (m * n) as real
  {
  }

  lemma AtLeastUnits(units: nat, size: nat)
    requires size > 0
    ensures 0 <= units <= units * size
  {
    assert units * size - units == units * (size - 1);
  }

  lemma UnitsOf(units: nat, size: nat)
    requires size > 0
    ensures (units * size) as real / (size as real) == units as real
  {
    var q, d := (units * size) as real / (size as real), size as real;
    assert q * d == (units * size) as real == (units as real) * d;
    assert (q - units as real) * d == 0.0;
  }

  /**
   Whole units cost exactly their number times the rate: a unit is 1073741824 bytes,
   3600000 milliseconds, or 3686400 MB-seconds, and the axes add up.
   */
  lemma WholeUnitsCost(p: Plan, u: Usage, bytes: nat, cpu: nat, memory: nat)
    requires WholeUnits(u.bandwidth, p.limits.bandwidth, bytes, 1073741824)
    requires WholeUnits(u.cpu, p.limits.cpu, cpu, 3600000)
    requires WholeUnits(u.memory, p.limits.memory, memory, 3686400)
    requires Small(p.rates.bandwidth) && Small(p.rates.cpu) && Small(p.rates.memory)
    requires Small(bytes * p.rates.bandwidth) && Small(cpu * p.rates.cpu) && Small(memory * p.rates.memory)
    requires Small(bytes * p.rates.bandwidth + cpu * p.rates.cpu)
    requires Small(bytes * p.rates.bandwidth + cpu * p.rates.cpu + memory * p.rates.memory)
    ensures OverageCostCents(p, u) == bytes * p.rates.bandwidth + cpu * p.rates.cpu + memory * p.rates.memory
  {
    hide AxisCost, WholeUnits;
    AxisOfWholeUnits(u.bandwidth, p.limits.bandwidth, bytes, 1073741824, GB, p.rates.bandwidth);
    AxisOfWholeUnits(u.cpu, p.limits.cpu, cpu, 3600000, HOUR, p.rates.cpu);
    AxisOfWholeUnits(u.memory, p.limits.memory, memory, 3686400, GB_HOUR, p.rates.memory);
    var b, c, m := bytes * p.rates.bandwidth, cpu * p.rates.cpu, memory * p.rates.memory;
    AddWhole(b, c);
    AddWhole(b + c, m);
    CentsOfWhole(b + c + m);
  }

  lemma AddWhole(m: int, n: int)
    requires Small(m + n)
    ensures Add(m as real, n as real) == (m + n) as real
  {
    IntegersExact(m + n);
    assert m as real + n as real == (m + n) as real;
  }

  lemma CentsOfWhole(n: int)
    requires Small(n)
    ensures Saturate(Ceil(n as real)) == n
  {
  }

  /** Dividing by a power of two loses nothing. */
  lemma {:induction false} RoundScaled(x: real, k: nat)
    ensures Pow(2.0, k) > 0.0 && Round(x / Pow(2.0, k)) == Round(x) / Pow(2.0, k)
  {
    if k > 0 {
      RoundScaled(x, k - 1);
      var d := Pow(2.0, k - 1);
      Scales(x / d);
      HalfQuotient(x, d);
      HalfQuotient(Round(x), d);
    }
  }

  lemma HalfQuotient(x: real, d: real)
    requires d > 0.0
    ensures x / (d * 2.0) == x / d / 2.0
  {
    var q := x / d;
    assert q * d == x;
    assert (q / 2.0) * (d * 2.0) == x;
  }

  lemma GigabyteRounding(x: real)
    ensures Round(x / 1073741824.0) == Round(x) / 1073741824.0
  {
    hide Round, Pow;
    RoundScaled(x, 30);
    TwoToThe30();
  }

  lemma TwoToThe30()
    ensures Pow(2.0, 30) == 1073741824.0
  {
    assert Pow(2.0, 1) == 2.0 && Pow(2.0, 2) == 4.0;
    PowAdds(2.0, 2, 1);
    PowAdds(2.0, 3, 2);
    PowAdds(2.0, 5, 5);
    PowAdds(2.0, 10, 10);
    PowAdds(2.0, 20, 10);
  }

  /** Every step of the computation is exact. */
  lemma BandwidthExact(over: nat, rate: int)
    requires Small(over) && Small(rate) && Small(over * rate)
    ensures var x := (over * rate) as real / 1073741824.0;
            AxisCost(over, 1073741824.0, rate) == x && Add(Add(x, 0.0), 0.0) == x
  {
    hide Round, AxisCost;
    var due := over * rate;
    Gigabytes(over);
    Gigabytes(due);
    IntegersExact(over);
    IntegersExact(rate);
    RealProduct(over, rate);
    QuotientTimes(over as real, rate as real, due as real);
    AxisWithoutRounding(over, 1073741824.0, rate, over as real / 1073741824.0, due as real / 1073741824.0);
    AddNothing(due as real / 1073741824.0);
  }

  lemma AddNothing(x: real)
    requires Kept(x)
    ensures Add(x, 0.0) == x
  {
    hide Round;
    assert x + 0.0 == x;
  }

  /** Whole bytes, counted in GB, are representable. */
  lemma Gigabytes(n: int)
    requires Small(n)
    ensures Round(n as real / 1073741824.0) == n as real / 1073741824.0
  {
    hide Round, Pow;
    IntegersExact(n);
    GigabyteRounding(n as real);
  }

  lemma QuotientTimes(a: real, b: real, c: real)
    requires a * b == c
    ensures (a / 1073741824.0) * b == c / 1073741824.0
  {
  }

  /**
   Bandwidth alone is charged exactly, to the last byte: the least number of cents that
   pays for all bytes over the limit, while bytes times rate stay within 53 bits.
   */
  lemma BandwidthCostExact(p: Plan, u: Usage)
    requires u.bandwidth > p.limits.bandwidth && u.cpu <= p.limits.cpu && u.memory <= p.limits.memory
    requires Small(u.bandwidth - p.limits.bandwidth) && Small(p.rates.bandwidth)
    requires Small((u.bandwidth - p.limits.bandwidth) * p.rates.bandwidth)
    ensures var cents, due := OverageCostCents(p, u), (u.bandwidth - p.limits.bandwidth) * p.rates.bandwidth;
            (cents - 1) * 1073741824 < due <= cents * 1073741824
  {
    hide Round, Pow, Saturate, Ceil, AxisCost;
    var over, rate := u.bandwidth - p.limits.bandwidth, p.rates.bandwidth;
    var x := (over * rate) as real / 1073741824.0;
    BandwidthExact(over, rate);
    assert FloatCost(p, u) == x;
    CentsAtLeast(x);
  }

  /** The charge is the float rounded up, and stays within 64 bits. */
  lemma CentsAtLeast(x: real)
    ensures -9223372036854775808.0 <= x <= 9223372036854774784.0 ==>
              (Saturate(Ceil(x)) - 1) as real < x <= Saturate(Ceil(x)) as real
    ensures x > 9223372036854775806.0 ==> Saturate(Ceil(x)) == 9223372036854775807
    ensures x <= -9223372036854775808.0 ==> Saturate(Ceil(x)) == -9223372036854775808
  {
  }
}
