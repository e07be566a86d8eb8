/** Stage 2 of the design: the pump size, its inlet depth and the housing it needs. */
module CalcPump {
  import opened Wrappers
  import opened Numerics

  const InchesToMetre: real := 0.0254

  /** The nominal pump sizes, in inches, by flow class. */
  function PumpClassInches(flowLitresPerSec: real): (inches: real)
  {
    if flowLitresPerSec < 5.0 then 4.0
    else if flowLitresPerSec < 10.0 then 6.0
    else if flowLitresPerSec < 50.0 then 8.0
    else if flowLitresPerSec < 70.0 then 10.0
    else 12.0
  }

  /**
   * `assign_pump_diameter`: the pump diameter in metres for a flow in litres per second.  A
   * negative flow raises ValueError before any class is chosen.
   */
  function AssignPumpDiameter(flowLitresPerSec: real): (r: Result<real>)
    ensures r.Err? <==> flowLitresPerSec < 0.0
    ensures r.Err? ==> r.error == ValueError
    ensures r.Ok? ==> r.value in {0.1016, 0.1524, 0.2032, 0.254, 0.3048}
    ensures r.Ok? ==> r.value == PumpClassInches(flowLitresPerSec) * InchesToMetre
  {
    if flowLitresPerSec < 0.0 then Err(ValueError)
    else Ok(PumpClassInches(flowLitresPerSec) * InchesToMetre)
  }

  /** The flow classes: each boundary flow belongs to the larger class. */
  lemma PumpClassBoundaries(flow: real)
    requires flow >= 0.0
    ensures flow < 5.0 ==> AssignPumpDiameter(flow) == Ok(0.1016)
    ensures 5.0 <= flow < 10.0 ==> AssignPumpDiameter(flow) == Ok(0.1524)
    ensures 10.0 <= flow < 50.0 ==> AssignPumpDiameter(flow) == Ok(0.2032)
    ensures 50.0 <= flow < 70.0 ==> AssignPumpDiameter(flow) == Ok(0.254)
    ensures 70.0 <= flow ==> AssignPumpDiameter(flow) == Ok(0.3048)
  {
  }

  /** A larger flow never gets a smaller pump. */
  lemma {:induction false} PumpDiameterMonotone(f1: real, f2: real)
    requires 0.0 <= f1 <= f2
    ensures AssignPumpDiameter(f1).Ok? && AssignPumpDiameter(f2).Ok?
    ensures AssignPumpDiameter(f1).value <= AssignPumpDiameter(f2).value
  {
    assert PumpClassInches(f1) <= PumpClassInches(f2);
  }

  /** `calculate_safety_margin`: the larger of 10 m and a fifth of water depth plus drawdown. */
  function SafetyMargin(groundwaterDepth: real, allowableDrawdown: real): (m: real)
    ensures m >= 10.0 && m >= 0.2 * (groundwaterDepth + allowableDrawdown)
    ensures m == 10.0 || m == 0.2 * (groundwaterDepth + allowableDrawdown)
  {
    Max(10.0, 0.2 * (groundwaterDepth + allowableDrawdown))
  }

  /**
   * `calculate_pump_inlet_depth`: the present water depth, lowered by the allowed drawdown, the
   * safety margin and the water-level decline over the bore lifetime in years.
   */
  function PumpInletDepth(groundwaterDepth: real, allowableDrawdown: real, safetyMargin: real,
                          declineRate: real, lifetimeYears: real): (depth: real)
  {
    groundwaterDepth + allowableDrawdown + safetyMargin + declineRate * lifetimeYears
  }

  /**
   * With a non-negative margin and a non-falling water level, the inlet sits below the
   * drawn-down water level, and every further year of decline lowers it by the decline rate.
   */
  lemma InletBelowDrawdownLevel(wd: real, sw: real, m: real, rate: real, years: real)
    requires m >= 0.0 && rate >= 0.0 && years >= 0.0
    ensures PumpInletDepth(wd, sw, m, rate, years) >= wd + sw + m
    ensures PumpInletDepth(wd, sw, m, rate, years + 1.0) == PumpInletDepth(wd, sw, m, rate, years) + rate
  {
  }

  /** `calculate_minimum_pump_housing_diameter`: the square root of P^2 + 4Q/(3.7 pi). */
  function MinimumPumpHousingDiameter(flowCubicMetresPerSec: real, pumpDiameter: real, m: MathLib): (d: real)
  {
    m.sqrt(pumpDiameter * pumpDiameter + 4.0 * flowCubicMetresPerSec / (3.7 * Pi))
  }

  /**
   * When the root is exact, the housing diameter squared is P^2 + 4Q/(3.7 pi), so the housing
   * is never narrower than the pump for a non-negative flow.
   */
  lemma {:induction false} HousingAtLeastPump(q: real, p: real, m: MathLib)
    requires q >= 0.0 && p >= 0.0
    requires SqrtIsExactAt(m, p * p + 4.0 * q / (3.7 * Pi))
    ensures var d := MinimumPumpHousingDiameter(q, p, m);
            d * d == p * p + 4.0 * q / (3.7 * Pi) && d >= p
  {
    var d := MinimumPumpHousingDiameter(q, p, m);
    assert 4.0 * q / (3.7 * Pi) >= 0.0;
    assert d * d >= p * p;
    assert (d - p) * (d + p) == d * d - p * p;
    if d + p == 0.0 {
      assert d == 0.0 && p == 0.0;
    } else {
      assert d + p > 0.0;
      assert d - p == ((d - p) * (d + p)) / (d + p);
    }
  }
}
