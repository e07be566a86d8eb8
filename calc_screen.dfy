/**
 * Stage 1 of the design: the screened interval.  The screen length from the aquifer's
 * transmissivity, the casing friction above the aquifer, the least screen diameter that keeps
 * the up-hole friction under 20 m, the total casing metric used to rank candidate casings, and
 * the minimum open-hole diameter.
 */
module CalcScreen {
  import opened Wrappers
  import opened Numerics

  /** The Hazen-Williams flow exponent and diameter exponent. */
  const FlowExponent: real := 1.852
  const DiameterExponent: real := 4.8704

  /** The largest up-hole friction, in metres, a screen design may leave. */
  const FrictionLimit: real := 20.0

  /** A screen length with its uncertainty band. */
  datatype ScreenLength = ScreenLength(length: real, lower: real, upper: real)

  /**
   * The unclamped length from the Cooper-Jacob drawdown equation.  Both divisions are Python
   * float divisions, so a zero divisor raises ZeroDivisionError; the first one is evaluated first.
   */
  function RawScreenLength(flow: real, conductivity: real, lifetimeDays: real, m: MathLib,
                           drawdown: real := 25.0, boreRadius: real := 0.0762,
                           specificStorage: real := 0.0002): (r: Result<real>)
    ensures r.Err? <==> 4.0 * Pi * conductivity * drawdown == 0.0 ||
                        boreRadius * boreRadius * specificStorage == 0.0
    ensures r.Err? ==> r.error == ZeroDivisionError
    ensures r.Ok? ==> r.value * (4.0 * Pi * conductivity * drawdown) ==
                      2.3 * flow * m.log10(2.25 * conductivity * lifetimeDays /
                                           (boreRadius * boreRadius * specificStorage))
  {
    var lead := 4.0 * Pi * conductivity * drawdown;
    var spread := boreRadius * boreRadius * specificStorage;
    if lead == 0.0 || spread == 0.0 then Err(ZeroDivisionError)
    else Ok(2.3 * flow / lead * m.log10(2.25 * conductivity * lifetimeDays / spread))
  }

  /**
   * The length an injection bore doubles and the aquifer thickness caps, with the band
   * (90% of it, 110% of it capped again at the thickness).
   */
  function ScreenLengthOf(raw: real, thickness: real, isInjectionBore: bool): (s: ScreenLength)
    ensures s.length <= thickness && s.upper <= thickness
    ensures var scaled := if isInjectionBore then 2.0 * raw else raw;
            s.length == scaled || (s.length == thickness && thickness < scaled)
    ensures s.lower == 0.9 * s.length
    ensures s.length >= 0.0 ==> s.lower <= s.length <= s.upper
    ensures s.upper == 1.1 * s.length || (s.upper == thickness && thickness < 1.1 * s.length)
  {
    var scaled := if isInjectionBore then 2.0 * raw else raw;
    var length := Min(scaled, thickness);
    ScreenLength(length, 0.9 * length, Min(1.1 * length, thickness))
  }

  /**
   * `calculate_minimum_screen_length`: the raw length, doubled for an injection bore, then
   * clamped to the thickness, with its band.
   */
  method MinimumScreenLength(flow: real, conductivity: real, lifetimeDays: real, thickness: real,
                             isInjectionBore: bool, m: MathLib, drawdown: real := 25.0,
                             boreRadius: real := 0.0762, specificStorage: real := 0.0002)
    returns (r: Result<ScreenLength>)
    ensures var raw := RawScreenLength(flow, conductivity, lifetimeDays, m, drawdown, boreRadius, specificStorage);
            (r.Err? <==> raw.Err?) && (r.Err? ==> r.error == raw.error) &&
            (r.Ok? ==> r.value == ScreenLengthOf(raw.value, thickness, isInjectionBore))
    ensures r.Ok? ==> r.value.length <= thickness && r.value.upper <= thickness
  {
    var raw :- RawScreenLength(flow, conductivity, lifetimeDays, m, drawdown, boreRadius, specificStorage);
    var screenLength := raw;
    if isInjectionBore {
      screenLength := screenLength * 2.0;
    }
    screenLength := Min(screenLength, thickness);
    var errorLower := screenLength * 0.9;
    var errorUpper := Min(screenLength * 1.1, thickness);
    return Ok(ScreenLength(screenLength, errorLower, errorUpper));
  }

  /**
   * Injection doubles before the thickness cap: below the cap the injection length is twice
   * the production length; a raw length past half the thickness caps the injection length at
   * the thickness, with the band reaching exactly up to it.
   */
  lemma {:induction false} InjectionDoublesBeforeClamp(raw: real, thickness: real)
    requires raw >= 0.0
    ensures 2.0 * raw <= thickness ==>
              ScreenLengthOf(raw, thickness, true).length == 2.0 * ScreenLengthOf(raw, thickness, false).length
    ensures 2.0 * raw > thickness >= 0.0 ==>
              ScreenLengthOf(raw, thickness, true) == ScreenLength(thickness, 0.9 * thickness, thickness)
  {
    if 2.0 * raw <= thickness {
      assert ScreenLengthOf(raw, thickness, false).length == raw;
    }
  }

  /**
   * `calculate_casing_friction`: the Hazen-Williams head loss along the casing above the
   * screen, with numpy's division (a zero divisor gives an infinity or NaN).
   */
  function CasingFriction(depthToTopScreen: real, flow: real, casingDiameter: real, m: MathLib,
                          roughness: real := 100.0): (f: Float)
    ensures var den := m.pow(roughness, FlowExponent) * m.pow(casingDiameter, DiameterExponent);
            (f.Finite? <==> den != 0.0) &&
            (f.Finite? ==> f.value * den == 10.67 * depthToTopScreen * m.pow(flow, FlowExponent))
  {
    Divide(10.67 * depthToTopScreen * m.pow(flow, FlowExponent),
           m.pow(roughness, FlowExponent) * m.pow(casingDiameter, DiameterExponent))
  }

  /** `m.pow(x, y)` is positive. */
  predicate PowPositiveAt(m: MathLib, x: real, y: real)
  {
    m.pow(x, y) > 0.0
  }

  /**
   * For positive library powers the friction is finite, positive for a positive depth, and
   * proportional to the depth to the top of the screen.
   */
  lemma {:induction false} FrictionProportionalToDepth(d1: real, d2: real, flow: real, diameter: real,
                                                       m: MathLib, roughness: real)
    requires PowPositiveAt(m, flow, FlowExponent)
    requires PowPositiveAt(m, roughness, FlowExponent) && PowPositiveAt(m, diameter, DiameterExponent)
    ensures CasingFriction(d1, flow, diameter, m, roughness).Finite?
    ensures d1 > 0.0 ==> CasingFriction(d1, flow, diameter, m, roughness).value > 0.0
    ensures CasingFriction(d1, flow, diameter, m, roughness).value * d2 ==
            CasingFriction(d2, flow, diameter, m, roughness).value * d1
  {
    var den := m.pow(roughness, FlowExponent) * m.pow(diameter, DiameterExponent);
    var p := m.pow(flow, FlowExponent);
    assert den > 0.0;
    var f1 := CasingFriction(d1, flow, diameter, m, roughness).value;
    var f2 := CasingFriction(d2, flow, diameter, m, roughness).value;
    assert f1 == 10.67 * d1 * p / den;
    assert f2 == 10.67 * d2 * p / den;
    assert f1 * d2 == 10.67 * d1 * d2 * p / den;
    assert f2 * d1 == 10.67 * d1 * d2 * p / den;
  }

  /** The Hazen-Williams numerator 10.67 SL Q^1.852 of the screen diameter. */
  function ScreenNumerator(screenLength: real, flow: real, m: MathLib): real
  {
    10.67 * screenLength * m.pow(flow, FlowExponent)
  }

  /** The Hazen-Williams divisor 2 C^1.852 (20 - f) of the screen diameter. */
  function ScreenDivisor(friction: real, m: MathLib, roughness: real): real
  {
    2.0 * m.pow(roughness, FlowExponent) * (FrictionLimit - friction)
  }

  /** The (1/4.8704)-th power of a finite quotient: NaN for a negative one, as numpy gives. */
  function DiameterRoot(quotient: real, m: MathLib): (d: Float)
    ensures d.NaN? <==> quotient < 0.0
  {
    if quotient < 0.0 then NaN else Finite(m.pow(quotient, 1.0 / DiameterExponent))
  }

  /**
   * One cell of `calculate_minimum_screen_diameter`.  A friction above 20 m is masked to NaN.
   * Any other cell gets (numerator / divisor)^(1/4.8704) in float64 arithmetic: a zero
   * divisor gives +inf (a negative infinity to a fractional power is +inf as well) unless the
   * numerator is zero, a negative quotient to a fractional power is NaN, NaN propagates, and
   * an infinitely negative friction makes the quotient zero.
   */
  function MinScreenDiameterOf(friction: Float, screenLength: real, flow: real, m: MathLib,
                               roughness: real := 100.0): (d: Float)
    ensures friction.Exceeds(FrictionLimit) || friction.NaN? ==> d == NaN
    ensures friction.Finite? && friction.value < FrictionLimit && m.pow(roughness, FlowExponent) > 0.0 &&
            ScreenNumerator(screenLength, flow, m) >= 0.0 ==>
              d == Finite(m.pow(ScreenNumerator(screenLength, flow, m) /
                                ScreenDivisor(friction.value, m, roughness), 1.0 / DiameterExponent))
    ensures friction == Finite(FrictionLimit) ==>
              d == (if ScreenNumerator(screenLength, flow, m) == 0.0 then NaN else PosInf)
  {
    if friction.Exceeds(FrictionLimit) then NaN
    else
      var num := ScreenNumerator(screenLength, flow, m);
      var c := m.pow(roughness, FlowExponent);
      match friction
      case NaN => NaN
      case NegInf => if c != 0.0 then Finite(0.0) else NaN
      case Finite(x) =>
        var den := ScreenDivisor(x, m, roughness);
        assert c > 0.0 && FrictionLimit - x > 0.0 ==> den > 0.0;
        assert den > 0.0 && num >= 0.0 ==> num / den >= 0.0;
        if den == 0.0 then (if num == 0.0 then NaN else PosInf)
        else DiameterRoot(num / den, m)
  }

  /**
   * `calculate_minimum_screen_diameter` over an array of up-hole frictions: a fresh array of
   * the same length, filled first at the unmasked positions and then with NaN at the masked ones.
   */
  method MinimumScreenDiameter(frictions: seq<Float>, screenLength: real, flow: real, m: MathLib,
                               roughness: real := 100.0)
    returns (d: array<Float>)
    ensures fresh(d) && d.Length == |frictions|
    ensures forall i :: 0 <= i < d.Length ==> d[i] == MinScreenDiameterOf(frictions[i], screenLength, flow, m, roughness)
    ensures forall i :: 0 <= i < d.Length && frictions[i].Exceeds(FrictionLimit) ==> d[i] == NaN
  {
    d := new Float[|frictions|](_ => NaN);
    var i := 0;
    while i < d.Length
      invariant 0 <= i <= d.Length
      invariant forall j :: 0 <= j < i && !frictions[j].Exceeds(FrictionLimit) ==>
                  d[j] == MinScreenDiameterOf(frictions[j], screenLength, flow, m, roughness)
    {
      if !frictions[i].Exceeds(FrictionLimit) {
        d[i] := MinScreenDiameterOf(frictions[i], screenLength, flow, m, roughness);
      }
      i := i + 1;
    }
    i := 0;
    while i < d.Length
      invariant 0 <= i <= d.Length
      invariant forall j :: 0 <= j < d.Length && !frictions[j].Exceeds(FrictionLimit) ==>
                  d[j] == MinScreenDiameterOf(frictions[j], screenLength, flow, m, roughness)
      invariant forall j :: 0 <= j < i && frictions[j].Exceeds(FrictionLimit) ==> d[j] == NaN
    {
      if frictions[i].Exceeds(FrictionLimit) {
        d[i] := NaN;
      }
      i := i + 1;
    }
  }

  /**
   * The scalar `calculate_minimum_screen_diameter`: NaN above 20 m of friction, otherwise the
   * Hazen-Williams diameter.  Python float division raises ZeroDivisionError on a zero divisor,
   * so at exactly 20 m; a negative quotient, whose fractional power Python makes complex, is
   * given as NaN.
   */
  function MinimumScreenDiameterScalar(friction: real, screenLength: real, flow: real, m: MathLib,
                                       roughness: real := 100.0): (r: Result<Float>)
    ensures friction > FrictionLimit ==> r == Ok(NaN)
    ensures r == Err(ZeroDivisionError) <==>
              friction <= FrictionLimit && ScreenDivisor(friction, m, roughness) == 0.0
    ensures r.Err? ==> r.error == ZeroDivisionError
    ensures friction == FrictionLimit ==> r == Err(ZeroDivisionError)
    ensures r.Ok? && r.value.Finite? ==>
              r.value.value == m.pow(ScreenNumerator(screenLength, flow, m) / ScreenDivisor(friction, m, roughness),
                                     1.0 / DiameterExponent)
  {
    if friction > FrictionLimit then Ok(NaN)
    else
      var den := ScreenDivisor(friction, m, roughness);
      if den == 0.0 then Err(ZeroDivisionError)
      else Ok(DiameterRoot(ScreenNumerator(screenLength, flow, m) / den, m))
  }

  /**
   * Away from exactly 20 m the scalar form raises only when the roughness term vanishes, and
   * otherwise gives the same diameter as the array form's cell.
   */
  lemma {:induction false} ScalarAgreesWithArrayCell(friction: real, screenLength: real, flow: real,
                                                     m: MathLib, roughness: real)
    requires friction != FrictionLimit
    ensures MinimumScreenDiameterScalar(friction, screenLength, flow, m, roughness) ==
            (if friction < FrictionLimit && m.pow(roughness, FlowExponent) == 0.0 then Err(ZeroDivisionError)
             else Ok(MinScreenDiameterOf(Finite(friction), screenLength, flow, m, roughness)))
  {
    var c := m.pow(roughness, FlowExponent);
    if friction < FrictionLimit && c != 0.0 {
      var den := ScreenDivisor(friction, m, roughness);
      assert 2.0 * c == den / (FrictionLimit - friction);
    }
  }

  /** The sum ic pi prod + sl pi s, with an infinite screen diameter carried through. */
  function CasingSum(productionDiameter: real, screenDiameter: Float, intermediate: real, screenLength: real): (t: Float)
    requires !screenDiameter.NaN?
  {
    match screenDiameter
    case Finite(s) => Finite(intermediate * Pi * productionDiameter + screenLength * Pi * s)
    case PosInf => if screenLength > 0.0 then PosInf else if screenLength < 0.0 then NegInf else NaN
    case NegInf => if screenLength > 0.0 then NegInf else if screenLength < 0.0 then PosInf else NaN
  }

  /**
   * The total casing metric as a function: NaN when the screen is not narrower than the
   * production casing or is NaN, otherwise the casing surface ic pi prod + sl pi s.
   */
  function TotalCasingOf(productionDiameter: real, screenDiameter: Float, intermediate: real,
                         screenLength: real): (t: Float)
  {
    if screenDiameter.NaN? then NaN
    else if LessOrEqual(productionDiameter, screenDiameter) then NaN
    else CasingSum(productionDiameter, screenDiameter, intermediate, screenLength)
  }

  /** The IEEE comparison `p <= s` of a finite number with a float64 cell. */
  predicate LessOrEqual(p: real, s: Float)
  {
    match s
    case Finite(v) => p <= v
    case PosInf => true
    case NegInf => false
    case NaN => false
  }

  /**
   * `calculate_total_casing`: two checks raise a flag, and a raised flag returns NaN.  A
   * result is defined exactly when the screen diameter is a number below the production
   * casing diameter, and then it is the casing surface.
   */
  method TotalCasing(productionDiameter: real, screenDiameter: Float, intermediate: real, screenLength: real)
    returns (t: Float)
    ensures t == TotalCasingOf(productionDiameter, screenDiameter, intermediate, screenLength)
    ensures screenDiameter.Finite? && screenDiameter.value < productionDiameter ==>
              t == Finite(intermediate * Pi * productionDiameter + screenLength * Pi * screenDiameter.value)
    ensures screenDiameter.NaN? || LessOrEqual(productionDiameter, screenDiameter) ==> t == NaN
  {
    var nanFlag := false;
    if LessOrEqual(productionDiameter, screenDiameter) {
      nanFlag := true;
    }
    if screenDiameter.IsNaN() {
      nanFlag := true;
    }
    if nanFlag {
      return NaN;
    }
    t := CasingSum(productionDiameter, screenDiameter, intermediate, screenLength);
  }

  /**
   * `calculate_minimum_open_hole_diameter`: Q / (v pi phi ngr SL), with numpy's division since
   * the inputs are numpy values.
   */
  function MinimumOpenHoleDiameter(flow: real, screenLength: real, sandFaceVelocity: real,
                                   porosity: real, netToGross: real := 1.0): (d: Float)
    ensures var den := sandFaceVelocity * Pi * porosity * netToGross * screenLength;
            (d.Finite? <==> den != 0.0) && (d.Finite? ==> d.value * den == flow)
  {
    Divide(flow, sandFaceVelocity * Pi * porosity * netToGross * screenLength)
  }

  /**
   * The open hole is positive for positive inputs and inversely proportional to the screen
   * length: doubling the screen halves the minimum diameter.
   */
  lemma {:induction false} OpenHoleInverseInLength(flow: real, sl1: real, sl2: real, v: real, phi: real, ngr: real)
    requires flow > 0.0 && sl1 > 0.0 && sl2 > 0.0 && v > 0.0 && phi > 0.0 && ngr > 0.0
    ensures MinimumOpenHoleDiameter(flow, sl1, v, phi, ngr).Finite?
    ensures MinimumOpenHoleDiameter(flow, sl1, v, phi, ngr).value > 0.0
    ensures MinimumOpenHoleDiameter(flow, sl1, v, phi, ngr).value * sl1 ==
            MinimumOpenHoleDiameter(flow, sl2, v, phi, ngr).value * sl2
  {
    var k := v * Pi * phi * ngr;
    assert k > 0.0;
    assert k * sl1 > 0.0 && k * sl2 > 0.0;
    var d1 := MinimumOpenHoleDiameter(flow, sl1, v, phi, ngr).value;
    var d2 := MinimumOpenHoleDiameter(flow, sl2, v, phi, ngr).value;
    assert (d1 * sl1) * k == flow;
    assert (d2 * sl2) * k == flow;
    PositiveFactor(d1 * sl1, k);
    PositiveFactor(d1, sl1);
    assert ((d1 * sl1) - (d2 * sl2)) * k == 0.0;
  }

  /** A product with a positive factor is positive only when the other factor is. */
  lemma PositiveFactor(x: real, k: real)
    requires k > 0.0 && x * k > 0.0
    ensures x > 0.0
  {
    assert x == (x * k) / k;
  }
}
