/**
 * The steps both design pipelines share: reading a store's attributes for arithmetic, the pump
 * stage, the casing stage table built from the surface down, and how a failed stage is reported.
 */
module PipelineSteps {
  import opened Wrappers
  import opened Numerics
  import opened Catalogs
  import opened CasingStages
  import opened StoreTypes
  import CalcPump
  import CalcScreen

  /** The number an attribute holds, or `None` when it is unset or holds something else. */
  function NumOpt(attrs: map<Attr, Value>, a: Attr): (o: Option<real>)
    ensures o.Some? <==> a in attrs && attrs[a].Num?
    ensures o.Some? ==> attrs[a] == Num(o.value)
  {
    if a in attrs && attrs[a].Num? then Some(attrs[a].x) else None
  }

  /**
   * What a pipeline lets escape from a failed stage: ValueError and ZeroDivisionError are
   * re-raised as ValueError, every other exception passes unchanged.
   */
  function Reraised(e: Exception): (c: Exception)
    ensures c == ValueError <==> e == ValueError || e == ZeroDivisionError
    ensures c != ValueError ==> c == e
  {
    if e == ValueError || e == ZeroDivisionError then ValueError else e
  }

  /** Where a pipeline run leaves the store's attributes, and how it ended. */
  datatype Outcome = Outcome(attrs: map<Attr, Value>, status: Status)

  /**
   * `calculate_minimum_open_hole_diameter` on a store's inputs: the flow `flow` in m^3/s through
   * a screen of length `sl` at the sand-face velocity held by `velocity`; an unset velocity,
   * porosity or net-to-gross ratio raises TypeError.
   */
  function MinimumOpenHoleOf(attrs: map<Attr, Value>, flow: real, sl: real, velocity: Attr): (r: Result<Float>)
    ensures r.Err? ==> r.error == TypeError
  {
    var v :- NumberOf(attrs, velocity);
    var porosity :- NumberOf(attrs, AquiferAveragePorosity);
    var netToGross :- NumberOf(attrs, NetToGrossRatioAquifer);
    Ok(CalcScreen.MinimumOpenHoleDiameter(flow, sl, v, porosity, netToGross))
  }

  /** How a store method that raises or finishes has changed the attributes. */
  predicate StageApplied(before: map<Attr, Value>, after: map<Attr, Value>, s: Status, r: Result<map<Attr, Value>>)
  {
    (s.Done? <==> r.Ok?) && (r.Ok? ==> after == r.value) && (r.Err? ==> s == Raised(r.error) && after == before)
  }

  // ---------------------------------------------------------------- screen length

  /**
   * `calculate_minimum_screen_length` on a store's inputs, failing where the arithmetic meets
   * an unset input: the flow and the conductivity, then the Python float division by 4 pi K s
   * (drawdown 25 m), then the lifetime in days, then the thickness in the clamp.
   */
  function StoredScreenLength(attrs: map<Attr, Value>, isInjectionBore: bool, m: MathLib)
    : (r: Result<CalcScreen.ScreenLength>)
    ensures r.Err? ==> r.error in {TypeError, ZeroDivisionError}
    ensures r.Ok? ==> AquiferThickness in attrs && attrs[AquiferThickness].Num? &&
                      r.value.length <= attrs[AquiferThickness].x && r.value.upper <= attrs[AquiferThickness].x
    ensures r.Ok? ==> HydraulicConductivity in attrs && attrs[HydraulicConductivity].Num? &&
                      attrs[HydraulicConductivity].x != 0.0
  {
    var q :- NumberOf(attrs, RequiredFlowRate);
    var k :- NumberOf(attrs, HydraulicConductivity);
    var days :- if 4.0 * Pi * k * 25.0 == 0.0 then Err(ZeroDivisionError) else NumberOf(attrs, BoreLifetimePerDay);
    var raw := CalcScreen.RawScreenLength(q, k, days, m).value;
    var z :- NumberOf(attrs, AquiferThickness);
    Ok(CalcScreen.ScreenLengthOf(raw, z, isInjectionBore))
  }

  /**
   * With the four inputs set and a non-zero conductivity the stored length is the helper's:
   * the raw length, doubled when the flag says injection, capped at the thickness.
   */
  lemma {:induction false} StoredScreenLengthOf(attrs: map<Attr, Value>, isInjectionBore: bool, m: MathLib,
                                                q: real, k: real, days: real, z: real)
    requires NumberOf(attrs, RequiredFlowRate) == Ok(q) && NumberOf(attrs, HydraulicConductivity) == Ok(k)
    requires NumberOf(attrs, BoreLifetimePerDay) == Ok(days) && NumberOf(attrs, AquiferThickness) == Ok(z)
    requires k != 0.0
    ensures CalcScreen.RawScreenLength(q, k, days, m).Ok?
    ensures var raw := CalcScreen.RawScreenLength(q, k, days, m).value;
            var scaled := if isInjectionBore then 2.0 * raw else raw;
            StoredScreenLength(attrs, isInjectionBore, m) ==
            Ok(CalcScreen.ScreenLength(Min(scaled, z), 0.9 * Min(scaled, z), Min(1.1 * Min(scaled, z), z)))
  {
    assert 4.0 * Pi * k * 25.0 != 0.0;
  }

  /**
   * A zero conductivity raises ZeroDivisionError at the first division, before the lifetime is
   * read: even an unset lifetime does not turn it into a TypeError.
   */
  lemma {:induction false} ZeroConductivityRaises(attrs: map<Attr, Value>, isInjectionBore: bool, m: MathLib)
    requires NumberOf(attrs, RequiredFlowRate).Ok? && NumberOf(attrs, HydraulicConductivity) == Ok(0.0)
    ensures StoredScreenLength(attrs, isInjectionBore, m) == Err(ZeroDivisionError)
  {
  }

  // ---------------------------------------------------------------- pump stage

  const PumpOutputNames: seq<Attr> := [PumpInletDepth, MinimumPumpHousingDiameter]

  /**
   * The keyword arguments `_pump_pipeline` collects: the inlet depth from water depth,
   * drawdown, the safety margin input and the decline over the lifetime in years; the housing
   * from the flow in m^3/s and the pump class of the flow in L/s.
   */
  function PumpResults(attrs: map<Attr, Value>, m: MathLib): (r: Result<map<Attr, Value>>)
    ensures r.Err? ==> r.error in {TypeError, ValueError}
    ensures r.Ok? ==> r.value.Keys == {PumpInletDepth, MinimumPumpHousingDiameter}
  {
    var depth :- NumberOf(attrs, GroundwaterDepth);
    var drawdown :- NumberOf(attrs, AllowableDrawdown);
    var margin :- NumberOf(attrs, SafetyMargin);
    var rate :- NumberOf(attrs, LongTermDeclineRate);
    var years :- NumberOf(attrs, BoreLifetimeYear);
    var inlet := CalcPump.PumpInletDepth(depth, drawdown, margin, rate, years);
    var flowLitres :- NumberOf(attrs, RequiredFlowRatePerLitreSec);
    var pump :- CalcPump.AssignPumpDiameter(flowLitres);
    var flowCubic :- NumberOf(attrs, RequiredFlowRatePerM3Sec);
    var housing := CalcPump.MinimumPumpHousingDiameter(flowCubic, pump, m);
    Ok(PumpWrites(inlet, housing))
  }

  /** `_pump_pipeline`: the pump results written with the store's input assignment. */
  function PumpStage(attrs: map<Attr, Value>, m: MathLib): (r: Result<map<Attr, Value>>)
    ensures r.Err? ==> r.error in {TypeError, ValueError}
    ensures r.Ok? ==> AgreeOutside(r.value, attrs, {PumpInletDepth, MinimumPumpHousingDiameter})
  {
    var kwargs :- PumpResults(attrs, m);
    AssignedInputsMeaning(attrs, kwargs, PumpOutputNames);
    Ok(AssignedInputs(attrs, kwargs, PumpOutputNames))
  }

  /** The keyword arguments of the pump stage's assignment. */
  function PumpWrites(inlet: real, housing: real): map<Attr, Value>
  {
    map[PumpInletDepth := Num(inlet), MinimumPumpHousingDiameter := Num(housing)]
  }

  /**
   * The pump stage writes the inlet depth as the sum of its parts and a housing at least as
   * wide as a pump of the flow's class; a negative flow raises ValueError and writes nothing.
   */
  lemma {:induction false} PumpStageWrites(attrs: map<Attr, Value>, m: MathLib)
    requires PumpStage(attrs, m).Ok?
    ensures var out := PumpStage(attrs, m).value;
            var q := attrs[RequiredFlowRatePerM3Sec].x;
            var pump := CalcPump.AssignPumpDiameter(attrs[RequiredFlowRatePerLitreSec].x).value;
            PumpInletDepth in out && MinimumPumpHousingDiameter in out &&
            out[PumpInletDepth] == Num(attrs[GroundwaterDepth].x + attrs[AllowableDrawdown].x +
                                       attrs[SafetyMargin].x + attrs[LongTermDeclineRate].x * attrs[BoreLifetimeYear].x) &&
            (q >= 0.0 && SqrtIsExactAt(m, pump * pump + 4.0 * q / (3.7 * Pi)) ==>
               out[MinimumPumpHousingDiameter].x >= pump)
  {
    var flowLitres := attrs[RequiredFlowRatePerLitreSec].x;
    var pump := CalcPump.AssignPumpDiameter(flowLitres).value;
    var q := attrs[RequiredFlowRatePerM3Sec].x;
    var inlet := CalcPump.PumpInletDepth(attrs[GroundwaterDepth].x, attrs[AllowableDrawdown].x, attrs[SafetyMargin].x,
                                         attrs[LongTermDeclineRate].x, attrs[BoreLifetimeYear].x);
    var housing := CalcPump.MinimumPumpHousingDiameter(q, pump, m);
    AssignedInputsMeaning(attrs, PumpWrites(inlet, housing), PumpOutputNames);
    if q >= 0.0 && SqrtIsExactAt(m, pump * pump + 4.0 * q / (3.7 * Pi)) {
      CalcPump.HousingAtLeastPump(q, pump, m);
    }
  }

  /** A negative flow stops the pump stage with ValueError once the inlet inputs are numbers. */
  lemma {:induction false} NegativeFlowStopsPumpStage(attrs: map<Attr, Value>, m: MathLib)
    requires NumberOf(attrs, GroundwaterDepth).Ok? && NumberOf(attrs, AllowableDrawdown).Ok?
    requires NumberOf(attrs, SafetyMargin).Ok? && NumberOf(attrs, LongTermDeclineRate).Ok?
    requires NumberOf(attrs, BoreLifetimeYear).Ok?
    requires NumberOf(attrs, RequiredFlowRatePerLitreSec).Ok? && attrs[RequiredFlowRatePerLitreSec].x < 0.0
    ensures PumpStage(attrs, m) == Err(ValueError)
  {
  }

  // ---------------------------------------------------------------- casing stage

  /**
   * The working copy of the stored casing stage table: copying an unset attribute or a value
   * that is not a table raises AttributeError; dropping the `drill_bit` column of the screen
   * stage table, which has none, raises KeyError.
   */
  function StageTableOf(attrs: map<Attr, Value>, a: Attr): (r: Result<seq<StageEntry>>)
    ensures r.Ok? <==> a in attrs && attrs[a].Stages?
    ensures r.Ok? ==> r.value == attrs[a].stages
    ensures r.Err? ==> r.error == (if a in attrs && attrs[a].ScreenTable? then KeyError else AttributeError)
  {
    if a !in attrs then Err(AttributeError)
    else match attrs[a]
      case Stages(t) => Ok(t)
      case ScreenTable(_) => Err(KeyError)
      case _ => Err(AttributeError)
  }

  /** The drill bit of a stage: looked up for a stage with a casing, NaN for the others. */
  function DrillBitFor(casing: Float, bits: seq<(real, real)>): (b: Float)
    ensures casing.Finite? ==> b == DrillBitDiameter(casing.value, bits)
    ensures !casing.Finite? ==> b == NaN
  {
    match casing
    case Finite(c) => DrillBitDiameter(c, bits)
    case _ => NaN
  }

  /** The table with its `drill_bit` column recomputed from the casing column. */
  function WithDrillBits(t: seq<StageEntry>, bits: seq<(real, real)>): (u: seq<StageEntry>)
    ensures |u| == |t|
    ensures forall i :: 0 <= i < |t| ==>
              u[i].stage == t[i].stage && u[i].row.top == t[i].row.top && u[i].row.bottom == t[i].row.bottom &&
              u[i].row.casing == t[i].row.casing && u[i].row.drillBit == DrillBitFor(t[i].row.casing, bits)
  {
    seq(|t|, i requires 0 <= i < |t| =>
      StageEntry(t[i].stage, t[i].row.(drillBit := DrillBitFor(t[i].row.casing, bits))))
  }

  /** The `drill_bit` column filled row by row, as the table's `apply` does. */
  method FillDrillBits(t: seq<StageEntry>, bits: seq<(real, real)>) returns (u: seq<StageEntry>)
    ensures u == WithDrillBits(t, bits)
  {
    u := [];
    for i := 0 to |t|
      invariant |u| == i
      invariant forall k :: 0 <= k < i ==> u[k] == WithDrillBits(t, bits)[k]
    {
      var row := t[i].row;
      var bit := if row.casing.Finite? then DrillBitDiameter(row.casing.value, bits) else NaN;
      u := u + [StageEntry(t[i].stage, row.(drillBit := bit))];
    }
  }

  /**
   * The numbers held by several attributes, read together; any unset or non-numeric one
   * raises TypeError, as the arithmetic on it would.
   */
  function Numbers(attrs: map<Attr, Value>, names: seq<Attr>): (r: Result<seq<real>>)
    ensures r.Ok? <==> forall i :: 0 <= i < |names| ==> names[i] in attrs && attrs[names[i]].Num?
    ensures r.Err? ==> r.error == TypeError
    ensures r.Ok? ==> |r.value| == |names| && forall i :: 0 <= i < |names| ==> attrs[names[i]] == Num(r.value[i])
    decreases |names|
  {
    if names == [] then Ok([])
    else
      assert forall i :: 1 <= i < |names| ==> names[1..][i - 1] == names[i];
      var x :- NumberOf(attrs, names[0]);
      var rest :- Numbers(attrs, names[1..]);
      Ok([x] + rest)
  }

  /** A stage row before its drill bit is known. */
  function Stage(top: Float, bottom: Float, casing: Float): StageRow
  {
    StageRow(top, bottom, casing, NaN)
  }

  /** The pre-collar row: from the surface for the pre-collar length, 30-inch casing. */
  function PreCollarRow(base: real): (row: StageRow)
  {
    var depths := PreCollarDepths(base);
    Stage(Finite(depths.0), Finite(depths.1), Finite(PreCollarCasingDiameter()))
  }

  /**
   * The superficial-casing step: a row only when the top aquifer is deeper than 21.8 m; the
   * diameter helper is called without a diameter or a catalog.
   */
  function SuperficialStep(t1: seq<StageEntry>, base: real): (r: Result<seq<StageEntry>>)
  {
    if !IsSuperficialCasingRequired(base) then Ok(t1)
    else
      var depths := SuperficialCasingDepths(true, Some(base)).value;
      match SuperficialCasingDiameter(true, None, None)
      case Err(e) => Err(e)
      case Ok(diameter) => Ok(SetRow(t1, "superficial_casing", Stage(depths.top, depths.bottom, diameter)))
  }

  /** The pump-chamber step: depths and diameter of a separate chamber, only when one is needed. */
  function ChamberStep(t2: seq<StageEntry>, chamber: bool, inlet: Option<real>, housing: real, casing: seq<real>)
    : (r: Result<seq<StageEntry>>)
  {
    if !chamber then Ok(t2)
    else
      var depths :- PumpChamberDepths(true, inlet);
      var diameter :- PumpChamberDiameter(housing, casing);
      Ok(SetRow(t2, "pump_chamber_casing", Stage(depths.top, depths.bottom, Finite(diameter))))
  }

  /**
   * The casing stages down to the pump chamber: pre-collar, superficial casing and (when the
   * pump housing is wider than the screen of a well of kind `chamberWell`) the pump chamber.
   * Returns the table and whether a chamber was needed.
   */
  function UpperCasingRows(t0: seq<StageEntry>, attrs: map<Attr, Value>, chamberWell: bool, screenDiameter: Attr,
                           casing: seq<real>): (r: Result<(seq<StageEntry>, bool)>)
  {
    var base :- NumberOf(attrs, DepthToAquiferBase);
    var t1 := SetRow(t0, "pre_collar", PreCollarRow(base));
    var t2 :- SuperficialStep(t1, base);
    var housing := NumOpt(attrs, MinimumPumpHousingDiameter);
    var chamber := IsSeparatePumpChamberRequired(chamberWell, NumOpt(attrs, screenDiameter), housing);
    var t3 :- ChamberStep(t2, chamber, NumOpt(attrs, PumpInletDepth), if chamber then housing.value else 0.0, casing);
    Ok((t3, chamber))
  }

  /** The intermediate casing, from the chamber row's bottom to 10 m above the screen. */
  function IntermediateStep(t3: seq<StageEntry>, chamber: bool, attrs: map<Attr, Value>, screenDiameter: Attr,
                            casing: seq<real>): (r: Result<seq<StageEntry>>)
  {
    var chamberRow :- FindRow(t3, "pump_chamber_casing");
    var xs :- Numbers(attrs, [DepthToTopScreen, screenDiameter, MinTotalCasingProductionScreenDiameter]);
    var intermediate := IntermediateCasingDepths(xs[0], chamber, Some(chamberRow.bottom)).value;
    var intermediateD :- IntermediateCasingDiameter(xs[1], xs[2], casing);
    Ok(SetRow(t3, "intermediate_casing", Stage(intermediate.top, intermediate.bottom, Finite(intermediateD))))
  }

  /** The screen riser over the 20 m above the screen, then the screen row, labelled `screenLabel`. */
  function ScreenStep(t4: seq<StageEntry>, attrs: map<Attr, Value>, screenDiameter: Attr, screenLength: Attr,
                      screenLabel: string): (r: Result<seq<StageEntry>>)
  {
    var xs :- Numbers(attrs, [DepthToTopScreen, screenDiameter, screenLength, AquiferThickness]);
    var riser := ScreenRiserDepths(xs[0]);
    var t5 := SetRow(t4, "screen_riser", Stage(Finite(riser.0), Finite(riser.1), Finite(ScreenRiserDiameter(xs[1]))));
    var screen :- ScreenDepths(xs[0], xs[2], xs[3]);
    Ok(SetRow(t5, screenLabel, Stage(Finite(screen.0), Finite(screen.1 as real), Finite(xs[1]))))
  }

  /** The casing stages from the surface down, set on a copy of the stored table, before the drill bits. */
  function CasingRowsOf(t0: seq<StageEntry>, attrs: map<Attr, Value>, chamberWell: bool, screenDiameter: Attr,
                        screenLength: Attr, screenLabel: string, casing: seq<real>): (r: Result<seq<StageEntry>>)
  {
    var upper :- UpperCasingRows(t0, attrs, chamberWell, screenDiameter, casing);
    var t4 :- IntermediateStep(upper.0, upper.1, attrs, screenDiameter, casing);
    ScreenStep(t4, attrs, screenDiameter, screenLength, screenLabel)
  }

  /** The casing stage table a pipeline stores: the stage rows, then each row's drill bit. */
  function CasingTableOf(t0: seq<StageEntry>, attrs: map<Attr, Value>, chamberWell: bool, screenDiameter: Attr,
                         screenLength: Attr, screenLabel: string, casing: seq<real>, bits: seq<(real, real)>)
    : (r: Result<seq<StageEntry>>)
  {
    var rows :- CasingRowsOf(t0, attrs, chamberWell, screenDiameter, screenLength, screenLabel, casing);
    Ok(WithDrillBits(rows, bits))
  }

  // ---------------------------------------------------------------- corrected steps

  /**
   * The superficial-casing step as the docstring of `calculate_superficial_casing_diameter`
   * (geodrillcalc/wellbore_param_calc.py:616-636) describes it, run once the lower rows are set:
   * a row only when the top aquifer is deeper than 21.8 m, one casing size above the pump
   * chamber when there is one and above the intermediate casing otherwise.  An inner row
   * without a diameter leaves nothing above it to find, as `find_next_largest_value` of NaN.
   */
  function EnclosingSuperficialStep(t: seq<StageEntry>, base: real, chamber: bool, casing: seq<real>)
    : (r: Result<seq<StageEntry>>)
  {
    if !IsSuperficialCasingRequired(base) then Ok(t)
    else
      var inner :- FindRow(t, if chamber then "pump_chamber_casing" else "intermediate_casing");
      var depths := SuperficialCasingDepths(true, Some(base)).value;
      if !inner.casing.Finite? then Err(ValueError)
      else
        var diameter :- SuperficialCasingDiameter(true, Some(inner.casing.value), Some(casing));
        Ok(SetRow(t, "superficial_casing", Stage(depths.top, depths.bottom, diameter)))
  }

  /**
   * The intermediate-casing step with the top it is meant to have: the chamber row's bottom
   * when there is a chamber, the surface otherwise.
   */
  function SurfaceTopIntermediateStep(t3: seq<StageEntry>, chamber: bool, attrs: map<Attr, Value>,
                                      screenDiameter: Attr, casing: seq<real>): (r: Result<seq<StageEntry>>)
  {
    var chamberRow :- FindRow(t3, "pump_chamber_casing");
    var xs :- Numbers(attrs, [DepthToTopScreen, screenDiameter, MinTotalCasingProductionScreenDiameter]);
    var intermediate := IntermediateCasingDepths(xs[0], chamber, if chamber then Some(chamberRow.bottom) else None).value;
    var intermediateD :- IntermediateCasingDiameter(xs[1], xs[2], casing);
    Ok(SetRow(t3, "intermediate_casing", Stage(intermediate.top, intermediate.bottom, Finite(intermediateD))))
  }
}
