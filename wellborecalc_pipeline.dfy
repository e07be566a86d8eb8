/**
 * The design pipeline of `wellborecalc/wellborecalc_pipeline.py`: on one ready store, the screen
 * stage, then the pump stage, then the casing stage, each writing its results back to the store.
 */
module WellborecalcPipeline {
  import opened Wrappers
  import opened Numerics
  import opened CalcUtils
  import opened CasingStages
  import opened StoreTypes
  import opened DictStore
  import opened ScreenSelection
  import opened PipelineSteps
  import CalcScreen

  /** The keys of the screen stage's result dictionary, in the order it fills them. */
  const ScreenOutputNames: seq<Attr> :=
    [ScreenLength, ScreenLengthError, OpenHoleDiameter, MinTotalCasingProductionScreenDiameter, ScreenDiameter]

  /** Everything the screen stage may change: its results and the screen stage table. */
  const ScreenWritten: set<Attr> :=
    {ScreenLength, ScreenLengthError, OpenHoleDiameter, MinTotalCasingProductionScreenDiameter, ScreenDiameter,
     ScreenStageTable}

  /** The screen stage's result dictionary for a production well. */
  function ScreenWrites(sl: CalcScreen.ScreenLength, openHole: real, minTotal: real, screenDiameter: real)
    : map<Attr, Value>
  {
    map[ScreenLength := Num(sl.length), ScreenLengthError := Band(sl.lower, sl.upper),
        OpenHoleDiameter := Num(openHole), MinTotalCasingProductionScreenDiameter := Num(minTotal),
        ScreenDiameter := Num(screenDiameter)]
  }

  /**
   * The open-hole diameter: the minimum for the flow `flow` in m^3/s through a screen of length
   * `sl` at the well type's sand-face velocity, snapped to the next larger drilling diameter.
   */
  function OpenHoleOf(attrs: map<Attr, Value>, flow: real, sl: real, isProductionWell: bool, drilling: seq<real>)
    : (r: Result<real>)
    ensures r.Err? ==> r.error in {TypeError, ValueError}
    ensures r.Ok? ==> r.value in drilling
  {
    var d :- MinimumOpenHoleOf(attrs, flow, sl,
                               if isProductionWell then SandFaceVelocityProduction else SandFaceVelocityInjection);
    FindNextLargestFloat(d, drilling)
  }

  /**
   * With its inputs set and a non-zero divisor the open hole is the least drilling diameter
   * strictly above Q / (v pi phi ngr SL), and fails with ValueError when none is.
   */
  lemma {:induction false} OpenHoleIsNextDrillingSize(attrs: map<Attr, Value>, flow: real, sl: real,
                                                      isProductionWell: bool, drilling: seq<real>, velocity: real,
                                                      porosity: real, netToGross: real)
    requires NumberOf(attrs, if isProductionWell then SandFaceVelocityProduction else SandFaceVelocityInjection) == Ok(velocity)
    requires NumberOf(attrs, AquiferAveragePorosity) == Ok(porosity)
    requires NumberOf(attrs, NetToGrossRatioAquifer) == Ok(netToGross)
    requires velocity * Pi * porosity * netToGross * sl != 0.0
    ensures var least := flow / (velocity * Pi * porosity * netToGross * sl);
            var r := OpenHoleOf(attrs, flow, sl, isProductionWell, drilling);
            (r.Ok? <==> exists x :: x in drilling && x > least) &&
            (r.Err? ==> r.error == ValueError) &&
            (r.Ok? ==> r.value in drilling && r.value > least &&
                       forall x :: x in drilling && x > least ==> r.value <= x)
  {
    var den := velocity * Pi * porosity * netToGross * sl;
    var d := CalcScreen.MinimumOpenHoleDiameter(flow, sl, velocity, porosity, netToGross);
    assert d.value * den == flow;
    assert d == Finite(flow / den);
  }

  /** The screen stage's store update: the candidate table set first, then the result dictionary assigned. */
  function ScreenStored(attrs: map<Attr, Value>, rows: seq<ScreenRow>, sl: CalcScreen.ScreenLength, openHole: real,
                        minTotal: real, screenDiameter: real): (r: map<Attr, Value>)
    ensures AgreeOutside(r, attrs, ScreenWritten)
    ensures ScreenStageTable in r && r[ScreenStageTable] == ScreenTable(rows)
    ensures ScreenLength in r && r[ScreenLength] == Num(sl.length)
    ensures ScreenLengthError in r && r[ScreenLengthError] == Band(sl.lower, sl.upper)
    ensures OpenHoleDiameter in r && r[OpenHoleDiameter] == Num(openHole)
    ensures MinTotalCasingProductionScreenDiameter in r && r[MinTotalCasingProductionScreenDiameter] == Num(minTotal)
    ensures ScreenDiameter in r && r[ScreenDiameter] == Num(screenDiameter)
  {
    var staged := attrs[ScreenStageTable := ScreenTable(rows)];
    ScreenWritesAssigned(staged, sl, openHole, minTotal, screenDiameter);
    AssignedInputs(staged, ScreenWrites(sl, openHole, minTotal, screenDiameter), ScreenOutputNames)
  }

  /** Assigning the screen results name by name is five updates, in the order of the names. */
  lemma ScreenWritesAssigned(staged: map<Attr, Value>, sl: CalcScreen.ScreenLength, openHole: real, minTotal: real,
                             screenDiameter: real)
    ensures AssignedInputs(staged, ScreenWrites(sl, openHole, minTotal, screenDiameter), ScreenOutputNames) ==
            staged[ScreenLength := Num(sl.length)][ScreenLengthError := Band(sl.lower, sl.upper)]
                  [OpenHoleDiameter := Num(openHole)][MinTotalCasingProductionScreenDiameter := Num(minTotal)]
                  [ScreenDiameter := Num(screenDiameter)]
  {
    var kw := ScreenWrites(sl, openHole, minTotal, screenDiameter);
    var n := ScreenOutputNames;
    assert n[..1][..0] == [] && n[..2][..1] == n[..1] && n[..3][..2] == n[..2] && n[..4][..3] == n[..3] &&
           n[..5] == n && n[..5][..4] == n[..4];
    assert AssignedInputs(staged, kw, n[..1]) == staged[ScreenLength := Num(sl.length)];
    assert AssignedInputs(staged, kw, n[..2]) == AssignedInputs(staged, kw, n[..1])[ScreenLengthError := Band(sl.lower, sl.upper)];
    assert AssignedInputs(staged, kw, n[..3]) == AssignedInputs(staged, kw, n[..2])[OpenHoleDiameter := Num(openHole)];
    assert AssignedInputs(staged, kw, n[..4]) ==
           AssignedInputs(staged, kw, n[..3])[MinTotalCasingProductionScreenDiameter := Num(minTotal)];
    assert AssignedInputs(staged, kw, n) == AssignedInputs(staged, kw, n[..4])[ScreenDiameter := Num(screenDiameter)];
  }

  /**
   * The production branch of the screen stage, given the stored length, the flow in m^3/s and
   * the open hole: the candidate table, the least-total-casing screen and the screen diameter,
   * stored with the length, its band and the open hole.
   */
  function ProductionScreenResults(attrs: map<Attr, Value>, sl: CalcScreen.ScreenLength, flow: real, openHole: real,
                                   casing: seq<real>, m: MathLib): (r: Result<map<Attr, Value>>)
    ensures r.Err? ==> r.error in {TypeError, ValueError}
    ensures r.Ok? ==> AgreeOutside(r.value, attrs, ScreenWritten)
    ensures r.Ok? ==> ScreenLength in r.value && r.value[ScreenLength] == Num(sl.length) &&
                      ScreenLengthError in r.value && r.value[ScreenLengthError] == Band(sl.lower, sl.upper) &&
                      OpenHoleDiameter in r.value && r.value[OpenHoleDiameter] == Num(openHole)
  {
    var depthToTopScreen :- NumberOf(attrs, DepthToTopScreen);
    var roughness :- NumberOf(attrs, PipeRoughnessCoeff);
    var rows :- ScreenTableOf(casing, depthToTopScreen, flow, sl.length, roughness, m);
    var choice :- ProductionScreenChoice(rows, casing);
    Ok(ScreenStored(attrs, rows, sl, openHole, choice.0, choice.1))
  }

  /**
   * `_screen_pipeline` on a store: the screen length (with the well-type flag passed where the
   * helper expects `is_injection_bore`), the open hole, then, for a production well, the
   * candidate table and the least-total-casing screen.  An injection well reads a result key
   * that was never set and raises KeyError.  The table is stored first, then the results.
   */
  function ScreenStage(attrs: map<Attr, Value>, isProductionWell: bool, casing: seq<real>, drilling: seq<real>,
                       m: MathLib): (r: Result<map<Attr, Value>>)
    ensures r.Err? ==> r.error in {TypeError, ZeroDivisionError, ValueError, KeyError}
    ensures !isProductionWell ==> r.Err?
    ensures r.Ok? ==> AgreeOutside(r.value, attrs, ScreenWritten)
  {
    var sl :- StoredScreenLength(attrs, isProductionWell, m);
    var flow :- NumberOf(attrs, RequiredFlowRatePerM3Sec);
    var openHole :- OpenHoleOf(attrs, flow, sl.length, isProductionWell, drilling);
    if !isProductionWell then Err(KeyError)
    else ProductionScreenResults(attrs, sl, flow, openHole, casing, m)
  }

  /**
   * A successful production screen stage stores the length doubled before the thickness cap
   * (the production flag lands in the injection slot), with its band.
   */
  lemma {:induction false} ProductionScreenLengthWritten(attrs: map<Attr, Value>, casing: seq<real>,
                                                         drilling: seq<real>, m: MathLib,
                                                         q: real, k: real, days: real, z: real)
    requires NumberOf(attrs, RequiredFlowRate) == Ok(q) && NumberOf(attrs, HydraulicConductivity) == Ok(k)
    requires NumberOf(attrs, BoreLifetimePerDay) == Ok(days) && NumberOf(attrs, AquiferThickness) == Ok(z)
    requires ScreenStage(attrs, true, casing, drilling, m).Ok?
    ensures CalcScreen.RawScreenLength(q, k, days, m).Ok?
    ensures var out := ScreenStage(attrs, true, casing, drilling, m).value;
            var len := Min(2.0 * CalcScreen.RawScreenLength(q, k, days, m).value, z);
            ScreenLength in out && out[ScreenLength] == Num(len) &&
            ScreenLengthError in out && out[ScreenLengthError] == Band(0.9 * len, Min(1.1 * len, z))
  {
    var sl := StoredScreenLength(attrs, true, m);
    assert sl.Ok?;
    assert 4.0 * Pi * k * 25.0 != 0.0;
    StoredScreenLengthOf(attrs, true, m, q, k, days, z);
    var flow := NumberOf(attrs, RequiredFlowRatePerM3Sec).value;
    var openHole := OpenHoleOf(attrs, flow, sl.value.length, true, drilling).value;
    assert ScreenStage(attrs, true, casing, drilling, m) ==
           ProductionScreenResults(attrs, sl.value, flow, openHole, casing, m);
  }

  /**
   * The doubling shows whenever the raw length is positive and its double fits in the aquifer:
   * the stored production length is then not the length a production bore is given.
   */
  lemma {:induction false} ProductionLengthIsDoubled(attrs: map<Attr, Value>, casing: seq<real>, drilling: seq<real>,
                                                     m: MathLib, q: real, k: real, days: real, z: real)
    requires NumberOf(attrs, RequiredFlowRate) == Ok(q) && NumberOf(attrs, HydraulicConductivity) == Ok(k)
    requires NumberOf(attrs, BoreLifetimePerDay) == Ok(days) && NumberOf(attrs, AquiferThickness) == Ok(z)
    requires ScreenStage(attrs, true, casing, drilling, m).Ok?
    requires CalcScreen.RawScreenLength(q, k, days, m).Ok?
    requires 0.0 < 2.0 * CalcScreen.RawScreenLength(q, k, days, m).value <= z
    ensures StoredScreenLength(attrs, false, m).Ok?
    ensures var out := ScreenStage(attrs, true, casing, drilling, m).value;
            ScreenLength in out && out[ScreenLength] != Num(StoredScreenLength(attrs, false, m).value.length)
  {
    ProductionScreenLengthWritten(attrs, casing, drilling, m, q, k, days, z);
    StoredScreenLengthOf(attrs, false, m, q, k, days, z);
  }

  /**
   * A successful production screen stage stores the candidate table built with the stored
   * length, the least-total-casing screen, which is a catalog size, and as the screen diameter
   * the larger of that and the smallest casing; the open hole is a drilling size.
   */
  lemma {:induction false} ProductionScreenDiameterWritten(attrs: map<Attr, Value>, casing: seq<real>,
                                                           drilling: seq<real>, m: MathLib,
                                                           sl: CalcScreen.ScreenLength, depthToTopScreen: real,
                                                           flow: real, roughness: real, rows: seq<ScreenRow>)
    requires StoredScreenLength(attrs, true, m) == Ok(sl)
    requires NumberOf(attrs, DepthToTopScreen) == Ok(depthToTopScreen)
    requires NumberOf(attrs, RequiredFlowRatePerM3Sec) == Ok(flow)
    requires NumberOf(attrs, PipeRoughnessCoeff) == Ok(roughness)
    requires ScreenTableOf(casing, depthToTopScreen, flow, sl.length, roughness, m) == Ok(rows)
    requires ScreenStage(attrs, true, casing, drilling, m).Ok?
    ensures forall i :: 0 <= i < |rows| ==> RowConsistent(rows[i])
    ensures MinTotalScreenDiameter(rows).Ok? && |casing| > 0
    ensures var out := ScreenStage(attrs, true, casing, drilling, m).value;
            var d := MinTotalScreenDiameter(rows).value;
            d in casing &&
            ScreenStageTable in out && out[ScreenStageTable] == ScreenTable(rows) &&
            MinTotalCasingProductionScreenDiameter in out && out[MinTotalCasingProductionScreenDiameter] == Num(d) &&
            ScreenDiameter in out && out[ScreenDiameter] == Num(Max(d, casing[0])) &&
            OpenHoleDiameter in out && out[OpenHoleDiameter].Num? && out[OpenHoleDiameter].x in drilling
  {
    var openHole := OpenHoleOf(attrs, flow, sl.length, true, drilling).value;
    assert ScreenStage(attrs, true, casing, drilling, m) ==
           ProductionScreenResults(attrs, sl, flow, openHole, casing, m);
    var choice := ProductionScreenChoice(rows, casing).value;
    assert ProductionScreenResults(attrs, sl, flow, openHole, casing, m) ==
           Ok(ScreenStored(attrs, rows, sl, openHole, choice.0, choice.1));
    MinTotalIsFeasibleCatalogSize(rows, casing, depthToTopScreen, flow, sl.length, roughness, m);
  }

  /** `_casing_pipeline` on a store: the copied table's rows set from the surface down, then the drill bits. */
  function CasingStage(attrs: map<Attr, Value>, isProductionWell: bool, casing: seq<real>, bits: seq<(real, real)>)
    : (r: Result<map<Attr, Value>>)
    ensures r.Ok? ==> AgreeOutside(r.value, attrs, {CasingStageTable})
    ensures r.Ok? ==> CasingStageTable in r.value && r.value[CasingStageTable].Stages?
  {
    var t0 :- StageTableOf(attrs, CasingStageTable);
    var t :- CasingTableOf(t0, attrs, isProductionWell, ScreenDiameter, ScreenLength, "screen", casing, bits);
    Ok(attrs[CasingStageTable := Stages(t)])
  }

  /** What the pump stage may change. */
  const PumpWritten: set<Attr> := {PumpInletDepth, MinimumPumpHousingDiameter}

  /** Everything the pipeline may change. */
  const PipelineWritten: set<Attr> := ScreenWritten + PumpWritten + {CasingStageTable}

  /**
   * `calc_pipeline` on a store's attributes: the three stages in order; the first failing stage
   * ends the run with the store as the previous stage left it, ValueError and ZeroDivisionError
   * re-raised as ValueError.  Only a production well can finish, and no ZeroDivisionError escapes.
   */
  function PipelineOutcome(attrs: map<Attr, Value>, isProductionWell: bool, casing: seq<real>, drilling: seq<real>,
                           bits: seq<(real, real)>, m: MathLib): (o: Outcome)
    ensures o.status.Done? ==> isProductionWell
    ensures o.status.Raised? ==> o.status.error != ZeroDivisionError
  {
    match ScreenStage(attrs, isProductionWell, casing, drilling, m)
    case Err(e) => Outcome(attrs, Raised(Reraised(e)))
    case Ok(a1) =>
      match PumpStage(a1, m)
      case Err(e) => Outcome(a1, Raised(Reraised(e)))
      case Ok(a2) =>
        match CasingStage(a2, isProductionWell, casing, bits)
        case Err(e) => Outcome(a2, Raised(Reraised(e)))
        case Ok(a3) => Outcome(a3, Done)
  }

  /**
   * A run changes only the stages' outputs, and a failed run never replaces the casing stage
   * table: the table is stored by the last stage, only when it succeeds.
   */
  lemma {:induction false} PipelineWritesOnlyOutputs(attrs: map<Attr, Value>, isProductionWell: bool, casing: seq<real>,
                                                     drilling: seq<real>, bits: seq<(real, real)>, m: MathLib)
    ensures var o := PipelineOutcome(attrs, isProductionWell, casing, drilling, bits, m);
            o.status.Done? ==> AgreeOutside(o.attrs, attrs, PipelineWritten)
    ensures var o := PipelineOutcome(attrs, isProductionWell, casing, drilling, bits, m);
            o.status.Raised? ==> AgreeOutside(o.attrs, attrs, ScreenWritten + PumpWritten)
  {
    assert CasingStageTable !in ScreenWritten + PumpWritten;
    match ScreenStage(attrs, isProductionWell, casing, drilling, m)
    case Err(_) =>
    case Ok(a1) =>
      AgreeOutsideChain(a1, attrs, attrs, ScreenWritten, {}, ScreenWritten + PumpWritten);
      match PumpStage(a1, m)
      case Err(_) =>
      case Ok(a2) =>
        AgreeOutsideChain(a2, a1, attrs, PumpWritten, ScreenWritten, ScreenWritten + PumpWritten);
        match CasingStage(a2, isProductionWell, casing, bits)
        case Err(_) =>
        case Ok(a3) =>
          AgreeOutsideChain(a3, a2, attrs, {CasingStageTable}, ScreenWritten + PumpWritten, PipelineWritten);
  }

  /**
   * An injection well that gets through the screen length and the open hole stops at the
   * never-set result key: KeyError escapes unconverted and the store is left as it was.
   */
  lemma {:induction false} InjectionRunRaisesKeyError(attrs: map<Attr, Value>, casing: seq<real>, drilling: seq<real>,
                                                      bits: seq<(real, real)>, m: MathLib)
    requires StoredScreenLength(attrs, false, m).Ok?
    requires NumberOf(attrs, RequiredFlowRatePerM3Sec).Ok?
    requires OpenHoleOf(attrs, attrs[RequiredFlowRatePerM3Sec].x, StoredScreenLength(attrs, false, m).value.length,
                        false, drilling).Ok?
    ensures PipelineOutcome(attrs, false, casing, drilling, bits, m) == Outcome(attrs, Raised(KeyError))
  {
    assert ScreenStage(attrs, false, casing, drilling, m) == Err(KeyError);
  }

  class CalcPipeline {
    const wbd: WellBoreDict
    const casingDiameters: seq<real>
    const drillingDiameters: seq<real>
    const m: MathLib

    /** The pipeline's fields: the store and its two catalogs in metres. */
    constructor Of(wbd: WellBoreDict, m: MathLib)
      ensures this.wbd == wbd && this.m == m
      ensures casingDiameters == wbd.casingTable.Metres() && drillingDiameters == wbd.drillingTable.Metres()
    {
      this.wbd := wbd;
      this.m := m;
      this.casingDiameters := wbd.GetCasingDiameters().values;
      this.drillingDiameters := wbd.GetDrillingDiameters().values;
    }

    /**
     * `CalcPipeline(wellboredict)`: a store not ready for calculation is refused.  The guard's
     * message reads `self.__name__`, which an instance does not have, so the refusal surfaces
     * as AttributeError rather than the RuntimeError it constructs.
     */
    static method Create(wbd: WellBoreDict, m: MathLib) returns (r: Result<CalcPipeline>)
      ensures r.Err? <==> !wbd.readyForCalculation
      ensures r.Err? ==> r.error == AttributeError
      ensures r.Ok? ==> fresh(r.value) && r.value.wbd == wbd && r.value.m == m &&
                        r.value.casingDiameters == wbd.casingTable.Metres() &&
                        r.value.drillingDiameters == wbd.drillingTable.Metres()
    {
      if !wbd.readyForCalculation {
        return Err(AttributeError);
      }
      var p := new CalcPipeline.Of(wbd, m);
      return Ok(p);
    }

    /** `_screen_pipeline`: the store takes the screen stage's results, or is left as it was. */
    method ScreenPipeline() returns (s: Status)
      modifies wbd
      ensures StageApplied(old(wbd.attrs), wbd.attrs, s,
                           ScreenStage(old(wbd.attrs), wbd.isProductionWell, casingDiameters, drillingDiameters, m))
      ensures wbd.casingTable == old(wbd.casingTable) && wbd.drillingTable == old(wbd.drillingTable)
      ensures wbd.layers == old(wbd.layers) && wbd.readyForCalculation == old(wbd.readyForCalculation)
      ensures wbd.calculationCompleted == old(wbd.calculationCompleted)
    {
      var attrs := wbd.attrs;
      var isProductionWell := wbd.isProductionWell;
      var sl := StoredScreenLength(attrs, isProductionWell, m);
      if sl.Err? {
        return Raised(sl.error);
      }
      var flow := NumberOf(attrs, RequiredFlowRatePerM3Sec);
      if flow.Err? {
        return Raised(flow.error);
      }
      var openHole := OpenHoleOf(attrs, flow.value, sl.value.length, isProductionWell, drillingDiameters);
      if openHole.Err? {
        return Raised(openHole.error);
      }
      if !isProductionWell {
        return Raised(KeyError);
      }
      var depthToTopScreen := NumberOf(attrs, DepthToTopScreen);
      if depthToTopScreen.Err? {
        return Raised(depthToTopScreen.error);
      }
      var roughness := NumberOf(attrs, PipeRoughnessCoeff);
      if roughness.Err? {
        return Raised(roughness.error);
      }
      var rows := BuildScreenTable(casingDiameters, depthToTopScreen.value, flow.value, sl.value.length,
                                   roughness.value, m);
      if rows.Err? {
        return Raised(rows.error);
      }
      var choice := ProductionScreenChoice(rows.value, casingDiameters);
      if choice.Err? {
        return Raised(choice.error);
      }
      wbd.attrs := attrs[ScreenStageTable := ScreenTable(rows.value)];
      wbd.AssignInputParams(ScreenOutputNames, ScreenWrites(sl.value, openHole.value, choice.value.0, choice.value.1));
      return Done;
    }

    /** `_pump_pipeline`: the store takes the pump results, or is left as it was. */
    method PumpPipeline() returns (s: Status)
      modifies wbd
      ensures StageApplied(old(wbd.attrs), wbd.attrs, s, PumpStage(old(wbd.attrs), m))
      ensures wbd.casingTable == old(wbd.casingTable) && wbd.drillingTable == old(wbd.drillingTable)
      ensures wbd.layers == old(wbd.layers) && wbd.readyForCalculation == old(wbd.readyForCalculation)
      ensures wbd.calculationCompleted == old(wbd.calculationCompleted)
    {
      var pr := PumpResults(wbd.attrs, m);
      if pr.Err? {
        return Raised(pr.error);
      }
      wbd.AssignInputParams(PumpOutputNames, pr.value);
      return Done;
    }

    /**
     * `_casing_pipeline`: the rows set on a copy of the stored table, the drill bits filled from
     * the casing catalog, and the copy stored only at the end.
     */
    method CasingPipeline() returns (s: Status)
      modifies wbd
      ensures StageApplied(old(wbd.attrs), wbd.attrs, s,
                           CasingStage(old(wbd.attrs), wbd.isProductionWell, casingDiameters, BitPairs(wbd.casingTable)))
      ensures wbd.casingTable == old(wbd.casingTable) && wbd.drillingTable == old(wbd.drillingTable)
      ensures wbd.layers == old(wbd.layers) && wbd.readyForCalculation == old(wbd.readyForCalculation)
      ensures wbd.calculationCompleted == old(wbd.calculationCompleted)
    {
      var t0 := StageTableOf(wbd.attrs, CasingStageTable);
      if t0.Err? {
        return Raised(t0.error);
      }
      var rows := CasingRowsOf(t0.value, wbd.attrs, wbd.isProductionWell, ScreenDiameter, ScreenLength, "screen",
                               casingDiameters);
      if rows.Err? {
        return Raised(rows.error);
      }
      var t := FillDrillBits(rows.value, BitPairs(wbd.casingTable));
      wbd.attrs := wbd.attrs[CasingStageTable := Stages(t)];
      return Done;
    }

    /**
     * `calc_pipeline`: completion is cleared, the three stages run in order, and completion is
     * set only when all three return.
     */
    method Calc() returns (s: Status)
      modifies wbd
      ensures Outcome(wbd.attrs, s) ==
              PipelineOutcome(old(wbd.attrs), wbd.isProductionWell, casingDiameters, drillingDiameters,
                              BitPairs(wbd.casingTable), m)
      ensures wbd.calculationCompleted == s.Done?
      ensures wbd.casingTable == old(wbd.casingTable) && wbd.drillingTable == old(wbd.drillingTable)
      ensures wbd.layers == old(wbd.layers) && wbd.readyForCalculation == old(wbd.readyForCalculation)
    {
      wbd.calculationCompleted := false;
      var st := ScreenPipeline();
      if st.Raised? {
        return Raised(Reraised(st.error));
      }
      st := PumpPipeline();
      if st.Raised? {
        return Raised(Reraised(st.error));
      }
      st := CasingPipeline();
      if st.Raised? {
        return Raised(Reraised(st.error));
      }
      wbd.calculationCompleted := true;
      return Done;
    }
  }
}
