/**
 * The older design pipeline of `calc_pipeline.py`: an interval stage that sizes the screen and
 * the open hole for both a production and an injection bore, the pump stage, and a casing
 * stage for the pump kind its caller names, all on one `WellBoreDict`.
 */
module IntervalPipeline {
  import opened Wrappers
  import opened Numerics
  import opened Catalogs
  import opened CalcUtils
  import opened CasingStages
  import opened StoreTypes
  import opened DictStore
  import opened ScreenSelection
  import opened PipelineSteps
  import opened CasingTableFacts
  import CalcScreen

  /** Everything the interval stage may change: its results and the interval table. */
  const IntervalWritten: set<Attr> :=
    {ProductionScreenLength, ProductionScreenLengthError, InjectionScreenLength, InjectionScreenLengthError,
     ProductionOpenHoleDiameter, InjectionOpenHoleDiameter, MinTotalCasingProductionScreenDiameter,
     ProductionScreenDiameter, InjectionScreenDiameter, IntervalStageData}

  /** The interval stage's results: both screen lengths, both open holes and both screen diameters. */
  datatype Interval = Interval(production: CalcScreen.ScreenLength, injection: CalcScreen.ScreenLength,
                               productionOpenHole: real, injectionOpenHole: real, minTotal: real,
                               productionScreen: real, injectionScreen: real)

  /** The interval stage's result dictionary. */
  function IntervalWrites(ir: Interval): map<Attr, Value>
  {
    map[ProductionScreenLength := Num(ir.production.length),
        ProductionScreenLengthError := Band(ir.production.lower, ir.production.upper),
        InjectionScreenLength := Num(ir.injection.length),
        InjectionScreenLengthError := Band(ir.injection.lower, ir.injection.upper),
        ProductionOpenHoleDiameter := Num(ir.productionOpenHole),
        InjectionOpenHoleDiameter := Num(ir.injectionOpenHole),
        MinTotalCasingProductionScreenDiameter := Num(ir.minTotal),
        ProductionScreenDiameter := Num(ir.productionScreen),
        InjectionScreenDiameter := Num(ir.injectionScreen)]
  }

  /**
   * The injection screen: the `recommended_screen` cell of the first drilling row whose metres
   * equal the open hole exactly.  A table without that column raises KeyError; no matching row
   * leaves nothing to take the first of, IndexError.
   */
  function RecommendedScreenFor(table: DiameterTable, openHole: real): (r: Result<real>)
    ensures table.recommendedColumn != "recommended_screen" ==> r == Err(KeyError)
    ensures table.recommendedColumn == "recommended_screen" ==>
              (r.Err? <==> forall i :: 0 <= i < |table.rows| ==> table.rows[i].metres != openHole)
    ensures r.Err? ==> r.error in {KeyError, IndexError}
    ensures r.Ok? ==> exists i :: 0 <= i < |table.rows| && table.rows[i].metres == openHole &&
                                 r.value == table.rows[i].recommended &&
                                 forall j :: 0 <= j < i ==> table.rows[j].metres != openHole
  {
    if table.recommendedColumn != "recommended_screen" then Err(KeyError)
    else
      match FirstMatch(table.rows, 1, openHole)
      case None => Err(IndexError)
      case Some(k) => Ok(table.rows[k].recommended)
  }

  /** A drilling size of a table with a `recommended_screen` column always has a screen. */
  lemma {:induction false} ListedOpenHoleHasScreen(table: DiameterTable, openHole: real)
    requires table.recommendedColumn == "recommended_screen"
    requires openHole in table.Metres()
    ensures RecommendedScreenFor(table, openHole).Ok?
  {
    var i :| 0 <= i < |table.Metres()| && table.Metres()[i] == openHole;
    assert table.rows[i].metres == openHole;
  }

  /** In the default drilling catalog an 8.5-inch open hole takes a 4.5-inch screen. */
  lemma DefaultInjectionScreenSample()
    ensures RecommendedScreenFor(DefaultDrillingTable(), 0.2159) == Ok(0.1143)
  {
    var t := DefaultDrillingTable();
    assert t.rows[1].metres == DefaultDrillingMetres[1] == 0.2159;
    assert t.rows[0].metres == DefaultDrillingMetres[0] != 0.2159;
    assert FirstMatch(t.rows, 1, 0.2159) == Some(1);
    assert t.rows[1].recommended == DefaultRecommendedScreens[1];
  }

  /**
   * The interval stage's open holes and screens, given both lengths and the candidate table:
   * both minimum open holes with their own lengths and velocities, both snapped up the drilling
   * catalog, the least-total-casing screen, and the injection screen.
   */
  function IntervalDiameters(attrs: map<Attr, Value>, production: CalcScreen.ScreenLength,
                             injection: CalcScreen.ScreenLength, flow: real, rows: seq<ScreenRow>, casing: seq<real>,
                             drillingTable: DiameterTable): (r: Result<Interval>)
    requires |rows| == |casing| && forall i :: 0 <= i < |rows| ==> RowConsistent(rows[i])
    ensures r.Err? ==> r.error in {TypeError, ValueError, KeyError, IndexError}
    ensures r.Ok? ==> r.value.production == production && r.value.injection == injection
    ensures r.Ok? ==>
              MinimumOpenHoleOf(attrs, flow, production.length, SandFaceVelocityProduction).Ok? &&
              FindNextLargestFloat(MinimumOpenHoleOf(attrs, flow, production.length, SandFaceVelocityProduction).value,
                                   drillingTable.Metres()) == Ok(r.value.productionOpenHole)
    ensures r.Ok? ==>
              MinimumOpenHoleOf(attrs, flow, injection.length, SandFaceVelocityInjection).Ok? &&
              FindNextLargestFloat(MinimumOpenHoleOf(attrs, flow, injection.length, SandFaceVelocityInjection).value,
                                   drillingTable.Metres()) == Ok(r.value.injectionOpenHole)
    ensures r.Ok? ==> ProductionScreenChoice(rows, casing) == Ok((r.value.minTotal, r.value.productionScreen))
    ensures r.Ok? ==> RecommendedScreenFor(drillingTable, r.value.injectionOpenHole) == Ok(r.value.injectionScreen)
  {
    var productionMinimum :- MinimumOpenHoleOf(attrs, flow, production.length, SandFaceVelocityProduction);
    var injectionMinimum :- MinimumOpenHoleOf(attrs, flow, injection.length, SandFaceVelocityInjection);
    var productionOpenHole :- FindNextLargestFloat(productionMinimum, drillingTable.Metres());
    var injectionOpenHole :- FindNextLargestFloat(injectionMinimum, drillingTable.Metres());
    var choice :- ProductionScreenChoice(rows, casing);
    var injectionScreen :- RecommendedScreenFor(drillingTable, injectionOpenHole);
    Ok(Interval(production, injection, productionOpenHole, injectionOpenHole, choice.0, choice.1, injectionScreen))
  }

  /**
   * The interval stage's values, in the order the stage computes them: the production length
   * (flag `False`) and the injection length (flag `True`), the candidate table built with the
   * production length, then the open holes and screens.
   */
  function IntervalResults(attrs: map<Attr, Value>, casing: seq<real>, drillingTable: DiameterTable, m: MathLib)
    : (r: Result<(seq<ScreenRow>, Interval)>)
    ensures r.Err? ==> r.error in {TypeError, ZeroDivisionError, ValueError, KeyError, IndexError}
    ensures r.Ok? ==> StoredScreenLength(attrs, false, m) == Ok(r.value.1.production) &&
                      StoredScreenLength(attrs, true, m) == Ok(r.value.1.injection)
  {
    var production :- StoredScreenLength(attrs, false, m);
    var injection :- StoredScreenLength(attrs, true, m);
    var depthToTopScreen :- NumberOf(attrs, DepthToTopScreen);
    var flow :- NumberOf(attrs, RequiredFlowRatePerM3Sec);
    var roughness :- NumberOf(attrs, PipeRoughnessCoeff);
    var rows :- ScreenTableOf(casing, depthToTopScreen, flow, production.length, roughness, m);
    var ir :- IntervalDiameters(attrs, production, injection, flow, rows, casing, drillingTable);
    Ok((rows, ir))
  }

  /** The interval stage's store update: every result assigned, then the interval table set. */
  function IntervalStored(attrs: map<Attr, Value>, rows: seq<ScreenRow>, ir: Interval): (r: map<Attr, Value>)
    ensures AgreeOutside(r, attrs, IntervalWritten)
    ensures IntervalStageData in r && r[IntervalStageData] == ScreenTable(rows)
    ensures ProductionScreenLength in r && r[ProductionScreenLength] == Num(ir.production.length)
    ensures ProductionScreenLengthError in r &&
            r[ProductionScreenLengthError] == Band(ir.production.lower, ir.production.upper)
    ensures InjectionScreenLength in r && r[InjectionScreenLength] == Num(ir.injection.length)
    ensures InjectionScreenLengthError in r &&
            r[InjectionScreenLengthError] == Band(ir.injection.lower, ir.injection.upper)
    ensures ProductionOpenHoleDiameter in r && r[ProductionOpenHoleDiameter] == Num(ir.productionOpenHole)
    ensures InjectionOpenHoleDiameter in r && r[InjectionOpenHoleDiameter] == Num(ir.injectionOpenHole)
    ensures MinTotalCasingProductionScreenDiameter in r && r[MinTotalCasingProductionScreenDiameter] == Num(ir.minTotal)
    ensures ProductionScreenDiameter in r && r[ProductionScreenDiameter] == Num(ir.productionScreen)
    ensures InjectionScreenDiameter in r && r[InjectionScreenDiameter] == Num(ir.injectionScreen)
  {
    (attrs + IntervalWrites(ir))[IntervalStageData := ScreenTable(rows)]
  }

  /** `_interval_pipeline` on a store: the interval results stored, or the first exception. */
  function IntervalStage(attrs: map<Attr, Value>, casing: seq<real>, drillingTable: DiameterTable, m: MathLib)
    : (r: Result<map<Attr, Value>>)
    ensures r.Err? ==> r.error in {TypeError, ZeroDivisionError, ValueError, KeyError, IndexError}
    ensures r.Ok? ==> AgreeOutside(r.value, attrs, IntervalWritten)
  {
    var res :- IntervalResults(attrs, casing, drillingTable, m);
    Ok(IntervalStored(attrs, res.0, res.1))
  }

  /**
   * The parts of successful interval results: the candidate table built with the production
   * length, and the open holes and screens computed from it.
   */
  lemma {:induction false} IntervalResultsParts(attrs: map<Attr, Value>, casing: seq<real>,
                                                drillingTable: DiameterTable, m: MathLib)
    requires IntervalResults(attrs, casing, drillingTable, m).Ok?
    ensures var r := IntervalResults(attrs, casing, drillingTable, m).value;
            NumberOf(attrs, DepthToTopScreen).Ok? && NumberOf(attrs, RequiredFlowRatePerM3Sec).Ok? &&
            NumberOf(attrs, PipeRoughnessCoeff).Ok? &&
            ScreenTableOf(casing, attrs[DepthToTopScreen].x, attrs[RequiredFlowRatePerM3Sec].x,
                          r.1.production.length, attrs[PipeRoughnessCoeff].x, m) == Ok(r.0) &&
            IntervalDiameters(attrs, r.1.production, r.1.injection, attrs[RequiredFlowRatePerM3Sec].x, r.0, casing,
                              drillingTable) == Ok(r.1)
  {
  }

  /** The interval stage fails with the interval results' exception, or stores what they say. */
  lemma {:induction false} IntervalStageOfResults(attrs: map<Attr, Value>, casing: seq<real>,
                                                  drillingTable: DiameterTable, m: MathLib)
    ensures var res := IntervalResults(attrs, casing, drillingTable, m);
            res.Err? ==> IntervalStage(attrs, casing, drillingTable, m) == Err(res.error)
    ensures var res := IntervalResults(attrs, casing, drillingTable, m);
            res.Ok? ==> IntervalStage(attrs, casing, drillingTable, m) == Ok(IntervalStored(attrs, res.value.0, res.value.1))
  {
  }

  /**
   * The interval stage's candidate table built column by column from the stored depth to the
   * top of the screen, flow and roughness and the production length, as the stage stores it.
   */
  method IntervalTable(attrs: map<Attr, Value>, casing: seq<real>, drillingTable: DiameterTable, m: MathLib)
    returns (rows: seq<ScreenRow>)
    requires IntervalResults(attrs, casing, drillingTable, m).Ok?
    ensures rows == IntervalResults(attrs, casing, drillingTable, m).value.0
  {
    var res := IntervalResults(attrs, casing, drillingTable, m).value;
    IntervalResultsParts(attrs, casing, drillingTable, m);
    var r := BuildScreenTable(casing, attrs[DepthToTopScreen].x, attrs[RequiredFlowRatePerM3Sec].x,
                              res.1.production.length, attrs[PipeRoughnessCoeff].x, m);
    rows := r.value;
  }

  /**
   * From the same four inputs, the length computed with flag `False` is the raw length capped
   * at the thickness and the one computed with flag `True` is the raw length doubled, then capped.
   */
  lemma {:induction false} BothScreenLengths(attrs: map<Attr, Value>, m: MathLib, q: real, k: real, days: real, z: real)
    requires NumberOf(attrs, RequiredFlowRate) == Ok(q) && NumberOf(attrs, HydraulicConductivity) == Ok(k)
    requires NumberOf(attrs, BoreLifetimePerDay) == Ok(days) && NumberOf(attrs, AquiferThickness) == Ok(z)
    requires StoredScreenLength(attrs, false, m).Ok?
    ensures CalcScreen.RawScreenLength(q, k, days, m).Ok?
    ensures var raw := CalcScreen.RawScreenLength(q, k, days, m).value;
            var p := StoredScreenLength(attrs, false, m);
            var i := StoredScreenLength(attrs, true, m);
            p == Ok(CalcScreen.ScreenLength(Min(raw, z), 0.9 * Min(raw, z), Min(1.1 * Min(raw, z), z))) &&
            i == Ok(CalcScreen.ScreenLength(Min(2.0 * raw, z), 0.9 * Min(2.0 * raw, z), Min(1.1 * Min(2.0 * raw, z), z)))
  {
    StoredScreenLengthOf(attrs, false, m, q, k, days, z);
    StoredScreenLengthOf(attrs, true, m, q, k, days, z);
  }

  /**
   * A successful interval stage stores the production length capped at the thickness and the
   * injection length doubled before the cap, each with its band, from the same four inputs.
   */
  lemma {:induction false} IntervalLengthsWritten(attrs: map<Attr, Value>, casing: seq<real>,
                                                  drillingTable: DiameterTable, m: MathLib,
                                                  q: real, k: real, days: real, z: real)
    requires NumberOf(attrs, RequiredFlowRate) == Ok(q) && NumberOf(attrs, HydraulicConductivity) == Ok(k)
    requires NumberOf(attrs, BoreLifetimePerDay) == Ok(days) && NumberOf(attrs, AquiferThickness) == Ok(z)
    requires IntervalStage(attrs, casing, drillingTable, m).Ok?
    ensures CalcScreen.RawScreenLength(q, k, days, m).Ok?
    ensures var out := IntervalStage(attrs, casing, drillingTable, m).value;
            var raw := CalcScreen.RawScreenLength(q, k, days, m).value;
            var production := Min(raw, z);
            var injection := Min(2.0 * raw, z);
            ProductionScreenLength in out && out[ProductionScreenLength] == Num(production) &&
            ProductionScreenLengthError in out &&
            out[ProductionScreenLengthError] == Band(0.9 * production, Min(1.1 * production, z)) &&
            InjectionScreenLength in out && out[InjectionScreenLength] == Num(injection) &&
            InjectionScreenLengthError in out &&
            out[InjectionScreenLengthError] == Band(0.9 * injection, Min(1.1 * injection, z))
  {
    IntervalStageOfResults(attrs, casing, drillingTable, m);
    var res := IntervalResults(attrs, casing, drillingTable, m).value;
    BothScreenLengths(attrs, m, q, k, days, z);
    var raw := CalcScreen.RawScreenLength(q, k, days, m).value;
    var production := Min(raw, z);
    var injection := Min(2.0 * raw, z);
    assert res.1.production == CalcScreen.ScreenLength(production, 0.9 * production, Min(1.1 * production, z));
    assert res.1.injection == CalcScreen.ScreenLength(injection, 0.9 * injection, Min(1.1 * injection, z));
  }

  /**
   * A successful interval stage stores as each open hole a drilling size: the next one above
   * that bore's minimum open hole (whenever the minimum is a number), the production one from
   * the production length and velocity, the injection one from the injection length and velocity.
   */
  lemma {:induction false} IntervalOpenHolesWritten(attrs: map<Attr, Value>, casing: seq<real>,
                                                    drillingTable: DiameterTable, m: MathLib,
                                                    flow: real, vp: real, vi: real, porosity: real, netToGross: real)
    requires NumberOf(attrs, RequiredFlowRatePerM3Sec) == Ok(flow)
    requires NumberOf(attrs, SandFaceVelocityProduction) == Ok(vp)
    requires NumberOf(attrs, SandFaceVelocityInjection) == Ok(vi)
    requires NumberOf(attrs, AquiferAveragePorosity) == Ok(porosity)
    requires NumberOf(attrs, NetToGrossRatioAquifer) == Ok(netToGross)
    requires IntervalStage(attrs, casing, drillingTable, m).Ok?
    ensures StoredScreenLength(attrs, false, m).Ok? && StoredScreenLength(attrs, true, m).Ok?
    ensures var out := IntervalStage(attrs, casing, drillingTable, m).value;
            var drilling := drillingTable.Metres();
            var dp := CalcScreen.MinimumOpenHoleDiameter(flow, StoredScreenLength(attrs, false, m).value.length, vp,
                                                         porosity, netToGross);
            var di := CalcScreen.MinimumOpenHoleDiameter(flow, StoredScreenLength(attrs, true, m).value.length, vi,
                                                         porosity, netToGross);
            ProductionOpenHoleDiameter in out && out[ProductionOpenHoleDiameter].Num? &&
            InjectionOpenHoleDiameter in out && out[InjectionOpenHoleDiameter].Num? &&
            out[ProductionOpenHoleDiameter].x in drilling && out[InjectionOpenHoleDiameter].x in drilling &&
            (dp.Finite? ==> IsNextSizeAbove(out[ProductionOpenHoleDiameter].x, drilling, dp.value)) &&
            (di.Finite? ==> IsNextSizeAbove(out[InjectionOpenHoleDiameter].x, drilling, di.value))
  {
    IntervalStageOfResults(attrs, casing, drillingTable, m);
    IntervalResultsParts(attrs, casing, drillingTable, m);
    var res := IntervalResults(attrs, casing, drillingTable, m).value;
    DiameterOpenHoles(attrs, res.1.production, res.1.injection, flow, res.0, casing, drillingTable, vp, vi, porosity,
                      netToGross);
  }

  /** The open holes of successful interval diameters, as `IntervalOpenHolesWritten` states them. */
  lemma {:induction false} DiameterOpenHoles(attrs: map<Attr, Value>, production: CalcScreen.ScreenLength,
                                             injection: CalcScreen.ScreenLength, flow: real, rows: seq<ScreenRow>,
                                             casing: seq<real>, drillingTable: DiameterTable,
                                             vp: real, vi: real, porosity: real, netToGross: real)
    requires |rows| == |casing| && forall i :: 0 <= i < |rows| ==> RowConsistent(rows[i])
    requires NumberOf(attrs, SandFaceVelocityProduction) == Ok(vp)
    requires NumberOf(attrs, SandFaceVelocityInjection) == Ok(vi)
    requires NumberOf(attrs, AquiferAveragePorosity) == Ok(porosity)
    requires NumberOf(attrs, NetToGrossRatioAquifer) == Ok(netToGross)
    requires IntervalDiameters(attrs, production, injection, flow, rows, casing, drillingTable).Ok?
    ensures var ir := IntervalDiameters(attrs, production, injection, flow, rows, casing, drillingTable).value;
            var drilling := drillingTable.Metres();
            var dp := CalcScreen.MinimumOpenHoleDiameter(flow, production.length, vp, porosity, netToGross);
            var di := CalcScreen.MinimumOpenHoleDiameter(flow, injection.length, vi, porosity, netToGross);
            ir.productionOpenHole in drilling && ir.injectionOpenHole in drilling &&
            (dp.Finite? ==> IsNextSizeAbove(ir.productionOpenHole, drilling, dp.value)) &&
            (di.Finite? ==> IsNextSizeAbove(ir.injectionOpenHole, drilling, di.value))
  {
    var ir := IntervalDiameters(attrs, production, injection, flow, rows, casing, drillingTable).value;
    SnappedOpenHole(attrs, flow, production.length, SandFaceVelocityProduction, vp, porosity, netToGross,
                    drillingTable.Metres(), ir.productionOpenHole);
    SnappedOpenHole(attrs, flow, injection.length, SandFaceVelocityInjection, vi, porosity, netToGross,
                    drillingTable.Metres(), ir.injectionOpenHole);
  }

  /**
   * An open hole snapped up the drilling catalog from a minimum whose inputs are set is a
   * drilling size, and the next one above the minimum Q / (v pi phi ngr SL) when that is a number.
   */
  lemma {:induction false} SnappedOpenHole(attrs: map<Attr, Value>, flow: real, sl: real, velocity: Attr, v: real,
                                           porosity: real, netToGross: real, drilling: seq<real>, openHole: real)
    requires NumberOf(attrs, velocity) == Ok(v)
    requires NumberOf(attrs, AquiferAveragePorosity) == Ok(porosity)
    requires NumberOf(attrs, NetToGrossRatioAquifer) == Ok(netToGross)
    requires MinimumOpenHoleOf(attrs, flow, sl, velocity).Ok?
    requires FindNextLargestFloat(MinimumOpenHoleOf(attrs, flow, sl, velocity).value, drilling) == Ok(openHole)
    ensures openHole in drilling
    ensures var d := CalcScreen.MinimumOpenHoleDiameter(flow, sl, v, porosity, netToGross);
            d.Finite? ==> IsNextSizeAbove(openHole, drilling, d.value)
  {
    assert MinimumOpenHoleOf(attrs, flow, sl, velocity).value ==
           CalcScreen.MinimumOpenHoleDiameter(flow, sl, v, porosity, netToGross);
  }

  /**
   * A successful interval stage stores the candidate table built with the production length,
   * the least-total-casing screen (a casing catalog size), and the production screen as the
   * larger of that and the smallest casing.
   */
  lemma {:induction false} IntervalScreensWritten(attrs: map<Attr, Value>, casing: seq<real>,
                                                  drillingTable: DiameterTable, m: MathLib,
                                                  depthToTopScreen: real, flow: real, roughness: real)
    requires NumberOf(attrs, DepthToTopScreen) == Ok(depthToTopScreen)
    requires NumberOf(attrs, RequiredFlowRatePerM3Sec) == Ok(flow)
    requires NumberOf(attrs, PipeRoughnessCoeff) == Ok(roughness)
    requires IntervalStage(attrs, casing, drillingTable, m).Ok?
    ensures StoredScreenLength(attrs, false, m).Ok?
    ensures var rows := ScreenTableOf(casing, depthToTopScreen, flow, StoredScreenLength(attrs, false, m).value.length,
                                      roughness, m);
            rows.Ok? && MinTotalScreenDiameter(rows.value).Ok? && |casing| > 0 &&
            var out := IntervalStage(attrs, casing, drillingTable, m).value;
            var d := MinTotalScreenDiameter(rows.value).value;
            d in casing &&
            IntervalStageData in out && out[IntervalStageData] == ScreenTable(rows.value) &&
            MinTotalCasingProductionScreenDiameter in out && out[MinTotalCasingProductionScreenDiameter] == Num(d) &&
            ProductionScreenDiameter in out && out[ProductionScreenDiameter] == Num(Max(d, casing[0]))
  {
    IntervalStageOfResults(attrs, casing, drillingTable, m);
    IntervalResultsParts(attrs, casing, drillingTable, m);
    var res := IntervalResults(attrs, casing, drillingTable, m).value;
    DiameterScreens(attrs, res.1.production, res.1.injection, flow, res.0, casing, drillingTable, depthToTopScreen,
                    roughness, m);
    assert StoredScreenLength(attrs, false, m).value.length == res.1.production.length;
  }

  /**
   * A successful interval stage stores as the injection screen the recommended screen of the
   * first drilling row listing the stored injection open hole.
   */
  lemma {:induction false} IntervalInjectionScreenWritten(attrs: map<Attr, Value>, casing: seq<real>,
                                                          drillingTable: DiameterTable, m: MathLib)
    requires IntervalStage(attrs, casing, drillingTable, m).Ok?
    ensures var out := IntervalStage(attrs, casing, drillingTable, m).value;
            InjectionOpenHoleDiameter in out && out[InjectionOpenHoleDiameter].Num? &&
            InjectionScreenDiameter in out &&
            RecommendedScreenFor(drillingTable, out[InjectionOpenHoleDiameter].x) == Ok(out[InjectionScreenDiameter].x)
  {
    IntervalStageOfResults(attrs, casing, drillingTable, m);
    IntervalResultsParts(attrs, casing, drillingTable, m);
  }

  /** The screens of successful interval diameters, as `IntervalScreensWritten` states them. */
  lemma {:induction false} DiameterScreens(attrs: map<Attr, Value>, production: CalcScreen.ScreenLength,
                                           injection: CalcScreen.ScreenLength, flow: real, rows: seq<ScreenRow>,
                                           casing: seq<real>, drillingTable: DiameterTable, depthToTopScreen: real,
                                           roughness: real, m: MathLib)
    requires ScreenTableOf(casing, depthToTopScreen, flow, production.length, roughness, m) == Ok(rows)
    requires IntervalDiameters(attrs, production, injection, flow, rows, casing, drillingTable).Ok?
    ensures MinTotalScreenDiameter(rows).Ok? && |casing| > 0
    ensures var ir := IntervalDiameters(attrs, production, injection, flow, rows, casing, drillingTable).value;
            var d := MinTotalScreenDiameter(rows).value;
            d in casing && ir.minTotal == d && ir.productionScreen == Max(d, casing[0]) &&
            RecommendedScreenFor(drillingTable, ir.injectionOpenHole) == Ok(ir.injectionScreen)
  {
    MinTotalIsFeasibleCatalogSize(rows, casing, depthToTopScreen, flow, production.length, roughness, m);
  }

  /** The stored screen diameter the casing stage reads for a production or an injection pump. */
  function ScreenDiameterFor(isProductionPump: bool): Attr
  {
    if isProductionPump then ProductionScreenDiameter else InjectionScreenDiameter
  }

  /** The stored screen length the casing stage reads for a production or an injection pump. */
  function ScreenLengthFor(isProductionPump: bool): Attr
  {
    if isProductionPump then ProductionScreenLength else InjectionScreenLength
  }

  /**
   * `_casing_pipeline(is_production_pump)` on a store: the stored table's rows set on a copy with
   * the screen of the named pump kind, the chamber rule applied as for a production well
   * whatever the pump, the screen row labelled `production_screen`, then the drill bits.
   */
  function IntervalCasingStage(attrs: map<Attr, Value>, isProductionPump: bool, casing: seq<real>,
                               bits: seq<(real, real)>): (r: Result<map<Attr, Value>>)
    ensures r.Ok? ==> AgreeOutside(r.value, attrs, {CasingStageTable})
    ensures r.Ok? ==> CasingStageTable in r.value && r.value[CasingStageTable].Stages?
  {
    var t0 :- StageTableOf(attrs, CasingStageTable);
    var t :- CasingTableOf(t0, attrs, true, ScreenDiameterFor(isProductionPump), ScreenLengthFor(isProductionPump),
                           "production_screen", casing, bits);
    Ok(attrs[CasingStageTable := Stages(t)])
  }

  /**
   * On the store's initial stage table, a successful casing stage for either pump kind puts the
   * chosen screen diameter in the `production_screen` row, and writes a pump chamber exactly
   * when the pump housing is wider than that screen, for an injection pump as well.
   */
  lemma {:induction false} CasingStageForEitherPump(attrs: map<Attr, Value>, isProductionPump: bool,
                                                    casing: seq<real>, bits: seq<(real, real)>,
                                                    screenD: real, housing: real)
    requires CasingStageTable in attrs && attrs[CasingStageTable] == Stages(InitialStageTable())
    requires NumberOf(attrs, ScreenDiameterFor(isProductionPump)) == Ok(screenD)
    requires NumberOf(attrs, MinimumPumpHousingDiameter) == Ok(housing)
    requires IntervalCasingStage(attrs, isProductionPump, casing, bits).Ok?
    ensures var t := IntervalCasingStage(attrs, isProductionPump, casing, bits).value[CasingStageTable].stages;
            FindRow(t, "pump_chamber_casing").Ok? &&
            (FindRow(t, "pump_chamber_casing").value.casing.Finite? <==> housing > screenD) &&
            FindRow(t, "production_screen").Ok? &&
            FindRow(t, "production_screen").value.casing == Finite(screenD)
  {
    var sd := ScreenDiameterFor(isProductionPump);
    var sl := ScreenLengthFor(isProductionPump);
    var rows := CasingRowsOf(InitialStageTable(), attrs, true, sd, sl, "production_screen", casing).value;
    assert IntervalCasingStage(attrs, isProductionPump, casing, bits) ==
           Ok(attrs[CasingStageTable := Stages(WithDrillBits(rows, bits))]);
    ProductionScreenAndChamberRows(attrs, sd, sl, casing, screenD, housing);
    DrillBitsKeepRows(rows, bits, "pump_chamber_casing");
    DrillBitsKeepRows(rows, bits, "production_screen");
  }

  /** Everything the pipeline may change. */
  const IntervalPipelineWritten: set<Attr> :=
    IntervalWritten + {PumpInletDepth, MinimumPumpHousingDiameter} + {CasingStageTable}

  /**
   * `calc_pipeline(is_production_pump)` on a store's attributes: the interval, pump and casing
   * stages in order; the first failing stage ends the run with the store as the previous stage
   * left it, ValueError and ZeroDivisionError re-raised as ValueError.
   */
  function IntervalPipelineOutcome(attrs: map<Attr, Value>, isProductionPump: bool, casing: seq<real>,
                                   drillingTable: DiameterTable, bits: seq<(real, real)>, m: MathLib): (o: Outcome)
    ensures o.status.Raised? ==> o.status.error != ZeroDivisionError
  {
    match IntervalStage(attrs, casing, drillingTable, m)
    case Err(e) => Outcome(attrs, Raised(Reraised(e)))
    case Ok(a1) =>
      match PumpStage(a1, m)
      case Err(e) => Outcome(a1, Raised(Reraised(e)))
      case Ok(a2) =>
        match IntervalCasingStage(a2, isProductionPump, casing, bits)
        case Err(e) => Outcome(a2, Raised(Reraised(e)))
        case Ok(a3) => Outcome(a3, Done)
  }

  /**
   * A run changes only the stages' outputs, and a failed run never replaces the casing stage
   * table.
   */
  lemma {:induction false} IntervalPipelineWritesOnlyOutputs(attrs: map<Attr, Value>, isProductionPump: bool,
                                                             casing: seq<real>, drillingTable: DiameterTable,
                                                             bits: seq<(real, real)>, m: MathLib)
    ensures var o := IntervalPipelineOutcome(attrs, isProductionPump, casing, drillingTable, bits, m);
            o.status.Done? ==> AgreeOutside(o.attrs, attrs, IntervalPipelineWritten)
    ensures var o := IntervalPipelineOutcome(attrs, isProductionPump, casing, drillingTable, bits, m);
            o.status.Raised? ==> AgreeOutside(o.attrs, attrs, IntervalWritten + {PumpInletDepth, MinimumPumpHousingDiameter})
  {
    var early := IntervalWritten + {PumpInletDepth, MinimumPumpHousingDiameter};
    assert CasingStageTable !in early;
    match IntervalStage(attrs, casing, drillingTable, m)
    case Err(_) =>
    case Ok(a1) =>
      AgreeOutsideChain(a1, attrs, attrs, IntervalWritten, {}, early);
      match PumpStage(a1, m)
      case Err(_) =>
      case Ok(a2) =>
        AgreeOutsideChain(a2, a1, attrs, {PumpInletDepth, MinimumPumpHousingDiameter}, IntervalWritten, early);
        match IntervalCasingStage(a2, isProductionPump, casing, bits)
        case Err(_) =>
        case Ok(a3) =>
          AgreeOutsideChain(a3, a2, attrs, {CasingStageTable}, early, IntervalPipelineWritten);
  }

  class CalcPipeline {
    const wbd: WellBoreDict
    const casingDiameters: seq<real>
    const drillingDiameters: seq<real>
    const m: MathLib

    /** `CalcPipeline(wellboredict)`: the store and its two catalogs in metres, with no readiness check. */
    constructor(wbd: WellBoreDict, m: MathLib)
      ensures this.wbd == wbd && this.m == m
      ensures casingDiameters == wbd.casingTable.Metres() && drillingDiameters == wbd.drillingTable.Metres()
    {
      this.wbd := wbd;
      this.m := m;
      this.casingDiameters := wbd.GetCasingDiameters().values;
      this.drillingDiameters := wbd.GetDrillingDiameters().values;
    }

    /** `_interval_pipeline`: the store takes the interval results, or is left as it was. */
    method IntervalPipeline() returns (s: Status)
      modifies wbd
      ensures StageApplied(old(wbd.attrs), wbd.attrs, s, IntervalStage(old(wbd.attrs), casingDiameters, wbd.drillingTable, m))
      ensures wbd.casingTable == old(wbd.casingTable) && wbd.drillingTable == old(wbd.drillingTable)
      ensures wbd.layers == old(wbd.layers) && wbd.readyForCalculation == old(wbd.readyForCalculation)
      ensures wbd.calculationCompleted == old(wbd.calculationCompleted)
    {
      var attrs := wbd.attrs;
      var res := IntervalResults(attrs, casingDiameters, wbd.drillingTable, m);
      IntervalStageOfResults(attrs, casingDiameters, wbd.drillingTable, m);
      if res.Err? {
        return Raised(res.error);
      }
      var rows := IntervalTable(attrs, casingDiameters, wbd.drillingTable, m);
      var stored := IntervalStored(attrs, rows, res.value.1);
      assert IntervalStage(attrs, casingDiameters, wbd.drillingTable, m) == Ok(stored);
      wbd.attrs := stored;
      return Done;
    }

    /** `_pump_pipeline`: the store takes the pump results, or is left as it was. */
    method PumpPipeline() returns (s: Status)
      modifies wbd
      ensures StageApplied(old(wbd.attrs), wbd.attrs, s, PumpStage(old(wbd.attrs), m))
      ensures wbd.casingTable == old(wbd.casingTable) && wbd.drillingTable == old(wbd.drillingTable)
      ensures wbd.layers == old(wbd.layers) && wbd.readyForCalculation == old(wbd.readyForCalculation)
      ensures wbd.calculationCompleted == old(wbd.calculationCompleted)
    {
      var pr := PumpResults(wbd.attrs, m);
      if pr.Err? {
        return Raised(pr.error);
      }
      wbd.AssignInputParams(PumpOutputNames, pr.value);
      return Done;
    }

    /**
     * `_casing_pipeline(is_production_pump)`: the rows set on a copy of the stored table, the
     * drill bits filled from the casing catalog, and the copy stored at the end.
     */
    method CasingPipeline(isProductionPump: bool) returns (s: Status)
      modifies wbd
      ensures StageApplied(old(wbd.attrs), wbd.attrs, s,
                           IntervalCasingStage(old(wbd.attrs), isProductionPump, casingDiameters, BitPairs(wbd.casingTable)))
      ensures wbd.casingTable == old(wbd.casingTable) && wbd.drillingTable == old(wbd.drillingTable)
      ensures wbd.layers == old(wbd.layers) && wbd.readyForCalculation == old(wbd.readyForCalculation)
      ensures wbd.calculationCompleted == old(wbd.calculationCompleted)
    {
      var t0 := StageTableOf(wbd.attrs, CasingStageTable);
      if t0.Err? {
        return Raised(t0.error);
      }
      var rows := CasingRowsOf(t0.value, wbd.attrs, true, ScreenDiameterFor(isProductionPump),
                               ScreenLengthFor(isProductionPump), "production_screen", casingDiameters);
      if rows.Err? {
        return Raised(rows.error);
      }
      var t := FillDrillBits(rows.value, BitPairs(wbd.casingTable));
      wbd.attrs := wbd.attrs[CasingStageTable := Stages(t)];
      return Done;
    }

    /**
     * `calc_pipeline(is_production_pump)`: completion is cleared, the three stages run in order,
     * and completion is set only when all three return.
     */
    method Calc(isProductionPump: bool) returns (s: Status)
      modifies wbd
      ensures Outcome(wbd.attrs, s) ==
              IntervalPipelineOutcome(old(wbd.attrs), isProductionPump, casingDiameters, old(wbd.drillingTable),
                                      BitPairs(wbd.casingTable), m)
      ensures wbd.calculationCompleted == s.Done?
      ensures wbd.casingTable == old(wbd.casingTable) && wbd.drillingTable == old(wbd.drillingTable)
      ensures wbd.layers == old(wbd.layers) && wbd.readyForCalculation == old(wbd.readyForCalculation)
    {
      wbd.calculationCompleted := false;
      var st := IntervalPipeline();
      if st.Raised? {
        return Raised(Reraised(st.error));
      }
      st := PumpPipeline();
      if st.Raised? {
        return Raised(Reraised(st.error));
      }
      st := CasingPipeline(isProductionPump);
      if st.Raised? {
        return Raised(Reraised(st.error));
      }
      wbd.calculationCompleted := true;
      return Done;
    }
  }
}
