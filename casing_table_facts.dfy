/**
 * What the casing stage of a pipeline leaves in the stage table: which stages get a row, how
 * the rows' depths meet, and what the drill-bit column adds.
 */
module CasingTableFacts {
  import opened Wrappers
  import opened Numerics
  import opened CasingStages
  import opened StoreTypes
  import opened PipelineSteps
  import opened CalcUtils

  /** Every stage of the initial table reads back as a row of NaN cells. */
  lemma {:induction false} InitialRowsAreNaN(stage: string)
    requires stage in CasingStageNames
    ensures FindRow(InitialStageTable(), stage) == Ok(NaNRow)
  {
    var t := InitialStageTable();
    var k :| 0 <= k < 6 && CasingStageNames[k] == stage;
    assert t[k].stage == stage;
    var r := FindRow(t, stage);
    var i :| 0 <= i < |t| && t[i] == StageEntry(stage, r.value) && forall j :: 0 <= j < i ==> t[j].stage != stage;
    assert t[i].row == NaNRow;
  }

  /**
   * Filling the drill bits keeps every stage's depths and casing and adds the bit of that
   * casing: looked up for a stage with a casing, NaN for the others.
   */
  lemma {:induction false} DrillBitsKeepRows(t: seq<StageEntry>, bits: seq<(real, real)>, stage: string)
    ensures FindRow(WithDrillBits(t, bits), stage).Err? <==> FindRow(t, stage).Err?
    ensures FindRow(t, stage).Ok? ==>
              FindRow(WithDrillBits(t, bits), stage) ==
              Ok(FindRow(t, stage).value.(drillBit := DrillBitFor(FindRow(t, stage).value.casing, bits)))
  {
    var u := WithDrillBits(t, bits);
    var r := FindRow(t, stage);
    assert forall j :: 0 <= j < |t| ==> (u[j].stage == stage <==> t[j].stage == stage);
    if r.Ok? {
      var i :| 0 <= i < |t| && t[i] == StageEntry(stage, r.value) && forall j :: 0 <= j < i ==> t[j].stage != stage;
      var ru := FindRow(u, stage);
      var k :| 0 <= k < |u| && u[k] == StageEntry(stage, ru.value) && forall j :: 0 <= j < k ==> u[j].stage != stage;
      assert u[i].stage == stage && t[k].stage == stage;
      assert k == i;
      assert u[i].row == t[i].row.(drillBit := DrillBitFor(t[i].row.casing, bits));
    }
  }

  /** Setting one stage leaves every other stage's row as it was. */
  lemma {:induction false} SetKeepsAllOthers(t: seq<StageEntry>, stage: string, row: StageRow)
    ensures forall s :: s != stage ==> FindRow(SetRow(t, stage, row), s) == FindRow(t, s)
  {
    forall s | s != stage
      ensures FindRow(SetRow(t, stage, row), s) == FindRow(t, s)
    {
      SetKeepsOthers(t, stage, s, row);
    }
  }

  /**
   * The casing rows an injection well's pipeline cannot build: with the top aquifer deeper
   * than 21.8 m the superficial casing is needed, and its diameter is asked for without a
   * diameter or a catalog, which raises TypeError.
   */
  lemma {:induction false} SuperficialCasingStopsTable(t0: seq<StageEntry>, attrs: map<Attr, Value>,
                                                       chamberWell: bool, screenDiameter: Attr, casing: seq<real>)
    requires NumberOf(attrs, DepthToAquiferBase).Ok?
    requires IsSuperficialCasingRequired(attrs[DepthToAquiferBase].x)
    ensures UpperCasingRows(t0, attrs, chamberWell, screenDiameter, casing) == Err(TypeError)
  {
    var base := attrs[DepthToAquiferBase].x;
    var t1 := SetRow(t0, "pre_collar", PreCollarRow(base));
    assert SuperficialStep(t1, base) == Err(TypeError);
  }

  /**
   * The rows down to the pump chamber: the pre-collar row from the aquifer base, no superficial
   * row written, and a chamber row `[0, pump inlet depth, one casing size above the housing]`
   * exactly when the chamber rule asks for one; without it the chamber row is the one the table
   * started with.
   */
  lemma {:induction false} UpperRowsChamber(t0: seq<StageEntry>, attrs: map<Attr, Value>, chamberWell: bool,
                                            screenDiameter: Attr, casing: seq<real>)
    requires UpperCasingRows(t0, attrs, chamberWell, screenDiameter, casing).Ok?
    ensures NumberOf(attrs, DepthToAquiferBase).Ok?
    ensures !IsSuperficialCasingRequired(attrs[DepthToAquiferBase].x)
    ensures var (t3, chamber) := UpperCasingRows(t0, attrs, chamberWell, screenDiameter, casing).value;
            var housing := NumOpt(attrs, MinimumPumpHousingDiameter);
            var inlet := NumOpt(attrs, PumpInletDepth);
            FindRow(t3, "pre_collar") == Ok(PreCollarRow(attrs[DepthToAquiferBase].x)) &&
            FindRow(t3, "superficial_casing") == FindRow(t0, "superficial_casing") &&
            (chamber <==> IsSeparatePumpChamberRequired(chamberWell, NumOpt(attrs, screenDiameter), housing)) &&
            (chamber ==> inlet.Some? && housing.Some? && PumpChamberDiameter(housing.value, casing).Ok? &&
                         FindRow(t3, "pump_chamber_casing") ==
                         Ok(Stage(Finite(0.0), Finite(inlet.value),
                                  Finite(PumpChamberDiameter(housing.value, casing).value))) &&
                         PumpChamberDiameter(housing.value, casing).value > housing.value) &&
            (!chamber ==> FindRow(t3, "pump_chamber_casing") == FindRow(t0, "pump_chamber_casing"))
  {
    var base := attrs[DepthToAquiferBase].x;
    var t1 := SetRow(t0, "pre_collar", PreCollarRow(base));
    SetThenFind(t0, "pre_collar", PreCollarRow(base));
    SetKeepsOthers(t0, "pre_collar", "superficial_casing", PreCollarRow(base));
    SetKeepsOthers(t0, "pre_collar", "pump_chamber_casing", PreCollarRow(base));
    assert SuperficialStep(t1, base) == Ok(t1);
    var housing := NumOpt(attrs, MinimumPumpHousingDiameter);
    var chamber := IsSeparatePumpChamberRequired(chamberWell, NumOpt(attrs, screenDiameter), housing);
    if chamber {
      var inlet := NumOpt(attrs, PumpInletDepth);
      var depths := PumpChamberDepths(true, inlet).value;
      var row := Stage(depths.top, depths.bottom, Finite(PumpChamberDiameter(housing.value, casing).value));
      SetThenFind(t1, "pump_chamber_casing", row);
      SetKeepsOthers(t1, "pump_chamber_casing", "pre_collar", row);
      SetKeepsOthers(t1, "pump_chamber_casing", "superficial_casing", row);
    }
  }

  /**
   * The intermediate casing row, given the stored depth to the screen top `dts`, screen
   * diameter `screenD` and least-total-casing diameter `minTotal`: its top is the bottom of
   * whatever the chamber row holds, its bottom 10 m above the screen, and its diameter larger
   * than the screen diameter and at least `minTotal`; no other row changes.
   */
  lemma {:induction false} IntermediateRow(t3: seq<StageEntry>, chamber: bool, attrs: map<Attr, Value>,
                                           screenDiameter: Attr, casing: seq<real>,
                                           dts: real, screenD: real, minTotal: real)
    requires NumberOf(attrs, DepthToTopScreen) == Ok(dts)
    requires NumberOf(attrs, screenDiameter) == Ok(screenD)
    requires NumberOf(attrs, MinTotalCasingProductionScreenDiameter) == Ok(minTotal)
    requires IntermediateStep(t3, chamber, attrs, screenDiameter, casing).Ok?
    ensures FindRow(t3, "pump_chamber_casing").Ok?
    ensures var t4 := IntermediateStep(t3, chamber, attrs, screenDiameter, casing).value;
            var d := IntermediateCasingDiameter(screenD, minTotal, casing);
            d.Ok? && d.value > screenD && d.value >= minTotal &&
            FindRow(t4, "intermediate_casing") ==
            Ok(Stage(FindRow(t3, "pump_chamber_casing").value.bottom, Finite(dts - 10.0), Finite(d.value)))
    ensures var t4 := IntermediateStep(t3, chamber, attrs, screenDiameter, casing).value;
            FindRow(t4, "superficial_casing") == FindRow(t3, "superficial_casing") &&
            FindRow(t4, "pump_chamber_casing") == FindRow(t3, "pump_chamber_casing")
  {
    var chamberRow := FindRow(t3, "pump_chamber_casing").value;
    var names := [DepthToTopScreen, screenDiameter, MinTotalCasingProductionScreenDiameter];
    var xs := Numbers(attrs, names).value;
    assert attrs[names[0]] == Num(xs[0]) && attrs[names[1]] == Num(xs[1]) && attrs[names[2]] == Num(xs[2]);
    assert xs[0] == dts && xs[1] == screenD && xs[2] == minTotal;
    var intermediate := IntermediateCasingDepths(dts, chamber, Some(chamberRow.bottom)).value;
    var d := IntermediateCasingDiameter(screenD, minTotal, casing).value;
    var row := Stage(chamberRow.bottom, Finite(dts - 10.0), Finite(d));
    assert Stage(intermediate.top, intermediate.bottom, Finite(d)) == row;
    var t4 := SetRow(t3, "intermediate_casing", row);
    assert IntermediateStep(t3, chamber, attrs, screenDiameter, casing) == Ok(t4);
    SetThenFind(t3, "intermediate_casing", row);
    SetKeepsOthers(t3, "intermediate_casing", "superficial_casing", row);
    SetKeepsOthers(t3, "intermediate_casing", "pump_chamber_casing", row);
  }

  /**
   * The screen riser and screen rows, given the stored depth to the screen top `dts`, screen
   * diameter `screenD`, screen length `length` and aquifer thickness `thickness`: the riser
   * spans the 20 m above the screen with the screen diameter, the screen starts where the riser
   * ends, at the top of the target aquifer, and fits in the aquifer; no other row changes.
   */
  lemma {:induction false} ScreenRows(t4: seq<StageEntry>, attrs: map<Attr, Value>, screenDiameter: Attr,
                                      screenLength: Attr, screenLabel: string,
                                      dts: real, screenD: real, length: real, thickness: real)
    requires screenLabel != "screen_riser"
    requires NumberOf(attrs, DepthToTopScreen) == Ok(dts)
    requires NumberOf(attrs, screenDiameter) == Ok(screenD)
    requires NumberOf(attrs, screenLength) == Ok(length)
    requires NumberOf(attrs, AquiferThickness) == Ok(thickness)
    requires ScreenStep(t4, attrs, screenDiameter, screenLength, screenLabel).Ok?
    ensures length <= thickness
    ensures var t6 := ScreenStep(t4, attrs, screenDiameter, screenLength, screenLabel).value;
            var bottom := ScreenDepths(dts, length, thickness).value.1 as real;
            FindRow(t6, "screen_riser") == Ok(Stage(Finite(dts - 20.0), Finite(dts), Finite(screenD))) &&
            FindRow(t6, screenLabel) == Ok(Stage(Finite(dts), Finite(bottom), Finite(screenD))) &&
            Abs(bottom - (dts + length)) <= 0.5
    ensures var t6 := ScreenStep(t4, attrs, screenDiameter, screenLength, screenLabel).value;
            (screenLabel != "superficial_casing" ==>
               FindRow(t6, "superficial_casing") == FindRow(t4, "superficial_casing")) &&
            (screenLabel != "pump_chamber_casing" ==>
               FindRow(t6, "pump_chamber_casing") == FindRow(t4, "pump_chamber_casing")) &&
            (screenLabel != "intermediate_casing" ==>
               FindRow(t6, "intermediate_casing") == FindRow(t4, "intermediate_casing"))
  {
    var names := [DepthToTopScreen, screenDiameter, screenLength, AquiferThickness];
    var xs := Numbers(attrs, names).value;
    assert attrs[names[0]] == Num(xs[0]) && attrs[names[1]] == Num(xs[1]) && attrs[names[2]] == Num(xs[2]) &&
           attrs[names[3]] == Num(xs[3]);
    assert xs[0] == dts && xs[1] == screenD && xs[2] == length && xs[3] == thickness;
    var riser := ScreenRiserDepths(dts);
    var riserRow := Stage(Finite(dts - 20.0), Finite(dts), Finite(screenD));
    assert Stage(Finite(riser.0), Finite(riser.1), Finite(ScreenRiserDiameter(screenD))) == riserRow;
    var t5 := SetRow(t4, "screen_riser", riserRow);
    var screen := ScreenDepths(dts, length, thickness).value;
    var screenRow := Stage(Finite(dts), Finite(screen.1 as real), Finite(screenD));
    assert Stage(Finite(screen.0), Finite(screen.1 as real), Finite(screenD)) == screenRow;
    var t6 := SetRow(t5, screenLabel, screenRow);
    assert ScreenStep(t4, attrs, screenDiameter, screenLength, screenLabel) == Ok(t6);
    SetThenFind(t4, "screen_riser", riserRow);
    SetKeepsOthers(t5, screenLabel, "screen_riser", screenRow);
    SetThenFind(t5, screenLabel, screenRow);
    SetKeepsOthers(t4, "screen_riser", "superficial_casing", riserRow);
    SetKeepsOthers(t4, "screen_riser", "pump_chamber_casing", riserRow);
    SetKeepsOthers(t4, "screen_riser", "intermediate_casing", riserRow);
    if screenLabel != "superficial_casing" {
      SetKeepsOthers(t5, screenLabel, "superficial_casing", screenRow);
    }
    if screenLabel != "pump_chamber_casing" {
      SetKeepsOthers(t5, screenLabel, "pump_chamber_casing", screenRow);
    }
    if screenLabel != "intermediate_casing" {
      SetKeepsOthers(t5, screenLabel, "intermediate_casing", screenRow);
    }
  }

  /**
   * The rows below the pump chamber, in terms of the table `t3` the upper stages leave: the
   * superficial and chamber rows pass through, the intermediate casing starts at the chamber
   * row's bottom and ends 10 m above the screen, and the screen riser ends where the screen
   * starts.
   */
  lemma {:induction false} LowerRowsFollowUpper(t3: seq<StageEntry>, chamber: bool, t4: seq<StageEntry>,
                                                t6: seq<StageEntry>, attrs: map<Attr, Value>, screenDiameter: Attr,
                                                screenLength: Attr, screenLabel: string, casing: seq<real>,
                                                dts: real, screenD: real, minTotal: real, length: real,
                                                thickness: real)
    requires screenLabel != "superficial_casing" && screenLabel != "pump_chamber_casing" &&
             screenLabel != "intermediate_casing" && screenLabel != "screen_riser"
    requires NumberOf(attrs, DepthToTopScreen) == Ok(dts)
    requires NumberOf(attrs, screenDiameter) == Ok(screenD)
    requires NumberOf(attrs, MinTotalCasingProductionScreenDiameter) == Ok(minTotal)
    requires NumberOf(attrs, screenLength) == Ok(length)
    requires NumberOf(attrs, AquiferThickness) == Ok(thickness)
    requires IntermediateStep(t3, chamber, attrs, screenDiameter, casing) == Ok(t4)
    requires ScreenStep(t4, attrs, screenDiameter, screenLength, screenLabel) == Ok(t6)
    ensures FindRow(t3, "pump_chamber_casing").Ok?
    ensures FindRow(t6, "superficial_casing") == FindRow(t3, "superficial_casing")
    ensures FindRow(t6, "pump_chamber_casing") == FindRow(t3, "pump_chamber_casing")
    ensures FindRow(t6, "intermediate_casing").Ok? &&
            FindRow(t6, "intermediate_casing").value.top == FindRow(t3, "pump_chamber_casing").value.bottom &&
            FindRow(t6, "intermediate_casing").value.bottom == Finite(dts - 10.0)
    ensures FindRow(t6, "screen_riser").Ok? && FindRow(t6, screenLabel).Ok? &&
            FindRow(t6, "screen_riser").value.bottom == FindRow(t6, screenLabel).value.top == Finite(dts)
  {
    IntermediateRow(t3, chamber, attrs, screenDiameter, casing, dts, screenD, minTotal);
    ScreenRows(t4, attrs, screenDiameter, screenLength, screenLabel, dts, screenD, length, thickness);
    assert FindRow(t4, "superficial_casing") == FindRow(t3, "superficial_casing");
    assert FindRow(t4, "pump_chamber_casing") == FindRow(t3, "pump_chamber_casing");
    assert FindRow(t6, "intermediate_casing") == FindRow(t4, "intermediate_casing");
  }

  /**
   * The casing rows built on the store's initial table (six stages of NaN cells), given the
   * stored screen diameter `screenD`, depth to the screen top `dts`, least-total-casing
   * diameter `minTotal`, screen length and aquifer thickness.  No superficial casing is
   * written; the chamber row holds a casing exactly when the chamber rule asks for one; the
   * intermediate casing starts at the chamber row's bottom, which without a chamber is still
   * NaN; the screen riser ends where the screen starts, at `dts`.
   */
  lemma {:induction false} CasingRowsFromInitialTable(attrs: map<Attr, Value>, chamberWell: bool, screenDiameter: Attr,
                                                      screenLength: Attr, screenLabel: string, casing: seq<real>,
                                                      dts: real, screenD: real, minTotal: real, length: real,
                                                      thickness: real)
    requires screenLabel !in ["superficial_casing", "pump_chamber_casing", "intermediate_casing", "screen_riser"]
    requires NumberOf(attrs, DepthToTopScreen) == Ok(dts)
    requires NumberOf(attrs, screenDiameter) == Ok(screenD)
    requires NumberOf(attrs, MinTotalCasingProductionScreenDiameter) == Ok(minTotal)
    requires NumberOf(attrs, screenLength) == Ok(length)
    requires NumberOf(attrs, AquiferThickness) == Ok(thickness)
    requires CasingRowsOf(InitialStageTable(), attrs, chamberWell, screenDiameter, screenLength, screenLabel, casing).Ok?
    ensures var t := CasingRowsOf(InitialStageTable(), attrs, chamberWell, screenDiameter, screenLength, screenLabel,
                                  casing).value;
            var chamber := IsSeparatePumpChamberRequired(chamberWell, Some(screenD),
                                                         NumOpt(attrs, MinimumPumpHousingDiameter));
            FindRow(t, "superficial_casing") == Ok(NaNRow) &&
            FindRow(t, "pump_chamber_casing").Ok? && FindRow(t, "intermediate_casing").Ok? &&
            (FindRow(t, "pump_chamber_casing").value.casing.Finite? <==> chamber) &&
            FindRow(t, "intermediate_casing").value.top == FindRow(t, "pump_chamber_casing").value.bottom &&
            (!chamber ==> FindRow(t, "intermediate_casing").value.top == NaN)
  {
    var t0 := InitialStageTable();
    var upper := UpperCasingRows(t0, attrs, chamberWell, screenDiameter, casing).value;
    var t4 := IntermediateStep(upper.0, upper.1, attrs, screenDiameter, casing).value;
    var t6 := ScreenStep(t4, attrs, screenDiameter, screenLength, screenLabel).value;
    assert CasingRowsOf(t0, attrs, chamberWell, screenDiameter, screenLength, screenLabel, casing) == Ok(t6);
    UpperRowsChamber(t0, attrs, chamberWell, screenDiameter, casing);
    InitialRowsAreNaN("superficial_casing");
    InitialRowsAreNaN("pump_chamber_casing");
    LowerRowsFollowUpper(upper.0, upper.1, t4, t6, attrs, screenDiameter, screenLength, screenLabel, casing, dts,
                         screenD, minTotal, length, thickness);
    assert NumOpt(attrs, screenDiameter) == Some(screenD);
  }

  /** A successful casing stage has read the screen top, screen length, aquifer thickness and minimum diameter. */
  lemma {:induction false} CasingRowsReadNumbers(t0: seq<StageEntry>, attrs: map<Attr, Value>, chamberWell: bool,
                                                 screenDiameter: Attr, screenLength: Attr, screenLabel: string,
                                                 casing: seq<real>)
    requires CasingRowsOf(t0, attrs, chamberWell, screenDiameter, screenLength, screenLabel, casing).Ok?
    ensures NumberOf(attrs, DepthToTopScreen).Ok? && NumberOf(attrs, screenLength).Ok? &&
            NumberOf(attrs, AquiferThickness).Ok? && NumberOf(attrs, MinTotalCasingProductionScreenDiameter).Ok?
  {
    var upper := UpperCasingRows(t0, attrs, chamberWell, screenDiameter, casing).value;
    var t4 := IntermediateStep(upper.0, upper.1, attrs, screenDiameter, casing).value;
    var xs := Numbers(attrs, [DepthToTopScreen, screenDiameter, screenLength, AquiferThickness]).value;
    var ys := Numbers(attrs, [DepthToTopScreen, screenDiameter, MinTotalCasingProductionScreenDiameter]).value;
    assert attrs[screenLength] == Num(xs[2]) && attrs[AquiferThickness] == Num(xs[3]);
    assert attrs[DepthToTopScreen] == Num(ys[0]) && attrs[MinTotalCasingProductionScreenDiameter] == Num(ys[2]);
  }

  /** The screen row of a successful casing stage carries the screen diameter. */
  lemma {:induction false} CasingRowsScreenRow(t0: seq<StageEntry>, attrs: map<Attr, Value>, chamberWell: bool,
                                               screenDiameter: Attr, screenLength: Attr, screenLabel: string,
                                               casing: seq<real>, dts: real, screenD: real, length: real,
                                               thickness: real)
    requires screenLabel != "screen_riser"
    requires NumberOf(attrs, DepthToTopScreen) == Ok(dts)
    requires NumberOf(attrs, screenDiameter) == Ok(screenD)
    requires NumberOf(attrs, screenLength) == Ok(length)
    requires NumberOf(attrs, AquiferThickness) == Ok(thickness)
    requires CasingRowsOf(t0, attrs, chamberWell, screenDiameter, screenLength, screenLabel, casing).Ok?
    ensures var t := CasingRowsOf(t0, attrs, chamberWell, screenDiameter, screenLength, screenLabel, casing).value;
            FindRow(t, screenLabel).Ok? && FindRow(t, screenLabel).value.casing == Finite(screenD)
  {
    var upper := UpperCasingRows(t0, attrs, chamberWell, screenDiameter, casing).value;
    var t4 := IntermediateStep(upper.0, upper.1, attrs, screenDiameter, casing).value;
    ScreenRows(t4, attrs, screenDiameter, screenLength, screenLabel, dts, screenD, length, thickness);
  }

  /**
   * In a chamber well built on the initial table, the `production_screen` row carries the screen
   * diameter and the pump-chamber row has a casing exactly when the pump housing is wider.
   */
  lemma {:induction false} ProductionScreenAndChamberRows(attrs: map<Attr, Value>, screenDiameter: Attr,
                                                          screenLength: Attr, casing: seq<real>, screenD: real,
                                                          housing: real)
    requires NumberOf(attrs, screenDiameter) == Ok(screenD)
    requires NumberOf(attrs, MinimumPumpHousingDiameter) == Ok(housing)
    requires CasingRowsOf(InitialStageTable(), attrs, true, screenDiameter, screenLength, "production_screen", casing).Ok?
    ensures var t := CasingRowsOf(InitialStageTable(), attrs, true, screenDiameter, screenLength, "production_screen",
                                  casing).value;
            FindRow(t, "pump_chamber_casing").Ok? &&
            (FindRow(t, "pump_chamber_casing").value.casing.Finite? <==> housing > screenD) &&
            FindRow(t, "production_screen").Ok? &&
            FindRow(t, "production_screen").value.casing == Finite(screenD)
  {
    var t0 := InitialStageTable();
    CasingRowsReadNumbers(t0, attrs, true, screenDiameter, screenLength, "production_screen", casing);
    var dts := NumberOf(attrs, DepthToTopScreen).value;
    var length := NumberOf(attrs, screenLength).value;
    var thickness := NumberOf(attrs, AquiferThickness).value;
    var minTotal := NumberOf(attrs, MinTotalCasingProductionScreenDiameter).value;
    CasingRowsFromInitialTable(attrs, true, screenDiameter, screenLength, "production_screen", casing, dts, screenD,
                               minTotal, length, thickness);
    CasingRowsScreenRow(t0, attrs, true, screenDiameter, screenLength, "production_screen", casing, dts, screenD,
                        length, thickness);
    assert NumOpt(attrs, MinimumPumpHousingDiameter) == Some(housing);
  }

  /**
   * A required superficial casing placed after the lower rows encloses the casing below it: it
   * runs from the surface to more than 5 m below the aquifer base with the next catalog size
   * above the pump chamber, or above the intermediate casing when there is no chamber.  It
   * succeeds exactly when that inner row has a diameter with a larger catalog size, and no
   * other row changes.
   */
  lemma {:induction false} SuperficialEnclosesInnerCasing(t: seq<StageEntry>, base: real, chamber: bool,
                                                          casing: seq<real>)
    requires IsSuperficialCasingRequired(base)
    requires FindRow(t, "pump_chamber_casing").Ok? && FindRow(t, "intermediate_casing").Ok?
    ensures var inner := FindRow(t, if chamber then "pump_chamber_casing" else "intermediate_casing").value;
            var r := EnclosingSuperficialStep(t, base, chamber, casing);
            r.Ok? <==> inner.casing.Finite? && exists c :: c in casing && c > inner.casing.value
    ensures var inner := FindRow(t, if chamber then "pump_chamber_casing" else "intermediate_casing").value;
            var r := EnclosingSuperficialStep(t, base, chamber, casing);
            r.Ok? ==> FindRow(r.value, "superficial_casing").Ok? &&
                      var row := FindRow(r.value, "superficial_casing").value;
                      row.top == Finite(0.0) && row.bottom.Finite? && row.bottom.value > base + 5.0 &&
                      row.casing.Finite? && IsNextSizeAbove(row.casing.value, casing, inner.casing.value) &&
                      forall s :: s != "superficial_casing" ==> FindRow(r.value, s) == FindRow(t, s)
  {
    var inner := FindRow(t, if chamber then "pump_chamber_casing" else "intermediate_casing").value;
    var r := EnclosingSuperficialStep(t, base, chamber, casing);
    if r.Ok? {
      var depths := SuperficialCasingDepths(true, Some(base)).value;
      SuperficialReachesBelowBase(base, 0.0);
      var next := FindNextLargestValue(inner.casing.value, casing).value;
      var row := Stage(depths.top, depths.bottom, Finite(next));
      assert r.value == SetRow(t, "superficial_casing", row);
      SetThenFind(t, "superficial_casing", row);
      SetKeepsAllOthers(t, "superficial_casing", row);
    }
  }

  /**
   * The intermediate casing with its intended top starts at the surface when there is no pump
   * chamber and at the chamber's bottom when there is one; it succeeds exactly when the step
   * as written does, and differs from it only in the top of a chamberless well.
   */
  lemma {:induction false} IntermediateStartsAtSurface(t3: seq<StageEntry>, chamber: bool, attrs: map<Attr, Value>,
                                                       screenDiameter: Attr, casing: seq<real>,
                                                       dts: real, screenD: real, minTotal: real)
    requires NumberOf(attrs, DepthToTopScreen) == Ok(dts)
    requires NumberOf(attrs, screenDiameter) == Ok(screenD)
    requires NumberOf(attrs, MinTotalCasingProductionScreenDiameter) == Ok(minTotal)
    requires FindRow(t3, "pump_chamber_casing").Ok?
    ensures SurfaceTopIntermediateStep(t3, chamber, attrs, screenDiameter, casing).Ok? <==>
            IntermediateStep(t3, chamber, attrs, screenDiameter, casing).Ok?
    ensures var t4 := SurfaceTopIntermediateStep(t3, chamber, attrs, screenDiameter, casing);
            var d := IntermediateCasingDiameter(screenD, minTotal, casing);
            t4.Ok? ==> d.Ok? &&
                       FindRow(t4.value, "intermediate_casing") ==
                       Ok(Stage(if chamber then FindRow(t3, "pump_chamber_casing").value.bottom else Finite(0.0),
                                Finite(dts - 10.0), Finite(d.value)))
    ensures chamber ==> SurfaceTopIntermediateStep(t3, chamber, attrs, screenDiameter, casing) ==
                        IntermediateStep(t3, chamber, attrs, screenDiameter, casing)
  {
    var names := [DepthToTopScreen, screenDiameter, MinTotalCasingProductionScreenDiameter];
    var xs := Numbers(attrs, names).value;
    assert attrs[names[0]] == Num(xs[0]) && attrs[names[1]] == Num(xs[1]) && attrs[names[2]] == Num(xs[2]);
    assert xs[0] == dts && xs[1] == screenD && xs[2] == minTotal;
    var d := IntermediateCasingDiameter(screenD, minTotal, casing);
    if d.Ok? {
      var top := if chamber then FindRow(t3, "pump_chamber_casing").value.bottom else Finite(0.0);
      var row := Stage(top, Finite(dts - 10.0), Finite(d.value));
      assert SurfaceTopIntermediateStep(t3, chamber, attrs, screenDiameter, casing) ==
             Ok(SetRow(t3, "intermediate_casing", row));
      SetThenFind(t3, "intermediate_casing", row);
    }
  }
}
