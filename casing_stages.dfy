/**
 * Stage 3 of the design: the casing stages from the surface down — pre-collar, superficial
 * casing, pump chamber, intermediate casing, screen riser and screen — with the rule that
 * decides whether each stage is needed, its depth interval and its diameter.
 */
module CasingStages {
  import opened Wrappers
  import opened Numerics
  import opened Catalogs
  import opened CalcUtils

  /** An interval [top, bottom] in metres below ground. */
  datatype Depths = Depths(top: Float, bottom: Float)

  const PreCollarDiameter: real := 0.762
  const SuperficialThreshold: real := 21.8
  const PreCollarBandLow: real := 10.9

  /** The pre-collar length: 6 floor(1 + 11 base / 6) for a base in (10.9, 21.8], 12 m otherwise. */
  function PreCollarLength(depthToAquiferBase: real): int
  {
    if PreCollarBandLow < depthToAquiferBase <= SuperficialThreshold
    then 6 * (1.0 + depthToAquiferBase * 11.0 / 6.0).Floor
    else 12
  }

  /** `calculate_pre_collar_depths`: the pre-collar runs from `top` for its length. */
  function PreCollarDepths(depthToAquiferBase: real, top: real := 0.0): (d: (real, real))
    ensures d.0 == top
    ensures d.1 - top == PreCollarLength(depthToAquiferBase) as real
    ensures d.1 - top >= 12.0
  {
    PreCollarLengthBounds(depthToAquiferBase);
    (top, top + PreCollarLength(depthToAquiferBase) as real)
  }

  /**
   * The pre-collar length is a multiple of 6 m, 12 m outside the band and between 120 m and
   * 240 m inside it.
   */
  lemma {:induction false} PreCollarLengthBounds(base: real)
    ensures PreCollarLength(base) % 6 == 0
    ensures !(PreCollarBandLow < base <= SuperficialThreshold) ==> PreCollarLength(base) == 12
    ensures PreCollarBandLow < base <= SuperficialThreshold ==> 120 <= PreCollarLength(base) <= 240
  {
    if PreCollarBandLow < base <= SuperficialThreshold {
      var x := 1.0 + base * 11.0 / 6.0;
      assert 20.0 < x <= 41.0;
      assert 20 <= x.Floor <= 40;
    }
  }

  /** `calculate_pre_collar_casing_diameter`: always 30 inches, the widest default casing size. */
  function PreCollarCasingDiameter(): (d: real)
    ensures d in DefaultCasingMetres
    ensures forall c :: c in DefaultCasingMetres ==> c <= d
  {
    PreCollarDiameter
  }

  /** `is_superficial_casing_required`: the top aquifer's base lies deeper than 21.8 m. */
  predicate IsSuperficialCasingRequired(depthToAquiferBase: real)
  {
    depthToAquiferBase > SuperficialThreshold
  }

  /**
   * `calculate_superficial_casing_depths`: [top, top + 1.1 (base + 5)] when required, two NaN
   * otherwise; adding a missing base raises TypeError.
   */
  function SuperficialCasingDepths(required: bool, depthToAquiferBase: Option<real>, top: real := 0.0)
    : (r: Result<Depths>)
    ensures r.Err? <==> required && depthToAquiferBase.None?
    ensures r.Err? ==> r.error == TypeError
    ensures r.Ok? && !required ==> r.value == Depths(NaN, NaN)
    ensures r.Ok? && required ==>
              r.value.top == Finite(top) && r.value.bottom.Finite? &&
              r.value.bottom.value - top == 1.1 * (depthToAquiferBase.value + 5.0)
  {
    if !required then Ok(Depths(NaN, NaN))
    else if depthToAquiferBase.None? then Err(TypeError)
    else Ok(Depths(Finite(top), Finite(top + 1.1 * (depthToAquiferBase.value + 5.0))))
  }

  /** A required superficial casing reaches more than 5 m below the base of the top aquifer. */
  lemma {:induction false} SuperficialReachesBelowBase(base: real, top: real)
    requires IsSuperficialCasingRequired(base)
    ensures var r := SuperficialCasingDepths(true, Some(base), top);
            r.Ok? && r.value.bottom.value - top > base + 5.0
  {
    assert 1.1 * (base + 5.0) - (base + 5.0) == 0.1 * (base + 5.0);
  }

  /**
   * `calculate_pump_chamber_depths`: [top, top + inlet depth] when a chamber is required, two
   * NaN otherwise; a required chamber without an inlet depth raises ValueError.
   */
  function PumpChamberDepths(required: bool, pumpInletDepth: Option<real>, top: real := 0.0): (r: Result<Depths>)
    ensures r.Err? <==> required && pumpInletDepth.None?
    ensures r.Err? ==> r.error == ValueError
    ensures r.Ok? && !required ==> r.value == Depths(NaN, NaN)
    ensures r.Ok? && required ==>
              r.value.top == Finite(top) && r.value.bottom == Finite(top + pumpInletDepth.value)
  {
    if !required then Ok(Depths(NaN, NaN))
    else if pumpInletDepth.None? then Err(ValueError)
    else Ok(Depths(Finite(top), Finite(top + pumpInletDepth.value)))
  }

  /**
   * `calculate_intermediate_casing_diameter`: the larger of one casing size above the screen
   * and the production casing with the least total casing.
   */
  function IntermediateCasingDiameter(screenDiameter: real, smallestProductionDiameter: real,
                                      casingDiameters: seq<real>): (r: Result<real>)
    ensures r.Err? <==> forall c :: c in casingDiameters ==> c <= screenDiameter
    ensures r.Err? ==> r.error == ValueError
    ensures r.Ok? ==> r.value > screenDiameter && r.value >= smallestProductionDiameter
    ensures r.Ok? ==> r.value in casingDiameters || r.value == smallestProductionDiameter
  {
    var next :- FindNextLargestValue(screenDiameter, casingDiameters);
    Ok(Max(next, smallestProductionDiameter))
  }

  /**
   * The intermediate casing is the larger of the next catalog size above the screen and the
   * smallest production casing.
   */
  lemma IntermediateIsNextSizeOrProduction(screenDiameter: real, smallestProductionDiameter: real,
                                           casingDiameters: seq<real>, next: real)
    requires IsNextSizeAbove(next, casingDiameters, screenDiameter)
    ensures IntermediateCasingDiameter(screenDiameter, smallestProductionDiameter, casingDiameters) ==
            Ok(Max(next, smallestProductionDiameter))
  {
    var found := FindNextLargestValue(screenDiameter, casingDiameters);
    assert found.Ok? && found.value <= next && next <= found.value;
  }

  /**
   * `is_separate_pump_chamber_required`: only a production well can need one, and then exactly
   * when the pump housing is wider than the intermediate casing.  Comparing with a missing
   * value raises TypeError, which the helper turns into `False`.
   */
  predicate IsSeparatePumpChamberRequired(isProductionWell: bool, intermediateDiameter: Option<real>,
                                          minimumPumpHousingDiameter: Option<real>)
  {
    isProductionWell && intermediateDiameter.Some? && minimumPumpHousingDiameter.Some? &&
    minimumPumpHousingDiameter.value > intermediateDiameter.value
  }

  /** Both directions of the chamber rule. */
  lemma {:induction false} SeparatePumpChamberRule(isProd: bool, inter: Option<real>, mphd: Option<real>)
    ensures !isProd ==> !IsSeparatePumpChamberRequired(isProd, inter, mphd)
    ensures inter.None? || mphd.None? ==> !IsSeparatePumpChamberRequired(isProd, inter, mphd)
    ensures isProd && inter.Some? && mphd.Some? ==>
              (IsSeparatePumpChamberRequired(isProd, inter, mphd) <==> mphd.value > inter.value)
  {
  }

  /** `calculate_pump_chamber_diameter`: one casing size above the pump housing. */
  function PumpChamberDiameter(minimumPumpHousingDiameter: real, casingDiameters: seq<real>): (r: Result<real>)
    ensures r.Ok? <==> exists c :: c in casingDiameters && c > minimumPumpHousingDiameter
    ensures r.Ok? ==> r.value in casingDiameters && r.value > minimumPumpHousingDiameter
    ensures r.Ok? ==> forall c :: c in casingDiameters && c > minimumPumpHousingDiameter ==> r.value <= c
  {
    FindNextLargestValue(minimumPumpHousingDiameter, casingDiameters)
  }

  /**
   * `calculate_intermediate_casing_depths`: from the given top, or from the surface when no
   * top is given and there is no chamber, to 10 m above the screen.  A chamber without a top
   * raises ValueError.  A top that is given is used as it is, NaN included.
   */
  function IntermediateCasingDepths(depthToTopScreen: real, separatePumpChamberRequired: bool,
                                    intermediateTop: Option<Float>): (r: Result<Depths>)
    ensures r.Err? <==> intermediateTop.None? && separatePumpChamberRequired
    ensures r.Err? ==> r.error == ValueError
    ensures r.Ok? ==> r.value.bottom == Finite(depthToTopScreen - 10.0)
    ensures r.Ok? ==> r.value.top == (if intermediateTop.Some? then intermediateTop.value else Finite(0.0))
  {
    if intermediateTop.None? then
      if separatePumpChamberRequired then Err(ValueError)
      else Ok(Depths(Finite(0.0), Finite(depthToTopScreen - 10.0)))
    else Ok(Depths(intermediateTop.value, Finite(depthToTopScreen - 10.0)))
  }

  /** `calculate_screen_riser_depths`: the 20 m directly above the screen. */
  function ScreenRiserDepths(depthToTopScreen: real): (d: (real, real))
    ensures d.1 - d.0 == 20.0 && d.1 == depthToTopScreen
  {
    (depthToTopScreen - 20.0, depthToTopScreen)
  }

  /** `calculate_screen_riser_diameter`: the riser has the screen's diameter. */
  function ScreenRiserDiameter(screenDiameter: real): (d: real)
    ensures d == screenDiameter
  {
    screenDiameter
  }

  /**
   * `calculate_superficial_casing_diameter`: one casing size above the given diameter when
   * required, NaN otherwise.  A missing diameter or catalog makes the comparison inside the
   * lookup raise TypeError.
   */
  function SuperficialCasingDiameter(required: bool, diameter: Option<real>, casingDiameters: Option<seq<real>>)
    : (r: Result<Float>)
    ensures !required ==> r == Ok(NaN)
    ensures required && (diameter.None? || casingDiameters.None?) ==> r == Err(TypeError)
    ensures required && diameter.Some? && casingDiameters.Some? ==>
              (r.Ok? <==> exists c :: c in casingDiameters.value && c > diameter.value) &&
              (r.Err? ==> r.error == ValueError) &&
              (r.Ok? ==> r.value.Finite? && IsNextSizeAbove(r.value.value, casingDiameters.value, diameter.value))
  {
    if !required then Ok(NaN)
    else if diameter.None? || casingDiameters.None? then Err(TypeError)
    else
      var next :- FindNextLargestValue(diameter.value, casingDiameters.value);
      Ok(Finite(next))
  }

  /**
   * `calculate_drill_bit_diameter` on a table of (casing size, recommended bit) pairs: the bit
   * of the first row listing the casing size exactly, NaN when no row does.
   */
  function DrillBitDiameter(casingStageDiameter: real, bits: seq<(real, real)>): (b: Float)
    ensures b.NaN? || b.Finite?
    ensures b.NaN? <==> forall i :: 0 <= i < |bits| ==> bits[i].0 != casingStageDiameter
    ensures b.Finite? ==> exists i :: 0 <= i < |bits| && bits[i].0 == casingStageDiameter && b.value == bits[i].1 &&
                                      forall j :: 0 <= j < i ==> bits[j].0 != casingStageDiameter
  {
    if bits == [] then NaN
    else if bits[0].0 == casingStageDiameter then Finite(bits[0].1)
    else
      var rest := DrillBitDiameter(casingStageDiameter, bits[1..]);
      assert forall i :: 1 <= i < |bits| ==> bits[i] == bits[1..][i - 1];
      rest
  }

  /** The (metres, recommended bit) pairs of a casing catalog. */
  function BitPairs(table: DiameterTable): (p: seq<(real, real)>)
    ensures |p| == |table.rows|
    ensures forall i :: 0 <= i < |p| ==> p[i] == (table.rows[i].metres, table.rows[i].recommended)
  {
    seq(|table.rows|, i requires 0 <= i < |table.rows| => (table.rows[i].metres, table.rows[i].recommended))
  }

  /**
   * On a catalog without repeated sizes every listed casing size gets the bit recommended for it.
   */
  lemma {:induction false} DrillBitOfListedSize(table: DiameterTable, i: nat)
    requires i < |table.rows|
    requires forall a, b :: 0 <= a < b < |table.rows| ==> table.rows[a].metres != table.rows[b].metres
    ensures DrillBitDiameter(table.rows[i].metres, BitPairs(table)) == Finite(table.rows[i].recommended)
  {
    var p := BitPairs(table);
    var b := DrillBitDiameter(table.rows[i].metres, p);
    assert p[i].0 == table.rows[i].metres;
    assert b.Finite?;
    var k :| 0 <= k < |p| && p[k].0 == table.rows[i].metres && b.value == p[k].1 &&
             forall j :: 0 <= j < k ==> p[j].0 != table.rows[i].metres;
    assert k == i;
  }

  /** Every default casing size is drilled with its recommended bit, which is wider than the casing. */
  lemma {:induction false} DefaultDrillBitIsRecommended(i: nat)
    requires i < |DefaultCasingTable().rows|
    ensures var row := DefaultCasingTable().rows[i];
            DrillBitDiameter(row.metres, BitPairs(DefaultCasingTable())) == Finite(row.recommended) &&
            row.recommended > row.metres
  {
    var t := DefaultCasingTable();
    DefaultCatalogsAscend();
    DefaultRecommendationsFit();
    AscendingOrder(t.Metres());
    assert forall a, b :: 0 <= a < b < |t.rows| ==> t.rows[a].metres != t.rows[b].metres by {
      forall a, b | 0 <= a < b < |t.rows| ensures t.rows[a].metres != t.rows[b].metres {
        assert t.Metres()[a] < t.Metres()[b];
      }
    }
    DrillBitOfListedSize(t, i);
    assert t.rows[i] in t.rows;
  }

  /**
   * `calculate_screen_depths`: from the top of the screen to that depth plus the screen length,
   * rounded half to even; ValueError when the screen is longer than the aquifer is thick.
   */
  function ScreenDepths(depthToTopScreen: real, screenLength: real, aquiferThickness: real): (r: Result<(real, int)>)
    ensures r.Err? <==> aquiferThickness < screenLength
    ensures r.Err? ==> r.error == ValueError
    ensures r.Ok? ==> r.value.0 == depthToTopScreen
    ensures r.Ok? ==> Abs(r.value.1 as real - (depthToTopScreen + screenLength)) <= 0.5
  {
    if aquiferThickness < screenLength then Err(ValueError)
    else Ok((depthToTopScreen, RoundHalfEven(depthToTopScreen + screenLength)))
  }

  /** The screen riser ends where the screen starts, and the screen ends within the aquifer to the metre. */
  lemma {:induction false} RiserMeetsScreen(dts: real, sl: real, z: real)
    requires sl <= z
    ensures ScreenDepths(dts, sl, z).Ok?
    ensures ScreenRiserDepths(dts).1 == ScreenDepths(dts, sl, z).value.0
    ensures ScreenDepths(dts, sl, z).value.1 as real <= dts + z + 0.5
  {
  }
}
