# Wellbore design calculator — verified model

This project models the calculation core of `geodrillcalc`, which designs the well for a groundwater
heat-pump or aquifer-storage scheme. The calculator takes the following inputs:

- the required flow rate;
- the aquifer properties: hydraulic conductivity, porosity and thickness;
- the bore lifetime and the drawdown;
- the table of geological layers;
- the two diameter catalogs: casing sizes with their recommended drill bit, and drilling sizes with
  their recommended screen.

From these it computes the well's components:

- the screen length and its uncertainty band;
- the minimum open-hole diameter, snapped up to the next drilling size;
- the production screen diameter. Every catalog casing is tried as the production casing; the
  up-hole friction (Hazen–Williams) bounds the screen diameter, which is snapped up a size, and the
  candidate with the least total casing wins;
- the pump inlet depth and the pump housing diameter;
- the casing stage table, top to bottom: pre-collar, superficial casing, pump chamber, intermediate
  casing, screen riser, screen, with a drill bit per stage.

The results live in a parameter store (`WellBoreDict`, or the newer `WellBoreDataStore`). The store is
initialised from keyword inputs and a layer table, and it exports its outputs once a pipeline has run.
A small cost helper turns margin rows into low/base/high cost estimates.

Modules, one per source file (plus shared types):

- `Wrappers`: `Option`, `Result` and the Python exception kinds.
- `Numerics`: exact reals; numpy's non-finite floats; Python's `round`, `max` and float division.
  The transcendental functions (`log10`, fractional powers, `sqrt`) are passed in as a `MathLib`
  record.
- `Catalogs`: the diameter tables and their default contents.
- `CalcUtils`: nearest-value lookups and the diameter-table query.
- `CalcPump`: pump size, safety margin, inlet depth and housing diameter.
- `CalcScreen`: screen length, casing friction, minimum screen diameter, total casing and open hole.
- `CasingStages`: the depth and diameter rules of every casing stage.
- `ScreenSelection`: the screen stage table of candidates and the choice of the production screen.
- `StoreTypes`: attributes, the casing stage table as labelled rows, initialisation and exports, all
  as values.
- `Validation`: the geology feasibility check.
- `DictStore`, `DataStore`: the two store classes, whose methods update their fields in place.
- `PipelineSteps`, `CasingTableFacts`: the pipeline steps as values, and facts about the casing
  stage table they build.
- `WellborecalcPipeline`: the current pipeline (screen, pump and casing stages).
- `IntervalPipeline`: the older pipeline (interval, pump and casing stages, for either pump).
- `CostUtils`: the cost table.

A store's attributes are a map from attribute name to value; an absent key is Python's `None`. An
arithmetic step on a missing or non-numeric attribute fails with `TypeError`, except where Python's
operator accepts text: `bore_lifetime_year * 365` repeats a text lifetime 365 times, and
initialisation goes on with that text as the lifetime in days. Each pipeline stage is a
function from the attribute map to a new map or an exception. The pipeline class method applies that
function to its store and is proved equal to it; lemmas then state what each stage writes.

## Model

| member | source | states |
|---|---|---|
| Numerics.Divide | geodrillcalc/wellborecalc/stage1_calc_screen.py:271-273 | numpy float division: finite exactly when the denominator is non-zero, then quotient × denominator = numerator; ±inf for a non-zero numerator over zero, NaN for 0/0 |
| Numerics.RoundHalfEven | geodrillcalc/wellbore_param_calc.py:690 | Python's `round`: within 0.5 of the argument, and even on an exact tie |
| CalcUtils.FindNearestValue | geodrillcalc/utils/calc_utils.py:26-34 | ValueError exactly when no candidate is admitted (empty argmin); otherwise a listed value, admitted by the `>=`/`>` filter when one applies, and no farther from `val` than any candidate |
| CalcUtils.FindNextLargestValue | geodrillcalc/utils/calc_utils.py:50-52 | succeeds iff some listed size exceeds `val`; the result is listed, exceeds `val`, and is the least such size; otherwise ValueError |
| CalcUtils.FindNextLargestFloat | geodrillcalc/utils/calc_utils.py:50-52 | the same lookup on a numpy cell: a finite value behaves as above, NaN and +inf find nothing (ValueError), -inf gets the first size |
| CalcUtils.NearestDefaultIsCeiling | geodrillcalc/utils/calc_utils.py:26-34 | with the defaults the lookup is the ceiling in the catalog: it succeeds iff a size ≥ `val` exists, returns the least such size, and returns `val` itself when listed |
| CalcUtils.NearestUnrestrictedIsFirstClosest | geodrillcalc/utils/calc_utils.py:29-34 | with no filter, the lookup fails only on an empty catalog and returns the first of the closest entries |
| CalcUtils.NextLargestOfListedSize | geodrillcalc/utils/calc_utils.py:50-52 | in an ascending catalog the size after a listed size is its successor |
| CalcUtils.NextLargestBetweenNeighbours | geodrillcalc/utils/calc_utils.py:50-52 | in an ascending catalog a value in `[a[i], a[i+1])` snaps to `a[i+1]` |
| CalcUtils.AscendingOrder | geodrillcalc/utils/calc_utils.py:50-52 | strict increase between neighbours gives strict increase between any two positions (the order the snapping lemmas rely on) |
| CalcUtils.QueryDiameterTable | geodrillcalc/utils/calc_utils.py:61-72 | KeyError for an unknown column; RuntimeError exactly when no row matches; IndexError exactly when a row matches but the column index is out of range; otherwise the `param` cell (Python's negative indexing) of the first matching row |
| CalcUtils.QueryRecommendedOfListedSize | geodrillcalc/utils/calc_utils.py:61-66 | with distinct sizes, querying a listed size returns that row's recommendation |
| Catalogs.DefaultCasingTable | geodrillcalc/wellbore_dict.py:205-209 | the default casing catalog: 14 rows with the listed inches, metres and recommended bits |
| Catalogs.DefaultDrillingTable | geodrillcalc/wellbore_dict.py:211-219 | the default drilling catalog: 21 rows with the listed inches, metres and recommended screens |
| Catalogs.DefaultCatalogsAscend | geodrillcalc/wellbore_dict.py:205-219 | both default catalogs ascend strictly in metres and in inches |
| Catalogs.DefaultRecommendationsFit | geodrillcalc/wellbore_dict.py:205-219 | every recommended bit is a drilling size wider than its casing; every recommended screen is a casing size narrower than its hole |
| CalcPump.AssignPumpDiameter | geodrillcalc/wellborecalc/calc_pump.py:42-56 | ValueError exactly for a negative flow; otherwise one of the five pump sizes, namely the class's inches times 0.0254 |
| CalcPump.PumpClassBoundaries | geodrillcalc/wellborecalc/calc_pump.py:44-56 | the class boundaries 5, 10, 50 and 70 L/s give 4, 6, 8, 10 and 12 inch pumps in metres |
| CalcPump.PumpDiameterMonotone | geodrillcalc/wellborecalc/calc_pump.py:44-56 | a larger non-negative flow never gets a smaller pump |
| CalcPump.SafetyMargin | geodrillcalc/wellborecalc/calc_pump.py:76 | the margin is the larger of 10 m and 0.2 × (groundwater depth + drawdown) |
| CalcPump.InletBelowDrawdownLevel | geodrillcalc/wellborecalc/calc_pump.py:106-107 | the inlet lies at least margin below the drawn-down water level, and each year of lifetime lowers it by the decline rate |
| CalcPump.HousingAtLeastPump | geodrillcalc/wellborecalc/calc_pump.py:129-130 | with an exact square root, the housing diameter squared is P² + 4Q/(3.7π), so the housing is never narrower than the pump |
| CalcScreen.RawScreenLength | geodrillcalc/wellborecalc/stage1_calc_screen.py:88-89 | ZeroDivisionError exactly when a denominator is zero; otherwise the length times 4πK·Sw equals 2.3·Q·log10(2.25·K·t/(r²·Ss)) |
| CalcScreen.ScreenLengthOf | geodrillcalc/wellborecalc/stage1_calc_screen.py:90-96 | the (doubled for injection) length capped at the thickness; band lower = 0.9·length, upper = 1.1·length capped at the thickness; lower ≤ length ≤ upper for a non-negative length |
| CalcScreen.MinimumScreenLength | geodrillcalc/wellborecalc/stage1_calc_screen.py:59-96 | the screen length and band of the two functions above, or the ZeroDivisionError of the raw formula; never longer than the aquifer |
| CalcScreen.InjectionDoublesBeforeClamp | geodrillcalc/wellborecalc/stage1_calc_screen.py:90-94 | an injection bore's screen is twice the production screen while that fits, else the whole aquifer with band (0.9z, z) |
| CalcScreen.CasingFriction | geodrillcalc/wellborecalc/stage1_calc_screen.py:94-120 | the Hazen–Williams relation: friction × C^1.852 × D^4.8704 = 10.67 × depth × Q^1.852 whenever the divisor is non-zero; a zero divisor gives an infinity or NaN, as numpy division does |
| CalcScreen.FrictionProportionalToDepth | geodrillcalc/wellborecalc/stage1_calc_screen.py:118-120 | with positive powers the Hazen–Williams friction is finite, positive for a positive depth, and proportional to the depth to the screen |
| CalcScreen.DiameterRoot | geodrillcalc/wellborecalc/stage1_calc_screen.py:149-150 | numpy's fractional power is NaN exactly for a negative base |
| CalcScreen.MinScreenDiameterOf | geodrillcalc/wellborecalc/stage1_calc_screen.py:146-154 | NaN for a friction above 20 m or NaN; below 20 m, with a positive roughness power and a non-negative numerator, the Hazen–Williams root of numerator/divisor; at exactly 20 m, +inf (or NaN for a zero numerator) |
| CalcScreen.MinimumScreenDiameter | geodrillcalc/wellborecalc/stage1_calc_screen.py:146-154 | a fresh array with one cell per friction, each the per-cell function above, NaN where the friction exceeds 20 m |
| CalcScreen.MinimumScreenDiameterScalar | geodrillcalc/wellbore_param_calc.py:142-153 | the scalar form, live as `calculate_minimum_screen_diameter` here and repeated under `@DeprecationWarning` at `stage1_calc_screen.py:183-194`: NaN above 20 m; ZeroDivisionError exactly when the divisor is zero (in particular at 20 m); else the same root |
| CalcScreen.ScalarAgreesWithArrayCell | geodrillcalc/wellborecalc/stage1_calc_screen.py:146-194 | away from 20 m the scalar form agrees with the array cell, except that it raises ZeroDivisionError where the roughness power is zero |
| CalcScreen.TotalCasing | geodrillcalc/wellborecalc/stage1_calc_screen.py:218-230 | NaN when the screen is NaN or not narrower than the production casing; otherwise intermediate·π·D + length·π·d |
| CalcScreen.MinimumOpenHoleDiameter | geodrillcalc/wellborecalc/stage1_calc_screen.py:271-273 | finite exactly when v·π·φ·NGR·SL ≠ 0, and then diameter × that product = flow |
| CalcScreen.OpenHoleInverseInLength | geodrillcalc/wellborecalc/stage1_calc_screen.py:271-273 | for positive inputs the minimum open hole is positive and inversely proportional to the screen length |
| CasingStages.PreCollarDepths | geodrillcalc/wellbore_param_calc.py:387-393 | starts at the given top and is at least 12 m long, of the rule's length |
| CasingStages.PreCollarLengthBounds | geodrillcalc/wellbore_param_calc.py:387-390 | the pre-collar length is a multiple of 6: 12 m outside (10.9, 21.8], between 120 and 240 m inside |
| CasingStages.PreCollarCasingDiameter | geodrillcalc/wellbore_param_calc.py:407 | the pre-collar casing is the widest catalog casing (0.762 m) |
| CasingStages.SuperficialCasingDepths | geodrillcalc/wellbore_param_calc.py:453-457 | TypeError when required without a base; NaN depths when not required; else from the top to top + 1.1·(base + 5) |
| CasingStages.SuperficialReachesBelowBase | geodrillcalc/wellbore_param_calc.py:410-457 | when required (base > 21.8 m) the superficial casing reaches more than 5 m below the aquifer base |
| CasingStages.PumpChamberDepths | geodrillcalc/wellbore_param_calc.py:480-484 | ValueError exactly when required without an inlet depth; NaN when not required; else from the top down to the pump inlet |
| CasingStages.IntermediateCasingDiameter | geodrillcalc/wellbore_param_calc.py:506-507 | ValueError exactly when no catalog casing is wider than the screen; otherwise wider than the screen, at least the smallest production casing, and one of the two |
| CasingStages.IntermediateIsNextSizeOrProduction | geodrillcalc/wellbore_param_calc.py:486-507 | whenever a catalog casing is wider than the screen, the result is the larger of the next catalog size above the screen and the smallest production casing |
| CasingStages.SeparatePumpChamberRule | geodrillcalc/wellbore_param_calc.py:529-534 | a chamber is needed only in a production well, and then exactly when the housing is wider than the intermediate casing; a missing value means no chamber |
| CasingStages.PumpChamberDiameter | geodrillcalc/wellbore_param_calc.py:553-554 | succeeds iff some casing is wider than the housing; the result is the next catalog casing above the housing |
| CasingStages.IntermediateCasingDepths | geodrillcalc/wellbore_param_calc.py:577-583 | ValueError exactly when a chamber is required but no top is given; the casing ends 10 m above the screen and starts at the given top or the surface |
| CasingStages.ScreenRiserDepths | geodrillcalc/wellbore_param_calc.py:600 | the riser is 20 m long and ends at the top of the screen |
| CasingStages.ScreenRiserDiameter | geodrillcalc/wellbore_param_calc.py:614 | the riser has the screen's diameter |
| CasingStages.SuperficialCasingDiameter | geodrillcalc/wellbore_param_calc.py:638-641 | NaN when not required; TypeError when required without a diameter or catalog; else it succeeds iff some catalog casing is wider than the diameter, and then returns the next catalog size above it (the least wider casing); otherwise ValueError |
| CasingStages.DrillBitDiameter | geodrillcalc/wellbore_param_calc.py:662-668 | NaN exactly when no catalog row has the stage's casing; otherwise the bit of the first such row |
| CasingStages.DrillBitOfListedSize | geodrillcalc/wellbore_param_calc.py:662-665 | with distinct sizes, a listed casing gets its own row's recommended bit |
| CasingStages.DefaultDrillBitIsRecommended | geodrillcalc/wellbore_param_calc.py:662-665 | every default casing gets its recommended bit, which is wider than the casing |
| CasingStages.ScreenDepths | geodrillcalc/wellbore_param_calc.py:688-690 | ValueError exactly when the aquifer is thinner than the screen; else from the screen top to the rounded screen bottom |
| CasingStages.RiserMeetsScreen | geodrillcalc/wellbore_param_calc.py:600-690 | when the screen fits, the riser ends where the screen starts and the screen ends within the aquifer (to rounding) |
| ScreenSelection.SelectedScreen | geodrillcalc/wellborecalc/wellborecalc_pipeline.py:161-167 | NaN for a NaN minimum; for a finite minimum it succeeds iff some catalog casing is larger, and then it is the least such casing; the only failure is ValueError |
| ScreenSelection.ScreenCandidate | geodrillcalc/wellborecalc/wellborecalc_pipeline.py:148-173 | the row for production casing `c`, or ValueError; its screen is NaN or a catalog size, and wherever its total casing is defined the screen is a number narrower than `c` |
| ScreenSelection.ScreenTableOf | geodrillcalc/wellborecalc/wellborecalc_pipeline.py:146-173 | one candidate row per catalog casing, in order, or ValueError exactly when some row's lookup fails |
| ScreenSelection.CandidatesDetermineTable | geodrillcalc/wellborecalc/wellborecalc_pipeline.py:146-173 | the row-by-row description fixes a single table or error |
| ScreenSelection.BuildScreenTable | geodrillcalc/wellborecalc/wellborecalc_pipeline.py:146-173 | the table built column by column (frictions, array minimums, then selections and totals) is the candidate table |
| ScreenSelection.BuildScreenColumns | geodrillcalc/wellborecalc/wellborecalc_pipeline.py:146-173 | the column-by-column loop yields exactly the candidate rows, or the first lookup's ValueError |
| ScreenSelection.ArgMinSkipNaN | geodrillcalc/wellborecalc/wellborecalc_pipeline.py:174-176 | `argmin(skipna=True)`: none exactly when all cells are NaN; else a non-NaN cell no other cell is below, strictly below every earlier one |
| ScreenSelection.MinTotalScreenDiameter | geodrillcalc/wellborecalc/wellborecalc_pipeline.py:174-177 | ValueError exactly when every total casing is NaN; else the screen of the first row with the least total casing |
| ScreenSelection.ProductionScreenChoice | geodrillcalc/wellborecalc/wellborecalc_pipeline.py:174-179 | the least-total choice and the screen diameter max(choice, smallest casing), which equals one of the two and is at least both |
| ScreenSelection.MinTotalIsFeasibleCatalogSize | geodrillcalc/wellborecalc/wellborecalc_pipeline.py:161-177 | the chosen screen is a catalog size; it is the screen of a row whose production casing is wider, and it is above that row's minimum screen diameter wherever that minimum is defined |
| StoreTypes.OutputNames | geodrillcalc/wellbore_dict.py:171-173 | the seven default outputs first, plus the minimum-total screen and the screen stage table exactly for a production well |
| StoreTypes.InitialStageTable | geodrillcalc/wellbore_dict.py:221-232 | six stages in fixed order, every cell NaN |
| StoreTypes.FindRow | geodrillcalc/wellborecalc/wellborecalc_pipeline.py:265 | `.loc[stage]` read: KeyError exactly when no row has the label; otherwise the first labelled row |
| StoreTypes.SetRow | geodrillcalc/wellborecalc/wellborecalc_pipeline.py:235 | `.loc[stage] = row`: overwrites every row with the label, else appends a labelled row |
| StoreTypes.SetThenFind | geodrillcalc/wellborecalc/wellborecalc_pipeline.py:235 | after setting a row, reading that label gives the row back |
| StoreTypes.SetKeepsOthers | geodrillcalc/wellborecalc/wellborecalc_pipeline.py:235 | setting one label leaves the reading of every other label unchanged |
| StoreTypes.DefaultAttrs | geodrillcalc/wellbore_dict.py:176-200 | a fresh store holds only the five constants and the all-NaN stage table; every other attribute is `None` |
| StoreTypes.CollectResults | geodrillcalc/wellbore_dict.py:142-152 | one entry per listed output, holding the attribute's value or `None` |
| StoreTypes.StageOutputNames | geodrillcalc/wellbore_data_store.py:361-371 | `installation`/0 give the installation outputs, `cost`/1 the cost outputs, any other key KeyError |
| StoreTypes.AssignedOutputsMeaning | geodrillcalc/wellbore_data_store.py:374-376 | a listed keyword with a value other than `None` sets its attribute; every other attribute keeps its value |
| StoreTypes.AssignedInputsMeaning | geodrillcalc/wellbore_dict.py:247-251 | exactly the listed names that have a keyword value take it; all else is unchanged |
| StoreTypes.LayerPosition | geodrillcalc/wellbore_dict.py:262-264 | absent exactly when no layer has the code; otherwise the position of the first layer with it |
| StoreTypes.LayerPositionIsLayerIndex | geodrillcalc/wellbore_dict.py:262-264 | the store's layer lookup equals the stand-alone check's `LayerIndex` on the layer codes |
| StoreTypes.TargetDepthsMeaning | geodrillcalc/wellbore_dict.py:117-120 | defined exactly when the target layer is present and not bottommost; screen top = its base, thickness = next base − its base |
| StoreTypes.TargetDepthsAtFirst | geodrillcalc/wellbore_dict.py:117-120 | when the first layer with the target code is above the bottom one, the screen top and thickness are read from it and the layer below |
| StoreTypes.TargetDepthsMissing | geodrillcalc/wellbore_dict.py:116-117 | when no layer above the bottom one has the target code, there are no target depths |
| StoreTypes.TopAquiferBase | geodrillcalc/wellbore_dict.py:123-125 | defined exactly when the top layer is `100qa` or `102utqa` and present; its base is the aquifer base |
| StoreTypes.InitialisedTopMeaning | geodrillcalc/wellbore_dict.py:123-129 | only the aquifer base changes; success means the inputs are complete and the base is derived; a failure is ValueError |
| StoreTypes.InitialisedLayersMeaning | geodrillcalc/wellbore_dict.py:116-129 | only the three depth attributes change; success means target and top depths derived and inputs complete |
| StoreTypes.RepeatedIsPeriodic | geodrillcalc/wellbore_dict.py:112 | Python's `str * n`: n copies end to end, so character k·len+i is the text's character i |
| StoreTypes.LifetimeInDays | geodrillcalc/wellbore_dict.py:112 | `bore_lifetime_year * 365`: a number times 365, a text 365 times as long; TypeError exactly when the lifetime is unset or neither a number nor a text |
| StoreTypes.WithFlowsMeaning | geodrillcalc/wellbore_dict.py:110-112 | only the L/s and m^3/s flows and the lifetime in days change; the flows are the flow input /86.4 and /86400 and the lifetime is `LifetimeInDays` of the input |
| StoreTypes.TextLifetimeIsRepeated | geodrillcalc/wellbore_dict.py:108-129 | a text lifetime does not stop initialisation: the days attribute holds it repeated 365 times and the layer steps run as for a number |
| StoreTypes.InitialisedFlowsMeaning | geodrillcalc/wellbore_dict.py:110-129 | only derived attributes change; success means flows, lifetime, target and top depths are derived from the given layer table |
| StoreTypes.InitialisedMeaning | geodrillcalc/wellbore_dict.py:108-129 | after the keyword inputs, only derived attributes change; success means every derived value is in place (a text lifetime repeated, not rejected) and inputs complete; failures are TypeError or ValueError |
| StoreTypes.InitialisedKeepsOutputs | geodrillcalc/wellbore_dict.py:108-129 | initialisation never touches an attribute outside the initial parameters, whatever its outcome |
| StoreTypes.MissingFlowRateRaises | geodrillcalc/wellbore_dict.py:109-110 | without a flow rate, initialisation raises TypeError right after assigning the inputs |
| StoreTypes.InitialisationImpliesFeasibility | geodrillcalc/utils/validation.py:12-38 | a store that initialises with the default target and its top layer first passes the stand-alone feasibility check |
| StoreTypes.SelectDiameters | geodrillcalc/wellbore_dict.py:300-304 | the whole catalog for no metric or an unknown column; metres for `metres`; inches for any other column |
| StoreTypes.RecommendedColumnGivesInches | geodrillcalc/wellbore_dict.py:303 | asking for the recommendation column returns inches, not the recommendation |
| Validation.CheckInitialCalculationFeasibility | geodrillcalc/utils/validation.py:12-38 | every failure is ValueError, and success returns True |
| Validation.LayerIndex | geodrillcalc/utils/validation.py:32-33 | absent exactly when no layer has the code; otherwise the position of the first layer with it |
| Validation.FeasibleIff | geodrillcalc/utils/validation.py:12-38 | passes exactly when the table is non-empty, its top layer is allowed, and the target occurs above the bottom layer |
| Validation.DefaultTopLayerRule | geodrillcalc/utils/validation.py:12-25 | with the defaults, a top layer other than `100qa`/`102utqa` is rejected |
| Validation.Validate | geodrillcalc/utils/validation.py:57-59 | true without a condition, else the condition's verdict |
| DictStore.WellBoreDict.constructor | geodrillcalc/wellbore_dict.py:98-103 | default attributes, default catalogs, empty layer table, both flags down |
| DictStore.WellBoreDict.InitialiseDiameterTables | geodrillcalc/wellbore_dict.py:202-219 | each catalog becomes its default unless one is passed, and passing a table raises ValueError |
| DictStore.WellBoreDict.AssignInputParams | geodrillcalc/wellbore_dict.py:247-251 | the attributes become the keyword assignment of the listed names; nothing else changes |
| DictStore.WellBoreDict.InitialiseCalculationParameters | geodrillcalc/wellbore_dict.py:108-129 | the store's attributes, layers and outcome are `Initialised`; the ready flag is raised only on success |
| DictStore.WellBoreDict.InitialiseDerivedFlows | geodrillcalc/wellbore_dict.py:110-129 | attributes, layers and outcome are `InitialisedFlows` of the old state |
| DictStore.WellBoreDict.InitialiseLayerDepths | geodrillcalc/wellbore_dict.py:117-129 | attributes, layers and outcome are `InitialisedLayers` of the old state |
| DictStore.WellBoreDict.InitialiseTopAquiferBase | geodrillcalc/wellbore_dict.py:123-129 | attributes, layers and outcome are `InitialisedTop` of the old state |
| DictStore.WellBoreDict.ExportResultsToDict | geodrillcalc/wellbore_dict.py:132-152 | `None` until the calculation completes, then one entry per output name |
| DictStore.WellBoreDict.GetCasingDiameters | geodrillcalc/wellbore_dict.py:306-308 | the casing catalog's metres by default; its inches for any other column name (`inches` or the recommendation); the whole catalog for no metric or an unknown one |
| DictStore.WellBoreDict.GetDrillingDiameters | geodrillcalc/wellbore_dict.py:310-311 | the drilling catalog's metres by default; its inches for any other column name (`inches` or the recommendation); the whole catalog for no metric or an unknown one |
| DataStore.WellBoreDataStore.constructor | geodrillcalc/wellbore_data_store.py:109-131 | default attributes and catalogs, empty layers, all three flags down |
| DataStore.WellBoreDataStore.InitialiseDiameterTables | geodrillcalc/wellbore_data_store.py:292-309 | defaults unless a table is passed; passing one raises ValueError |
| DataStore.WellBoreDataStore.AssignInitialInputParams | geodrillcalc/wellbore_data_store.py:337-341 | the attributes become the keyword assignment of the listed names |
| DataStore.WellBoreDataStore.InitialiseCalculationParameters | geodrillcalc/wellbore_data_store.py:133-159 | state and outcome are `Initialised`; ready only on success; output flags unchanged |
| DataStore.WellBoreDataStore.InitialiseDerivedFlows | geodrillcalc/wellbore_data_store.py:135-159 | state and outcome are `InitialisedFlows` of the old state |
| DataStore.WellBoreDataStore.InitialiseLayerDepths | geodrillcalc/wellbore_data_store.py:142-159 | state and outcome are `InitialisedLayers` of the old state |
| DataStore.WellBoreDataStore.InitialiseTopAquiferBase | geodrillcalc/wellbore_data_store.py:151-159 | state and outcome are `InitialisedTop` of the old state |
| DataStore.WellBoreDataStore.AssignParameters | geodrillcalc/wellbore_data_store.py:343-376 | KeyError exactly for an unknown stage, with nothing written; else the stage's listed outputs with values are set |
| DataStore.WellBoreDataStore.ExportInstallationResultsToDict | geodrillcalc/wellbore_data_store.py:163-184 | `None` until installation output is ready, then one entry per installation output |
| DataStore.WellBoreDataStore.ExportCostResultsToDict | geodrillcalc/wellbore_data_store.py:187-208 | `None` until cost output is ready, then both cost tables |
| DataStore.WellBoreDataStore.ExportResultsToDict | geodrillcalc/wellbore_data_store.py:210-240 | both keys always present, each with its own gate's export |
| DataStore.WellBoreDataStore.GetCasingDiameters | geodrillcalc/wellbore_data_store.py:450-466 | the casing catalog's metres by default; its inches for any other column name (`inches` or the recommendation); the whole catalog for no metric or an unknown one |
| DataStore.WellBoreDataStore.GetDrillingDiameters | geodrillcalc/wellbore_data_store.py:468-484 | the drilling catalog's metres by default; its inches for any other column name (`inches` or the recommendation); the whole catalog for no metric or an unknown one |
| PipelineSteps.Reraised | geodrillcalc/wellborecalc/wellborecalc_pipeline.py:106-111 | ValueError and ZeroDivisionError come out as ValueError; any other exception passes through |
| PipelineSteps.MinimumOpenHoleOf | geodrillcalc/wellborecalc/wellborecalc_pipeline.py:134-138 | its only failure is TypeError, from a missing or non-numeric velocity, porosity or net-to-gross ratio |
| PipelineSteps.StoredScreenLength | geodrillcalc/wellborecalc/wellborecalc_pipeline.py:128-133 | the screen length from the store: TypeError or ZeroDivisionError, or a length and band within the aquifer thickness (conductivity non-zero) |
| PipelineSteps.StoredScreenLengthOf | geodrillcalc/wellborecalc/wellborecalc_pipeline.py:128-133 | from stored numbers, the length is min(raw, z) (or min(2·raw, z)) with band (0.9·len, min(1.1·len, z)) |
| PipelineSteps.ZeroConductivityRaises | geodrillcalc/wellborecalc/wellborecalc_pipeline.py:128-133 | a zero hydraulic conductivity raises ZeroDivisionError |
| PipelineSteps.PumpResults | geodrillcalc/wellborecalc/wellborecalc_pipeline.py:195-206 | the pump results are exactly the inlet depth and housing diameter, or TypeError/ValueError |
| PipelineSteps.PumpStage | geodrillcalc/wellborecalc/wellborecalc_pipeline.py:192-207 | writes nothing but the inlet depth and housing diameter |
| PipelineSteps.PumpStageWrites | geodrillcalc/wellborecalc/wellborecalc_pipeline.py:196-206 | the inlet is WD + Sw + M + rate·years; for a non-negative flow whose housing root √(P² + 4Q/(3.7π)) is exact, the housing is at least the assigned pump |
| PipelineSteps.NegativeFlowStopsPumpStage | geodrillcalc/wellborecalc/calc_pump.py:44-45 | a negative flow in L/s makes the pump stage raise ValueError |
| PipelineSteps.StageTableOf | geodrillcalc/wellborecalc/wellborecalc_pipeline.py:222-223 | the stored stage table when the attribute holds one; KeyError when it holds the screen table instead, AttributeError otherwise |
| PipelineSteps.DrillBitFor | geodrillcalc/wellborecalc/wellborecalc_pipeline.py:280-284 | a finite casing gets its catalog bit; a NaN casing keeps NaN |
| PipelineSteps.WithDrillBits | geodrillcalc/wellborecalc/wellborecalc_pipeline.py:280-284 | same rows and depths and casings, each with the drill bit of its casing |
| PipelineSteps.FillDrillBits | geodrillcalc/wellborecalc/wellborecalc_pipeline.py:280-284 | the row-by-row fill equals `WithDrillBits` |
| CasingTableFacts.InitialRowsAreNaN | geodrillcalc/wellbore_dict.py:221-232 | every stage of the initial table reads as an all-NaN row |
| CasingTableFacts.DrillBitsKeepRows | geodrillcalc/wellborecalc/wellborecalc_pipeline.py:280-284 | adding drill bits keeps each stage's presence and cells and sets its bit from its casing |
| CasingTableFacts.SetKeepsAllOthers | geodrillcalc/wellborecalc/wellborecalc_pipeline.py:235-278 | each `.loc` write leaves every other stage's row unchanged |
| CasingTableFacts.SuperficialCasingStopsTable | geodrillcalc/wellborecalc/wellborecalc_pipeline.py:242-246 | as written: once the aquifer base exceeds 21.8 m the casing rows stop with TypeError |
| CasingTableFacts.UpperRowsChamber | geodrillcalc/wellborecalc/wellborecalc_pipeline.py:231-260 | succeeds only when no superficial casing is needed; the pre-collar row follows the base; the chamber is built exactly when required, from the surface to the inlet, in the next casing above the housing; otherwise that row is untouched |
| CasingTableFacts.IntermediateRow | geodrillcalc/wellborecalc/wellborecalc_pipeline.py:263-270 | the intermediate casing runs from the chamber row's bottom to 10 m above the screen, wider than the screen and at least the minimum-total screen |
| CasingTableFacts.ScreenRows | geodrillcalc/wellborecalc/wellborecalc_pipeline.py:272-278 | the riser spans the 20 m above the screen and the screen runs to its rounded bottom, both at the screen diameter; upper rows unchanged |
| CasingTableFacts.LowerRowsFollowUpper | geodrillcalc/wellborecalc/wellborecalc_pipeline.py:263-278 | the intermediate casing starts where the chamber ends, and the riser ends where the screen starts |
| CasingTableFacts.CasingRowsFromInitialTable | geodrillcalc/wellborecalc/wellborecalc_pipeline.py:263-265 | as written: from the initial table the superficial row stays NaN, the chamber casing is set exactly when a chamber is required, and the intermediate top is the chamber row's bottom, so without a chamber it is NaN |
| CasingTableFacts.SuperficialEnclosesInnerCasing | geodrillcalc/wellbore_param_calc.py:638-641 | corrected superficial stage: succeeds iff a casing wider than the casing it encloses exists; then it runs from the surface past the base by more than 5 m in the next size up, other stages untouched |
| CasingTableFacts.IntermediateStartsAtSurface | geodrillcalc/wellbore_param_calc.py:577-583 | corrected intermediate stage: without a chamber the casing starts at the surface; with one it is the as-written step |
| WellborecalcPipeline.OpenHoleOf | geodrillcalc/wellborecalc/wellborecalc_pipeline.py:134-141 | the open hole is a drilling size, or TypeError/ValueError |
| WellborecalcPipeline.OpenHoleIsNextDrillingSize | geodrillcalc/wellborecalc/wellborecalc_pipeline.py:134-141 | the open hole is the least drilling size above Q/(v·π·φ·NGR·SL), and ValueError exactly when none is |
| WellborecalcPipeline.ScreenStored | geodrillcalc/wellborecalc/wellborecalc_pipeline.py:177-187 | the screen results land in their six attributes and nothing else changes |
| WellborecalcPipeline.ProductionScreenResults | geodrillcalc/wellborecalc/wellborecalc_pipeline.py:144-181 | only screen outputs change; length, band and open hole are the ones given |
| WellborecalcPipeline.ScreenStage | geodrillcalc/wellborecalc/wellborecalc_pipeline.py:113-187 | only screen outputs change; an injection well always fails |
| WellborecalcPipeline.ProductionScreenLengthWritten | geodrillcalc/wellborecalc/wellborecalc_pipeline.py:128-133 | as written: a production well stores min(2·raw, z) and its band |
| WellborecalcPipeline.ProductionLengthIsDoubled | geodrillcalc/wellborecalc/wellborecalc_pipeline.py:128-133 | as written: when 2·raw fits in the aquifer, the stored length differs from the production-bore length |
| WellborecalcPipeline.ProductionScreenDiameterWritten | geodrillcalc/wellborecalc/wellborecalc_pipeline.py:144-181 | the stage stores the candidate table, its least-total screen (a catalog size) and max(that, smallest casing), and an open hole from the drilling catalog |
| WellborecalcPipeline.CasingStage | geodrillcalc/wellborecalc/wellborecalc_pipeline.py:211-286 | only the casing stage table changes, and it holds a stage table |
| WellborecalcPipeline.PipelineOutcome | geodrillcalc/wellborecalc/wellborecalc_pipeline.py:98-111 | a run completes only for a production well, and never ends in ZeroDivisionError |
| WellborecalcPipeline.PipelineWritesOnlyOutputs | geodrillcalc/wellborecalc/wellborecalc_pipeline.py:98-286 | a completed run changes only pipeline outputs; a failed one only screen and pump outputs |
| WellborecalcPipeline.InjectionRunRaisesKeyError | geodrillcalc/wellborecalc/wellborecalc_pipeline.py:182-185 | as written: an injection run that gets as far as the open hole raises KeyError and leaves the store as it was |
| WellborecalcPipeline.CalcPipeline.Of | geodrillcalc/wellborecalc/wellborecalc_pipeline.py:94-95 | the pipeline holds the store's metre columns |
| WellborecalcPipeline.CalcPipeline.Create | geodrillcalc/wellborecalc/wellborecalc_pipeline.py:90-96 | fails exactly when the store is not ready (AttributeError, raised while formatting the message) |
| WellborecalcPipeline.CalcPipeline.ScreenPipeline | geodrillcalc/wellborecalc/wellborecalc_pipeline.py:113-187 | the store changes as `ScreenStage` says, or not at all when it raises |
| WellborecalcPipeline.CalcPipeline.PumpPipeline | geodrillcalc/wellborecalc/wellborecalc_pipeline.py:192-207 | the store changes as `PumpStage` says, or not at all |
| WellborecalcPipeline.CalcPipeline.CasingPipeline | geodrillcalc/wellborecalc/wellborecalc_pipeline.py:211-286 | the store changes as `CasingStage` says, or not at all |
| WellborecalcPipeline.CalcPipeline.Calc | geodrillcalc/wellborecalc/wellborecalc_pipeline.py:98-111 | the store and status are `PipelineOutcome`, and the completed flag is set exactly on success |
| IntervalPipeline.RecommendedScreenFor | geodrillcalc/calc_pipeline.py:131-133 | KeyError without a screen column; IndexError exactly when no row has the open hole; else the first such row's recommended screen |
| IntervalPipeline.ListedOpenHoleHasScreen | geodrillcalc/calc_pipeline.py:131-133 | a listed open hole always has a recommended screen |
| IntervalPipeline.DefaultInjectionScreenSample | geodrillcalc/calc_pipeline.py:131-133 | in the default catalog a 0.2159 m hole takes a 0.1143 m screen |
| IntervalPipeline.IntervalDiameters | geodrillcalc/calc_pipeline.py:110-133 | both open holes snapped from their minimums, the production screen choice, and the injection screen recommended for its hole |
| IntervalPipeline.IntervalResults | geodrillcalc/calc_pipeline.py:73-133 | the production length is the production-bore length and the injection length the injection-bore length |
| IntervalPipeline.IntervalStored | geodrillcalc/calc_pipeline.py:134-137 | the interval results land in their ten attributes and nothing else changes |
| IntervalPipeline.IntervalStage | geodrillcalc/calc_pipeline.py:63-137 | only interval outputs change |
| IntervalPipeline.IntervalTable | geodrillcalc/calc_pipeline.py:85-109 | the table built column by column is the stage's candidate table |
| IntervalPipeline.BothScreenLengths | geodrillcalc/calc_pipeline.py:73-84 | production min(raw, z) and injection min(2·raw, z), each with its band |
| IntervalPipeline.IntervalLengthsWritten | geodrillcalc/calc_pipeline.py:73-84 | the stage stores min(raw, z) for production and min(2·raw, z) for injection, with their bands |
| IntervalPipeline.IntervalOpenHolesWritten | geodrillcalc/calc_pipeline.py:110-124 | each stored open hole is a drilling size, the next one above its finite minimum |
| IntervalPipeline.IntervalScreensWritten | geodrillcalc/calc_pipeline.py:85-130 | the stage stores the candidate table, its least-total screen (a catalog casing) and max(that, smallest casing) |
| IntervalPipeline.IntervalInjectionScreenWritten | geodrillcalc/calc_pipeline.py:121-133 | the stored injection screen is the one recommended for the stored injection hole |
| IntervalPipeline.IntervalCasingStage | geodrillcalc/calc_pipeline.py:158-226 | only the casing stage table changes, and it holds a stage table |
| IntervalPipeline.CasingStageForEitherPump | geodrillcalc/calc_pipeline.py:172-219 | from the initial table, for either pump, the chamber casing is set exactly when the housing is wider than that pump's screen, and the `production_screen` row carries that screen |
| IntervalPipeline.IntervalPipelineOutcome | geodrillcalc/calc_pipeline.py:47-61 | a run never ends in ZeroDivisionError |
| IntervalPipeline.IntervalPipelineWritesOnlyOutputs | geodrillcalc/calc_pipeline.py:47-226 | a completed run changes only pipeline outputs; a failed one only interval and pump outputs |
| IntervalPipeline.CalcPipeline.constructor | geodrillcalc/calc_pipeline.py:41-45 | the pipeline holds the store's metre columns |
| IntervalPipeline.CalcPipeline.IntervalPipeline | geodrillcalc/calc_pipeline.py:63-137 | the store changes as `IntervalStage` says, or not at all |
| IntervalPipeline.CalcPipeline.PumpPipeline | geodrillcalc/calc_pipeline.py:139-154 | the store changes as `PumpStage` says, or not at all |
| IntervalPipeline.CalcPipeline.CasingPipeline | geodrillcalc/calc_pipeline.py:158-226 | the store changes as `IntervalCasingStage` says, or not at all |
| IntervalPipeline.CalcPipeline.Calc | geodrillcalc/calc_pipeline.py:47-61 | the store and status are `IntervalPipelineOutcome`, and the completed flag is set exactly on success |
| CostUtils.PopulateMarginFunctions | geodrillcalc/utils/cost_utils.py:24-37 | ValueError exactly for a repeated label; else one entry per row, whose functions apply the LAST row's bounds in their own row's way (late-binding lambdas) |
| CostUtils.FindMargin | geodrillcalc/utils/cost_utils.py:13-15 | the first margin entry with the label, or none exactly when no entry has it |
| CostUtils.CostOf | geodrillcalc/utils/cost_utils.py:10-20 | base is the label's value or 0; low and high are the margin functions of the base, or the base itself without a margin |
| CostUtils.CalculateCostsWithDf | geodrillcalc/utils/cost_utils.py:4-22 | TypeError exactly when some index label labels two margin rows (the `.at` read gives a column, which is not callable); otherwise one row per index label, in order, each `CostOf` its label |
| CostUtils.PopulatedMarginsAreUnique | geodrillcalc/utils/cost_utils.py:14-15 | margin entries built from rows without a repeated label never label two entries alike, so the TypeError path is unreachable from them |
| CostUtils.CostsFromPopulatedMargins | geodrillcalc/utils/cost_utils.py:4-37 | chained, a label with a margin row gets the last row's bounds applied to its base in its own row's way |

## Left out

- The transcendental functions are not computed: `log10`, fractional powers and `sqrt` are passed in as a `MathLib` record. Lemmas that need a fact about one state it as a precondition. `log10` is taken only over positive arguments: numpy gives -inf for `log10(0)` (a lifetime of 0 days) and NaN for a negative argument, and `CalcScreen.RawScreenLength` does not carry those non-finite lengths on into `min()` and the open-hole division.
- Floating-point rounding is not modelled: finite values are exact reals. NaN and the infinities are modelled for the numpy cells that can hold them.
- `pandas` `argmin(skipna=True)` over all-NaN totals is modelled as ValueError; some pandas versions return -1 instead.
- `_calculate_minimum_screen_diameter` (`geodrillcalc/wellborecalc/stage1_calc_screen.py:157`) is decorated with `@DeprecationWarning`, which replaces the function by an exception instance, so every call to it raises TypeError. `CalcScreen.MinimumScreenDiameterScalar` models the undecorated body instead. Where that body's fractional power of a negative number would give a complex value, the model gives NaN, the value the body's own `except` branch returns.
- `calc_casing`, `calc_interval`, `stage2_calc_pump` and `stage3_calc_casing`, which the pipelines import, are not part of this model. The casing and screen rules are taken from `wellbore_param_calc.py`, the pump rules from `calc_pump.py` and the screen formulas from `stage1_calc_screen.py`.
- The older pipeline (`calc_pipeline.py`) reads `set_params`, `drilling_diameter_data`, `casing_diameter_data`, `casing_stage_data` and `interval_stage_data`, which `WellBoreDict` does not define. The model maps them onto the store's map merge, its two catalogs and its casing stage table, and writes the older pipeline's outputs under their own attribute names.
- The drill-bit helper unpacks the names of exactly two columns, but the pipelines pass the three-column casing catalog, which makes that unpacking raise ValueError. The model uses the (metres, recommended bit) pair that the helper is meant to read.
- In `wellborecalc_pipeline.py:266-268` the intermediate diameter's arguments are in a different order from its definition. The model uses the definition: max(next casing above the screen, smallest production casing).
- Export to JSON (`to_json`, `export_results_to_json_string`), `json.dumps` and the NaN-to-`None` replacement on exported tables are left out; the exports return the stored values.
- Logging, the `logger` parameters and the aquifer-layer-table conversion from non-DataFrame input are left out. The layer table is given as a sequence of (code, is aquifer, depth to base) rows.
- `geodrillcalc.py` (the top-level driver), `cost_param_model.py`, the `wellborecost` modules and `geodrillcost` are not part of this model; only the two cost helpers in `cost_utils.py` are.
- The Langelier saturation index helper `is_water_corrosive` (`geodrillcalc/wellborecalc/stage1_calc_screen.py:13-52`, repeated at `geodrillcalc/wellbore_param_calc.py:9-48`) is not part of this model.
- `wellbore_param_calc.py:4`, `wellborecalc_pipeline.py:6` and `calc_pipeline.py:6` import `find_next_largest_value` from `utils` / `utils.utils`, which does not define it, so as written those imports fail. The model uses `find_next_largest_value` from `geodrillcalc/utils/calc_utils.py` (`CalcUtils.FindNextLargestValue`) in its place.
- DataStore.WellBoreDataStore.ExportInstallationResultsToDict, DataStore.WellBoreDataStore.ExportCostResultsToDict: `wellbore_data_store.py:6` imports `serialize_results` from `utils.utils`, which does not define it, so as written the module fails to import. Both exports build their result with that function (`wellbore_data_store.py:181-183`, `205-207`). The model assumes it collects one name→value entry per listed output, holding `None` where the attribute is unset, as `WellBoreDict`'s export loop does (`StoreTypes.CollectResults`).
- StoreTypes.LifetimeInDays: an input given as a pair or a table, shapes the attribute values can hold only because outputs need them, raises TypeError in the model, where Python would repeat a tuple or pandas would scale a table cell by cell.
- Repeated layer codes are not modelled: the layer codes are taken to be unique. For a code that occurs twice, pandas' `index.get_loc` returns a slice or a boolean mask instead of a position, so the bottommost-layer comparison in `validation.py:32-34` and `wellbore_dict.py:262-266` raises TypeError or ValueError, and `.loc[code]['depth_to_base']` yields a column rather than a number. `Validation.LayerIndex`, `StoreTypes.LayerPosition`, `StoreTypes.TargetDepths` and `StoreTypes.TopAquiferBase` resolve such a code to its first occurrence instead.
- `CalcUtils.validate` duplicates `validation.validate` and is modelled once, as `Validation.Validate`.
- IntervalPipeline.IntervalPipelineOutcome: its own contract states only which exception kinds can come out; what each stage writes is stated by the stage lemmas.
- WellborecalcPipeline.PipelineOutcome: its own contract states only that success needs a production well and which exception kinds can come out; what each stage writes is stated by the stage lemmas.
- WellborecalcPipeline.CasingStage, IntervalPipeline.IntervalCasingStage: their own contracts state only the frame; the rows are stated by the `CasingTableFacts` lemmas.

## Findings

| source | as written | input that shows it | evidently intended | confidence | as-written member | corrected member |
|---|---|---|---|---|---|---|
| geodrillcalc/wellborecalc/wellborecalc_pipeline.py:128-133 | passes `is_production_well` into the `is_injection_bore` slot of the screen-length formula, so a production well's screen is doubled | production well, raw screen length 10 m, aquifer 50 m thick: 20 m is stored instead of 10 m | production bores use the undoubled length (as the older pipeline does, passing False/True) | high; not executed | WellborecalcPipeline.ProductionLengthIsDoubled | IntervalPipeline.IntervalLengthsWritten |
| geodrillcalc/wellborecalc/wellborecalc_pipeline.py:182-185 | the injection branch reads `ir['injection_open_hole_diameter']`, a key this pipeline never sets, so it raises KeyError | any injection well whose screen length and open hole succeed | the injection screen is the recommended screen of the computed open hole | high; not executed | WellborecalcPipeline.InjectionRunRaisesKeyError | IntervalPipeline.IntervalInjectionScreenWritten |
| geodrillcalc/wellborecalc/wellborecalc_pipeline.py:242-246 | calls the superficial-casing diameter with only the flag, so the diameter and catalog are missing and it raises TypeError | aquifer base at 30 m (> 21.8 m) | the superficial casing is the next catalog size above the casing it encloses | high; not executed | CasingTableFacts.SuperficialCasingStopsTable | CasingTableFacts.SuperficialEnclosesInnerCasing |
| geodrillcalc/wellborecalc/wellborecalc_pipeline.py:263-265 | passes the pump-chamber row's bottom as the intermediate top even when no chamber was built, so the top is that row's NaN | production well whose pump housing is no wider than its screen | without a chamber the intermediate casing starts at the surface (top 0) | medium; not executed | CasingTableFacts.CasingRowsFromInitialTable | CasingTableFacts.IntermediateStartsAtSurface |
