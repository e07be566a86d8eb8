/**
 * The parameter store the design pipelines work on: named inputs and outputs, the diameter
 * catalogs, the aquifer layer table, and the two flags that gate calculation and export.
 */
module DictStore {
  import opened Wrappers
  import opened Catalogs
  import opened StoreTypes

  class WellBoreDict {
    const isProductionWell: bool
    var attrs: map<Attr, Value>
    var casingTable: DiameterTable
    var drillingTable: DiameterTable
    var layers: seq<Layer>
    var readyForCalculation: bool
    var calculationCompleted: bool

    /**
     * A fresh store: every attribute `None` but the constants and the all-NaN casing stage
     * table, the default catalogs, an empty layer table and both flags down.
     */
    constructor(isProductionWell: bool)
      ensures this.isProductionWell == isProductionWell
      ensures attrs == DefaultAttrs() && layers == []
      ensures casingTable == DefaultCasingTable() && drillingTable == DefaultDrillingTable()
      ensures !readyForCalculation && !calculationCompleted
    {
      this.isProductionWell := isProductionWell;
      attrs := DefaultAttrs();
      casingTable := DefaultCasingTable();
      drillingTable := DefaultDrillingTable();
      layers := [];
      readyForCalculation := false;
      calculationCompleted := false;
    }

    /**
     * `initialise_diameter_tables`: each catalog is replaced by its default unless one is
     * passed, and passing a table raises ValueError (the truth value of a DataFrame is
     * ambiguous), after the casing default is in place if only a drilling table was passed.
     */
    method InitialiseDiameterTables(casing: Option<DiameterTable>, drilling: Option<DiameterTable>)
      returns (s: Status)
      modifies this
      ensures s.Raised? <==> casing.Some? || drilling.Some?
      ensures s.Raised? ==> s.error == ValueError
      ensures casingTable == if casing.Some? then old(casingTable) else DefaultCasingTable()
      ensures drillingTable == if s.Done? then DefaultDrillingTable() else old(drillingTable)
      ensures attrs == old(attrs) && layers == old(layers)
      ensures readyForCalculation == old(readyForCalculation) && calculationCompleted == old(calculationCompleted)
    {
      if casing.Some? {
        return Raised(ValueError);
      }
      casingTable := DefaultCasingTable();
      if drilling.Some? {
        return Raised(ValueError);
      }
      drillingTable := DefaultDrillingTable();
      return Done;
    }

    /** `_assign_input_params`: each listed name with a keyword value is set to it, in order. */
    method AssignInputParams(names: seq<Attr>, kwargs: map<Attr, Value>)
      modifies this
      ensures attrs == AssignedInputs(old(attrs), kwargs, names)
      ensures casingTable == old(casingTable) && drillingTable == old(drillingTable) && layers == old(layers)
      ensures readyForCalculation == old(readyForCalculation) && calculationCompleted == old(calculationCompleted)
    {
      for i := 0 to |names|
        invariant attrs == AssignedInputs(old(attrs), kwargs, names[..i])
        invariant casingTable == old(casingTable) && drillingTable == old(drillingTable) && layers == old(layers)
        invariant readyForCalculation == old(readyForCalculation) && calculationCompleted == old(calculationCompleted)
      {
        assert names[..i + 1][..i] == names[..i];
        var name := names[i];
        if name in kwargs {
          attrs := attrs[name := kwargs[name]];
        }
      }
      assert names[..|names|] == names;
    }

    /**
     * `initialise_calculation_parameters`: the inputs, their derived values, the layer table
     * and its derived depths, then the completeness check; the store is ready for calculation
     * only once every step has passed (a raise leaves the flag as it was).
     */
    method InitialiseCalculationParameters(kwargs: map<Attr, Value>, layerInput: Option<seq<Layer>>)
      returns (s: Status)
      modifies this
      ensures InitState(attrs, layers, s) ==
              Initialised(old(attrs), old(layers), kwargs, layerInput, |casingTable.rows|, |drillingTable.rows|)
      ensures readyForCalculation == (s.Done? || old(readyForCalculation))
      ensures casingTable == old(casingTable) && drillingTable == old(drillingTable)
      ensures calculationCompleted == old(calculationCompleted)
    {
      AssignInputParams(InitialParamNames, kwargs);
      s := InitialiseDerivedFlows(layerInput);
    }

    /** The steps of initialisation after the inputs are assigned: flows, lifetime, then the layers. */
    method InitialiseDerivedFlows(layerInput: Option<seq<Layer>>) returns (s: Status)
      modifies this`attrs, this`layers, this`readyForCalculation
      ensures InitState(attrs, layers, s) ==
              InitialisedFlows(old(attrs), old(layers), layerInput, |casingTable.rows|, |drillingTable.rows|)
      ensures readyForCalculation == (s.Done? || old(readyForCalculation))
      ensures casingTable == old(casingTable) && drillingTable == old(drillingTable)
      ensures calculationCompleted == old(calculationCompleted)
    {
      InitialisedFlowsCases(attrs, layers, layerInput, |casingTable.rows|, |drillingTable.rows|);
      var flow := NumberOf(attrs, RequiredFlowRate);
      if flow.Err? {
        return Raised(flow.error);
      }
      var perSecond := attrs[RequiredFlowRatePerLitreSec := Num(flow.value / 86.4)]
                            [RequiredFlowRatePerM3Sec := Num(flow.value / 86400.0)];
      var days := LifetimeInDays(attrs);
      if days.Err? {
        attrs := perSecond;
        return Raised(days.error);
      }
      attrs := WithFlows(attrs, flow.value, days.value);
      if layerInput.None? {
        return Raised(ValueError);
      }
      layers := layerInput.value;
      s := InitialiseLayerDepths();
    }

    /** `_initialise_aquifer_layer_table` done: the target-layer depths, then the top-aquifer steps. */
    method InitialiseLayerDepths() returns (s: Status)
      modifies this`attrs, this`readyForCalculation
      ensures InitState(attrs, layers, s) == InitialisedLayers(old(attrs), old(layers), |casingTable.rows|, |drillingTable.rows|)
      ensures readyForCalculation == (s.Done? || old(readyForCalculation))
      ensures casingTable == old(casingTable) && drillingTable == old(drillingTable)
      ensures calculationCompleted == old(calculationCompleted)
    {
      var target := TargetDepths(layers, CodeOf(attrs, TargetAquiferLayer));
      if target.None? {
        return Raised(ValueError);
      }
      attrs := attrs[DepthToTopScreen := Num(target.value.0)];
      attrs := attrs[AquiferThickness := Num(target.value.1)];
      s := InitialiseTopAquiferBase();
    }

    /** The top-aquifer base, then `_validate_initial_inputs`; the flag is raised last. */
    method InitialiseTopAquiferBase() returns (s: Status)
      modifies this`attrs, this`readyForCalculation
      ensures InitState(attrs, layers, s) == InitialisedTop(old(attrs), old(layers), |casingTable.rows|, |drillingTable.rows|)
      ensures readyForCalculation == (s.Done? || old(readyForCalculation))
      ensures casingTable == old(casingTable) && drillingTable == old(drillingTable)
      ensures calculationCompleted == old(calculationCompleted)
    {
      var base := TopAquiferBase(layers, CodeOf(attrs, TopAquiferLayer));
      if base.None? {
        return Raised(ValueError);
      }
      attrs := attrs[DepthToAquiferBase := Num(base.value)];
      if !InputsComplete(attrs, layers, |casingTable.rows|, |drillingTable.rows|) {
        return Raised(ValueError);
      }
      readyForCalculation := true;
      return Done;
    }

    /**
     * `export_results_to_dict`: nothing until the calculation has completed, then every output
     * name of the well type with its value (`None` where unset).
     */
    method ExportResultsToDict() returns (r: Option<map<Attr, Option<Value>>>)
      ensures IsExportOf(r, calculationCompleted, attrs, OutputNames(isProductionWell))
    {
      if !calculationCompleted {
        return None;
      }
      var results := CollectResults(attrs, OutputNames(isProductionWell));
      return Some(results);
    }

    /** `get_casing_diameters`: the casing catalog, or the column `metric` selects. */
    function GetCasingDiameters(metric: Option<string> := Some("metres")): (r: DiameterSelection)
      reads this
      ensures r == SelectDiameters(casingTable, metric)
    {
      SelectDiameters(casingTable, metric)
    }

    /** `get_drilling_diameters`: the drilling catalog, or the column `metric` selects. */
    function GetDrillingDiameters(metric: Option<string> := Some("metres")): (r: DiameterSelection)
      reads this
      ensures r == SelectDiameters(drillingTable, metric)
    {
      SelectDiameters(drillingTable, metric)
    }
  }
}
