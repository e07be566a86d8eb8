/**
 * The aggregate parameter store: the same inputs, catalogs and layer table as the dict store,
 * installation and cost outputs written by stage, and a readiness flag for each export.
 */
module DataStore {
  import opened Wrappers
  import opened Catalogs
  import opened StoreTypes

  class WellBoreDataStore {
    const isProductionWell: bool
    var attrs: map<Attr, Value>
    var casingTable: DiameterTable
    var drillingTable: DiameterTable
    var layers: seq<Layer>
    var readyForCalculation: bool
    var readyForInstallationOutput: bool
    var readyForCostOutput: bool

    /**
     * A fresh store: every attribute `None` but the constants and the all-NaN casing stage
     * table, the default catalogs, an empty layer table and both flags down.
     */
    constructor(isProductionWell: bool)
      ensures this.isProductionWell == isProductionWell
      ensures attrs == DefaultAttrs() && layers == []
      ensures casingTable == DefaultCasingTable() && drillingTable == DefaultDrillingTable()
      ensures !readyForCalculation && !readyForInstallationOutput && !readyForCostOutput
    {
      this.isProductionWell := isProductionWell;
      attrs := DefaultAttrs();
      casingTable := DefaultCasingTable();
      drillingTable := DefaultDrillingTable();
      layers := [];
      readyForCalculation := false;
      readyForInstallationOutput := false;
      readyForCostOutput := false;
    }

    /**
     * `_initialise_diameter_tables`: each catalog is replaced by its default unless one is
     * passed, and passing a table raises ValueError (the truth value of a DataFrame is
     * ambiguous), after the casing default is in place if only a drilling table was passed.
     */
    method InitialiseDiameterTables(casing: Option<DiameterTable>, drilling: Option<DiameterTable>)
      returns (s: Status)
      modifies this
      ensures s.Raised? <==> casing.Some? || drilling.Some?
      ensures s.Raised? ==> s.error == ValueError
      ensures casingTable == if casing.Some? then old(casingTable) else DefaultCasingTable()
      ensures drillingTable == if s.Done? then DefaultDrillingTable() else old(drillingTable)
      ensures attrs == old(attrs) && layers == old(layers)
      ensures readyForCalculation == old(readyForCalculation) && readyForInstallationOutput == old(readyForInstallationOutput) &&
              readyForCostOutput == old(readyForCostOutput)
    {
      if casing.Some? {
        return Raised(ValueError);
      }
      casingTable := DefaultCasingTable();
      if drilling.Some? {
        return Raised(ValueError);
      }
      drillingTable := DefaultDrillingTable();
      return Done;
    }

    /** `_assign_initial_input_params`: each listed name with a keyword value is set to it, in order. */
    method AssignInitialInputParams(names: seq<Attr>, kwargs: map<Attr, Value>)
      modifies this
      ensures attrs == AssignedInputs(old(attrs), kwargs, names)
      ensures casingTable == old(casingTable) && drillingTable == old(drillingTable) && layers == old(layers)
      ensures readyForCalculation == old(readyForCalculation) && readyForInstallationOutput == old(readyForInstallationOutput) &&
              readyForCostOutput == old(readyForCostOutput)
    {
      for i := 0 to |names|
        invariant attrs == AssignedInputs(old(attrs), kwargs, names[..i])
        invariant casingTable == old(casingTable) && drillingTable == old(drillingTable) && layers == old(layers)
        invariant readyForCalculation == old(readyForCalculation) &&
                  readyForInstallationOutput == old(readyForInstallationOutput) && readyForCostOutput == old(readyForCostOutput)
      {
        assert names[..i + 1][..i] == names[..i];
        var name := names[i];
        if name in kwargs {
          attrs := attrs[name := kwargs[name]];
        }
      }
      assert names[..|names|] == names;
    }

    /**
     * `_initialise_calculation_parameters`: the inputs, their derived values, the layer table
     * and its derived depths, then the completeness check; the store is ready for calculation
     * only once every step has passed (a raise leaves the flag as it was).
     */
    method InitialiseCalculationParameters(kwargs: map<Attr, Value>, layerInput: Option<seq<Layer>>)
      returns (s: Status)
      modifies this
      ensures InitState(attrs, layers, s) ==
              Initialised(old(attrs), old(layers), kwargs, layerInput, |casingTable.rows|, |drillingTable.rows|)
      ensures readyForCalculation == (s.Done? || old(readyForCalculation))
      ensures casingTable == old(casingTable) && drillingTable == old(drillingTable)
      ensures readyForInstallationOutput == old(readyForInstallationOutput) &&
              readyForCostOutput == old(readyForCostOutput)
    {
      AssignInitialInputParams(InitialParamNames, kwargs);
      s := InitialiseDerivedFlows(layerInput);
    }

    /** The steps of initialisation after the inputs are assigned: flows, lifetime, then the layers. */
    method InitialiseDerivedFlows(layerInput: Option<seq<Layer>>) returns (s: Status)
      modifies this`attrs, this`layers, this`readyForCalculation
      ensures InitState(attrs, layers, s) ==
              InitialisedFlows(old(attrs), old(layers), layerInput, |casingTable.rows|, |drillingTable.rows|)
      ensures readyForCalculation == (s.Done? || old(readyForCalculation))
      ensures casingTable == old(casingTable) && drillingTable == old(drillingTable)
      ensures readyForInstallationOutput == old(readyForInstallationOutput) &&
              readyForCostOutput == old(readyForCostOutput)
    {
      InitialisedFlowsCases(attrs, layers, layerInput, |casingTable.rows|, |drillingTable.rows|);
      var flow := NumberOf(attrs, RequiredFlowRate);
      if flow.Err? {
        return Raised(flow.error);
      }
      var perSecond := attrs[RequiredFlowRatePerLitreSec := Num(flow.value / 86.4)]
                            [RequiredFlowRatePerM3Sec := Num(flow.value / 86400.0)];
      var days := LifetimeInDays(attrs);
      if days.Err? {
        attrs := perSecond;
        return Raised(days.error);
      }
      attrs := WithFlows(attrs, flow.value, days.value);
      if layerInput.None? {
        return Raised(ValueError);
      }
      layers := layerInput.value;
      s := InitialiseLayerDepths();
    }

    /** `_initialise_aquifer_layer_table` done: the target-layer depths, then the top-aquifer steps. */
    method InitialiseLayerDepths() returns (s: Status)
      modifies this`attrs, this`readyForCalculation
      ensures InitState(attrs, layers, s) == InitialisedLayers(old(attrs), old(layers), |casingTable.rows|, |drillingTable.rows|)
      ensures readyForCalculation == (s.Done? || old(readyForCalculation))
      ensures casingTable == old(casingTable) && drillingTable == old(drillingTable)
      ensures readyForInstallationOutput == old(readyForInstallationOutput) &&
              readyForCostOutput == old(readyForCostOutput)
    {
      var target := TargetDepths(layers, CodeOf(attrs, TargetAquiferLayer));
      if target.None? {
        return Raised(ValueError);
      }
      attrs := attrs[DepthToTopScreen := Num(target.value.0)];
      attrs := attrs[AquiferThickness := Num(target.value.1)];
      s := InitialiseTopAquiferBase();
    }

    /** The top-aquifer base, then `_validate_initial_inputs`; the flag is raised last. */
    method InitialiseTopAquiferBase() returns (s: Status)
      modifies this`attrs, this`readyForCalculation
      ensures InitState(attrs, layers, s) == InitialisedTop(old(attrs), old(layers), |casingTable.rows|, |drillingTable.rows|)
      ensures readyForCalculation == (s.Done? || old(readyForCalculation))
      ensures casingTable == old(casingTable) && drillingTable == old(drillingTable)
      ensures readyForInstallationOutput == old(readyForInstallationOutput) &&
              readyForCostOutput == old(readyForCostOutput)
    {
      var base := TopAquiferBase(layers, CodeOf(attrs, TopAquiferLayer));
      if base.None? {
        return Raised(ValueError);
      }
      attrs := attrs[DepthToAquiferBase := Num(base.value)];
      if !InputsComplete(attrs, layers, |casingTable.rows|, |drillingTable.rows|) {
        return Raised(ValueError);
      }
      readyForCalculation := true;
      return Done;
    }

    /**
     * `assign_parameters`: the stage picks the output names (`installation` or 0, `cost` or 1;
     * any other key fails the dictionary lookup with KeyError, so the ValueError check after it
     * never fires); then each keyword whose name is listed and whose value is not `None` is set.
     */
    method AssignParameters(stage: StageKey, kwargs: seq<(Attr, Option<Value>)>) returns (s: Status)
      modifies this
      ensures s.Raised? <==> StageOutputNames(stage, isProductionWell).Err?
      ensures s.Raised? ==> s.error == KeyError && attrs == old(attrs)
      ensures s.Done? ==> attrs == AssignedOutputs(old(attrs), kwargs, StageOutputNames(stage, isProductionWell).value)
      ensures casingTable == old(casingTable) && drillingTable == old(drillingTable) && layers == old(layers)
      ensures readyForCalculation == old(readyForCalculation) &&
              readyForInstallationOutput == old(readyForInstallationOutput) && readyForCostOutput == old(readyForCostOutput)
    {
      var names := StageOutputNames(stage, isProductionWell);
      if names.Err? {
        return Raised(names.error);
      }
      for i := 0 to |kwargs|
        invariant attrs == AssignedOutputs(old(attrs), kwargs[..i], names.value)
        invariant casingTable == old(casingTable) && drillingTable == old(drillingTable) && layers == old(layers)
        invariant readyForCalculation == old(readyForCalculation) &&
                  readyForInstallationOutput == old(readyForInstallationOutput) && readyForCostOutput == old(readyForCostOutput)
      {
        assert kwargs[..i + 1][..i] == kwargs[..i];
        var (name, value) := kwargs[i];
        if name in names.value && value.Some? {
          attrs := attrs[name := value.value];
        }
      }
      assert kwargs[..|kwargs|] == kwargs;
      return Done;
    }

    /** `export_installation_results_to_dict`: nothing until installation output is ready, then each installation output. */
    method ExportInstallationResultsToDict() returns (r: Option<map<Attr, Option<Value>>>)
      ensures IsExportOf(r, readyForInstallationOutput, attrs, OutputNames(isProductionWell))
    {
      if !readyForInstallationOutput {
        return None;
      }
      var results := CollectResults(attrs, OutputNames(isProductionWell));
      return Some(results);
    }

    /** `export_cost_results_to_dict`: nothing until cost output is ready, then both cost tables. */
    method ExportCostResultsToDict() returns (r: Option<map<Attr, Option<Value>>>)
      ensures IsExportOf(r, readyForCostOutput, attrs, CostOutputNames)
    {
      if !readyForCostOutput {
        return None;
      }
      var results := CollectResults(attrs, CostOutputNames);
      return Some(results);
    }

    /** `export_results_to_dict`: both keys are always present, each holding its own gate's export. */
    method ExportResultsToDict() returns (r: CombinedResults)
      ensures IsExportOf(r.installationResults, readyForInstallationOutput, attrs, OutputNames(isProductionWell))
      ensures IsExportOf(r.costResults, readyForCostOutput, attrs, CostOutputNames)
    {
      var installation := ExportInstallationResultsToDict();
      var cost := ExportCostResultsToDict();
      return CombinedResults(installation, cost);
    }

    /** `get_casing_diameters`: the casing catalog, or the column `metric` selects. */
    function GetCasingDiameters(metric: Option<string> := Some("metres")): (r: DiameterSelection)
      reads this
      ensures r == SelectDiameters(casingTable, metric)
    {
      SelectDiameters(casingTable, metric)
    }

    /** `get_drilling_diameters`: the drilling catalog, or the column `metric` selects. */
    function GetDrillingDiameters(metric: Option<string> := Some("metres")): (r: DiameterSelection)
      reads this
      ensures r == SelectDiameters(drillingTable, metric)
    {
      SelectDiameters(drillingTable, metric)
    }
  }
}
